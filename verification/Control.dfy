/**
 * The control server's side of one application: its row, its submission intent, its receipt and the
 * events applied to it (lib/applications/{state,worker-store,leases,events,submissions,questions}.ts).
 * Every command is one transaction. Whether a lease is still live when a command arrives (the server's
 * clock, the run and the policy) is a parameter of the command.
 */
module Control {
  import opened Options

  datatype AppState =
    | Queued | Screening | Tailoring | Filling | Ready
    | NeedsAnswer | NeedsDocument | NeedsPolicyDecision | NeedsLogin | NeedsVerification
    | ProviderUnavailable | RetryableFailure | BlockedUnsupported
    | Submitting | SubmissionUnknown | Submitted | Failed | Skipped | Cancelled

  predicate IsWaiting(s: AppState) {
    s.NeedsAnswer? || s.NeedsDocument? || s.NeedsPolicyDecision? || s.NeedsLogin? || s.NeedsVerification?
    || s.ProviderUnavailable? || s.RetryableFailure? || s.BlockedUnsupported?
  }

  predicate IsTerminal(s: AppState) {
    s.Submitted? || s.Failed? || s.Skipped? || s.Cancelled?
  }

  predicate IsSafe(s: AppState) {
    s.Screening? || s.Tailoring? || s.Filling? || s.Ready?
  }

  /** An employer may have the application. */
  predicate IsAmbiguous(s: AppState) {
    s.Submitting? || s.SubmissionUnknown?
  }

  type SafeStage = s: AppState | IsSafe(s) witness Screening

  datatype Evidence = Evidence(
    artifactVerified: bool, formVerified: bool, submitPermit: bool, receiptVerified: bool, rejected: bool)

  predicate CanTransition(from: AppState, to: AppState, evidence: Evidence) {
    if IsTerminal(from) then false
    else if from.Submitting? then
      to.SubmissionUnknown? || (to.Submitted? && evidence.receiptVerified) || (to.Filling? && evidence.rejected)
    else if from.SubmissionUnknown? then to.Submitted? && evidence.receiptVerified
    else if IsWaiting(from) then false
    else if from.Queued? then to.Screening?
    else if IsWaiting(to) || to.Failed? || to.Skipped? || to.Cancelled? then true
    else if from == to then true
    else if from.Screening? then to.Tailoring?
    else if from.Tailoring? then to.Filling? && evidence.artifactVerified
    else if from.Filling? then to.Ready? && evidence.formVerified
    else from.Ready? && to.Submitting? && evidence.submitPermit
  }

  datatype Checkpoint = Checkpoint(stage: SafeStage, sequence: int)

  datatype App = App(state: AppState, revision: int, fence: int, leased: bool, checkpoint: Option<Checkpoint>)

  /**
   * A checkpoint event; the schema of its evidence has no room for a receipt or a rejection. A command is `foreign`
   * when the application it names is not one of the worker's, which no transaction ever changes.
   */
  datatype EventCmd = EventCmd(
    id: int, fence: int, revision: int, state: AppState, checkpoint: Checkpoint, hasReason: bool,
    artifactVerified: bool, formVerified: bool, submitPermit: bool, foreign: bool)

  /**
   * A batch of questions. Whether its descriptors fit the application is settled by the command, the revision
   * and the profile revision it names; whether it is too large, by the command alone.
   */
  datatype BatchCmd = BatchCmd(
    id: int, fence: int, revision: int, checkpoint: Checkpoint, profile: int, fits: bool, oversized: bool, foreign: bool)

  datatype Command = Event(event: EventCmd) | Batch(batch: BatchCmd)

  function IdOf(c: Command): int {
    if c.Event? then c.event.id else c.batch.id
  }

  predicate IsForeign(c: Command) {
    if c.Event? then c.event.foreign else c.batch.foreign
  }

  function RevisionOf(c: Command): int {
    if c.Event? then c.event.revision else c.batch.revision
  }

  /** `role` stands for the identity, company and role that intent and receipt must share. */
  datatype IntentCmd = IntentCmd(intentId: int, fence: int, revision: int, role: int, manifest: int)

  datatype ReceiptCmd = ReceiptCmd(intentId: int, role: int, receiptId: int, submittedAt: int)

  datatype Applied = Applied(command: Command, revision: int, state: AppState)

  datatype Server = Server(
    app: App, intent: Option<IntentCmd>, receipt: Option<ReceiptCmd>,
    events: map<int, Applied>, applied: seq<int>, profile: int)

  datatype Refusal =
    | LeaseLost | Conflict | ExecutionDisabled | IdentityMismatch | AlreadyIntended | InvalidInput | InvalidReceipt | TooLarge
    | NotFound

  function HttpStatus(r: Refusal): int {
    match r
    case InvalidInput => 400
    case InvalidReceipt => 400
    case TooLarge => 413
    case NotFound => 404
    case _ => 409
  }

  datatype Lease = Lease(fence: int, revision: int, state: AppState, checkpoint: Option<Checkpoint>)

  datatype Reply =
    | Accepted(revision: int, state: AppState)
    | Granted(lease: Lease)
    | Idle
    | Refused(why: Refusal)

  datatype Outcome = Outcome(server: Server, reply: Reply)

  const RECEIPT_SKEW_MS: int := 5 * 60000

  function NextSequence(a: App): int {
    if a.checkpoint.Some? then a.checkpoint.value.sequence + 1 else 1
  }

  function Released(a: App): App {
    a.(state := if a.state.Submitting? then SubmissionUnknown else a.state,
       leased := false, fence := a.fence + 1, revision := a.revision + 1)
  }

  predicate HoldsLease(a: App, fence: int, revision: int) {
    a.fence == fence && a.revision == revision && a.leased
  }

  function WithApp(s: Server, a: App): Server {
    s.(app := a)
  }

  // ----------------------------------------------------------------------------------------
  // Checkpoint events and question batches
  // ----------------------------------------------------------------------------------------

  predicate Releases(state: AppState) {
    IsWaiting(state) || IsTerminal(state) || state.SubmissionUnknown?
  }

  /** The stage the next checkpoint of an event must name. */
  function StageAfter(a: App, c: EventCmd): AppState {
    if Releases(c.state) then (if a.state.Submitting? then Ready else a.state) else c.state
  }

  function EventEvidence(c: EventCmd): Evidence {
    Evidence(c.artifactVerified, c.formVerified, c.submitPermit, false, false)
  }

  function AfterEvent(a: App, c: EventCmd): App {
    App(c.state, a.revision + 1, if Releases(c.state) then a.fence + 1 else a.fence,
        a.leased && !Releases(c.state), Some(c.checkpoint))
  }

  function Applying(s: Server, c: Command, a: App): Server {
    s.(app := a, events := s.events[IdOf(c) := Applied(c, a.revision, a.state)], applied := s.applied + [IdOf(c)])
  }

  function Replayed(s: Server, c: Command): Reply
    requires IdOf(c) in s.events
  {
    var row := s.events[IdOf(c)];
    if row.command != c then Refused(Conflict) else Accepted(row.revision, row.state)
  }

  function RecordEvent(s: Server, c: EventCmd, live: bool): Outcome {
    var a := s.app;
    if c.foreign then Outcome(s, Refused(NotFound))
    else if c.id in s.events then Outcome(s, Replayed(s, Event(c)))
    else if !HoldsLease(a, c.fence, c.revision) then Outcome(s, Refused(LeaseLost))
    else if !live then Outcome(WithApp(s, Released(a)), Refused(LeaseLost))
    else if !CanTransition(a.state, c.state, EventEvidence(c)) then Outcome(s, Refused(ExecutionDisabled))
    else if c.checkpoint.stage != StageAfter(a, c) || c.checkpoint.sequence != NextSequence(a) then
      Outcome(s, Refused(Conflict))
    else if Releases(c.state) && !c.hasReason then Outcome(s, Refused(InvalidInput))
    else Outcome(Applying(s, Event(c), AfterEvent(a, c)), Accepted(a.revision + 1, c.state))
  }

  function AfterBatch(a: App, c: BatchCmd, blocker: Option<AppState>): App {
    if blocker.Some? then App(blocker.value, a.revision + 1, a.fence + 1, false, Some(c.checkpoint))
    else App(Screening, a.revision + 1, a.fence + 1, false, Some(Checkpoint(Screening, c.checkpoint.sequence)))
  }

  /** `blocker` is the hold an unresolved question puts the application in, if one is unresolved. */
  function RegisterBatch(s: Server, c: BatchCmd, live: bool, blocker: Option<AppState>): Outcome
    requires blocker.Some? ==> IsWaiting(blocker.value)
  {
    var a := s.app;
    if c.oversized then Outcome(s, Refused(TooLarge))
    else if c.foreign then Outcome(s, Refused(NotFound))
    else if c.id in s.events then Outcome(s, Replayed(s, Batch(c)))
    else if !HoldsLease(a, c.fence, c.revision) then Outcome(s, Refused(LeaseLost))
    else if !live then Outcome(WithApp(s, Released(a)), Refused(LeaseLost))
    else if !IsSafe(a.state) || c.checkpoint.stage != a.state || c.checkpoint.sequence != NextSequence(a) then
      Outcome(s, Refused(Conflict))
    else if c.profile != s.profile || !c.fits then Outcome(s, Refused(Conflict))
    else
      var b := AfterBatch(a, c, blocker);
      Outcome(Applying(s, Batch(c), b), Accepted(b.revision, b.state))
  }

  // ----------------------------------------------------------------------------------------
  // Submission intents and receipts
  // ----------------------------------------------------------------------------------------

  /** A refused lease check throws here, so the release it made is rolled back with the transaction. */
  function BeginSubmission(s: Server, c: IntentCmd, live: bool, admitted: bool): Outcome {
    var a := s.app;
    if s.intent.Some? && s.intent.value.intentId == c.intentId then
      if s.intent.value != c || !a.state.Submitting? then Outcome(s, Refused(Conflict))
      else Outcome(s, Accepted(a.revision, Submitting))
    else if !a.state.Ready? then Outcome(s, Refused(ExecutionDisabled))
    else if !HoldsLease(a, c.fence, c.revision) || !live then Outcome(s, Refused(LeaseLost))
    else if !admitted then Outcome(s, Refused(IdentityMismatch))
    else if s.intent.Some? then Outcome(s, Refused(AlreadyIntended))
    else
      Outcome(s.(app := a.(state := Submitting, revision := a.revision + 1), intent := Some(c)),
              Accepted(a.revision + 1, Submitting))
  }

  predicate MatchesIntent(s: Server, c: ReceiptCmd) {
    s.intent.Some? && s.intent.value.intentId == c.intentId && s.intent.value.role == c.role
  }

  function RecordReceipt(s: Server, c: ReceiptCmd, now: int, live: bool): Outcome {
    var a := s.app;
    if !MatchesIntent(s, c) then Outcome(s, Refused(IdentityMismatch))
    else if s.receipt.Some? then
      if s.receipt.value.receiptId != c.receiptId || s.receipt.value.submittedAt != c.submittedAt || !a.state.Submitted?
      then Outcome(s, Refused(Conflict))
      else Outcome(s, Accepted(a.revision, Submitted))
    else if c.submittedAt > now + RECEIPT_SKEW_MS then Outcome(s, Refused(InvalidReceipt))
    else if !IsAmbiguous(a.state) then Outcome(s, Refused(ExecutionDisabled))
    else if !a.leased || !live then Outcome(s, Refused(LeaseLost))
    else
      Outcome(s.(app := App(Submitted, a.revision + 1, a.fence + 1, false, a.checkpoint), receipt := Some(c)),
              Accepted(a.revision + 1, Submitted))
  }

  // ----------------------------------------------------------------------------------------
  // Leases and everything else that moves the row
  // ----------------------------------------------------------------------------------------

  predicate IsClaimable(s: AppState) {
    s.Queued? || IsSafe(s) || IsAmbiguous(s)
  }

  function Claimed(a: App): App {
    a.(state := if a.state.Queued? then Screening else if a.state.Submitting? then SubmissionUnknown else a.state,
       revision := a.revision + 1, fence := a.fence + 1, leased := true)
  }

  /** A poll gives up a read-only assignment and any lost lease, then may claim the application. */
  function Poll(s: Server, lost: bool, claim: bool): Outcome {
    var a := if s.app.leased && (s.app.state.SubmissionUnknown? || lost) then Released(s.app) else s.app;
    if claim && IsClaimable(a.state) then
      var b := Claimed(a);
      Outcome(WithApp(s, b), Granted(Lease(b.fence, b.revision, b.state, b.checkpoint)))
    else Outcome(WithApp(s, a), Idle)
  }

  /** A heartbeat renews the lease without touching the revision, or finds it lost. */
  function Heartbeat(s: Server, fence: int, revision: int, live: bool): Outcome {
    if !HoldsLease(s.app, fence, revision) then Outcome(s, Refused(LeaseLost))
    else if !live then Outcome(WithApp(s, Released(s.app)), Refused(LeaseLost))
    else Outcome(s, Idle)
  }

  /**
   * Where the applicant, a policy change, a stopped run or a revoked worker may move the row: an ambiguous one
   * stays unknown or is closed by the applicant, a finished one stays, and no other becomes one of those.
   */
  predicate MayMove(from: AppState, to: AppState) {
    if IsTerminal(from) then to == from
    else if from.Submitting? then to.SubmissionUnknown?
    else if from.SubmissionUnknown? then to.SubmissionUnknown? || to.Submitted? || to.Failed?
    else !IsAmbiguous(to) && !to.Submitted?
  }

  datatype ServerAction =
    | DoPoll(lost: bool, claim: bool)
    | DoHeartbeat(fence: int, revision: int, live: bool)
    | DoEvent(event: EventCmd, live: bool)
    | DoBatch(batch: BatchCmd, live: bool, blocker: Option<AppState>)
    | DoIntent(intent: IntentCmd, live: bool, admitted: bool)
    | DoReceipt(receipt: ReceiptCmd, now: int, live: bool)
    | Move(to: AppState, checkpoint: Option<Checkpoint>)
    | EditProfile

  function Serve(s: Server, act: ServerAction): Outcome {
    match act
    case DoPoll(lost, claim) => Poll(s, lost, claim)
    case DoHeartbeat(fence, revision, live) => Heartbeat(s, fence, revision, live)
    case DoEvent(c, live) => RecordEvent(s, c, live)
    case DoBatch(c, live, blocker) =>
      if blocker.Some? && !IsWaiting(blocker.value) then Outcome(s, Idle) else RegisterBatch(s, c, live, blocker)
    case DoIntent(c, live, admitted) => BeginSubmission(s, c, live, admitted)
    case DoReceipt(c, now, live) => RecordReceipt(s, c, now, live)
    case Move(to, checkpoint) =>
      if !MayMove(s.app.state, to) then Outcome(s, Idle)
      else Outcome(WithApp(s, App(to, s.app.revision + 1, s.app.fence + 1, false, checkpoint)), Idle)
    case EditProfile => Outcome(s.(profile := s.profile + 1), Idle)
  }

  function Served(s: Server, acts: seq<ServerAction>): Server
    decreases acts
  {
    if acts == [] then s else Served(Serve(s, acts[0]).server, acts[1..])
  }

  // ----------------------------------------------------------------------------------------
  // What every transaction keeps
  // ----------------------------------------------------------------------------------------

  ghost predicate NoRepeats(ids: seq<int>) {
    forall i, j :: 0 <= i < j < |ids| ==> ids[i] != ids[j]
  }

  /** A row on file under its command's id records the one revision step the command made. */
  predicate RowOk(id: int, row: Applied) {
    && IdOf(row.command) == id && row.revision == RevisionOf(row.command) + 1
    && (row.command.Event? ==> row.state == row.command.event.state)
    && !IsForeign(row.command) && (row.command.Batch? ==> !row.command.batch.oversized)
  }

  /** Submission facts live together, and an applied event is on file exactly once. */
  ghost predicate ServerOk(s: Server) {
    && (IsAmbiguous(s.app.state) ==> s.intent.Some? && s.receipt.None?)
    && (s.intent.Some? ==> IsAmbiguous(s.app.state) || s.app.state.Submitted? || s.app.state.Failed?)
    && (s.receipt.Some? ==> s.app.state.Submitted? && MatchesIntent(s, s.receipt.value))
    && (forall id :: id in s.events ==> id in s.applied && RowOk(id, s.events[id]))
    && (forall i :: 0 <= i < |s.applied| ==> s.applied[i] in s.events)
    && NoRepeats(s.applied)
  }

  /** What a later server state keeps of an earlier one: a revision names one state of the row for good. */
  ghost predicate Grows(s: Server, t: Server) {
    && s.app.revision <= t.app.revision && s.app.fence <= t.app.fence && s.profile <= t.profile
    && (s.app.revision == t.app.revision ==> s.app == t.app)
    && (s.intent.Some? ==> t.intent == s.intent)
    && (s.receipt.Some? ==> t.receipt == s.receipt)
    && (forall id :: id in s.events ==> id in t.events && t.events[id] == s.events[id])
    && s.applied <= t.applied
  }

  lemma GrowsTransitive(s: Server, t: Server, u: Server)
    requires Grows(s, t) && Grows(t, u)
    ensures Grows(s, u)
  {
  }

  /** Every transaction keeps the server's facts consistent and only adds to them. */
  lemma ServeKeeps(s: Server, act: ServerAction)
    requires ServerOk(s)
    ensures ServerOk(Serve(s, act).server) && Grows(s, Serve(s, act).server)
  {
    match act
    case DoEvent(c, live) => EventKeeps(s, c, live);
    case DoBatch(c, live, blocker) => if blocker.Some? ==> IsWaiting(blocker.value) { BatchKeeps(s, c, live, blocker); }
    case _ =>
  }

  lemma ApplyingKeeps(s: Server, c: Command, a: App)
    requires ServerOk(s) && IdOf(c) !in s.events && a.revision == s.app.revision + 1 && s.app.fence <= a.fence
    requires RowOk(IdOf(c), Applied(c, a.revision, a.state))
    requires IsAmbiguous(a.state) ==> s.intent.Some? && s.receipt.None?
    requires s.intent.Some? ==> IsAmbiguous(a.state)
    ensures ServerOk(Applying(s, c, a)) && Grows(s, Applying(s, c, a))
  {
    var t := Applying(s, c, a);
    assert forall i :: 0 <= i < |s.applied| ==> t.applied[i] == s.applied[i];
    assert t.applied[|s.applied|] == IdOf(c);
    assert forall id :: id in s.applied ==> id in t.applied;
  }

  lemma EventKeeps(s: Server, c: EventCmd, live: bool)
    requires ServerOk(s)
    ensures ServerOk(RecordEvent(s, c, live).server) && Grows(s, RecordEvent(s, c, live).server)
  {
    if RecordEvent(s, c, live).server == Applying(s, Event(c), AfterEvent(s.app, c)) && c.id !in s.events {
      ApplyingKeeps(s, Event(c), AfterEvent(s.app, c));
    }
  }

  lemma BatchKeeps(s: Server, c: BatchCmd, live: bool, blocker: Option<AppState>)
    requires ServerOk(s) && (blocker.Some? ==> IsWaiting(blocker.value))
    ensures ServerOk(RegisterBatch(s, c, live, blocker).server) && Grows(s, RegisterBatch(s, c, live, blocker).server)
  {
    if RegisterBatch(s, c, live, blocker).server == Applying(s, Batch(c), AfterBatch(s.app, c, blocker)) && c.id !in s.events {
      ApplyingKeeps(s, Batch(c), AfterBatch(s.app, c, blocker));
    }
  }

  lemma {:induction false} ServedKeeps(s: Server, acts: seq<ServerAction>)
    requires ServerOk(s)
    ensures ServerOk(Served(s, acts)) && Grows(s, Served(s, acts))
    decreases acts
  {
    if acts != [] {
      ServeKeeps(s, acts[0]);
      ServedKeeps(Serve(s, acts[0]).server, acts[1..]);
      GrowsTransitive(s, Serve(s, acts[0]).server, Served(s, acts));
    }
  }
}
