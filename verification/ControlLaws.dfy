/** What each transaction of the control server takes, and what it leaves in the row, said of states and numbers. */
module ControlLaws {
  import opened Options
  import opened Control

  // ----------------------------------------------------------------------------------------
  // The moves of an application
  // ----------------------------------------------------------------------------------------

  predicate IsHold(s: AppState) {
    s in {NeedsAnswer, NeedsDocument, NeedsPolicyDecision, NeedsLogin, NeedsVerification,
          ProviderUnavailable, RetryableFailure, BlockedUnsupported}
  }

  predicate IsStage(s: AppState) {
    s in {Screening, Tailoring, Filling, Ready}
  }

  predicate IsGivenUp(s: AppState) {
    s in {Failed, Skipped, Cancelled}
  }

  /**
   * A stage repeats, holds, is given up or goes on to the next with its evidence; a submission under way becomes unknown, is
   * confirmed by a receipt or rejected back to its form; an unknown one is only confirmed. Nothing else moves.
   */
  predicate MayGo(from: AppState, to: AppState, e: Evidence) {
    || (from == Queued && to == Screening)
    || (IsStage(from) && (to == from || IsHold(to) || IsGivenUp(to)))
    || (from == Screening && to == Tailoring)
    || (from == Tailoring && to == Filling && e.artifactVerified)
    || (from == Filling && to == Ready && e.formVerified)
    || (from == Ready && to == Submitting && e.submitPermit)
    || (from == Submitting && to == SubmissionUnknown)
    || (from == Submitting && to == Filling && e.rejected)
    || (from in {Submitting, SubmissionUnknown} && to == Submitted && e.receiptVerified)
  }

  lemma TransitionIff(from: AppState, to: AppState, e: Evidence)
    ensures CanTransition(from, to, e) <==> MayGo(from, to, e)
  {
  }

  /** The states in which the worker gives its lease back. */
  predicate EndsLease(s: AppState) {
    IsHold(s) || IsGivenUp(s) || s == Submitted || s == SubmissionUnknown
  }

  predicate IsNextSequence(a: App, n: int) {
    if a.checkpoint.Some? then n == a.checkpoint.value.sequence + 1 else n == 1
  }

  /** The row holds the lease that the command names, and it is live. */
  predicate IsHeld(a: App, fence: int, revision: int, live: bool) {
    live && a.leased && a.fence == fence && a.revision == revision
  }

  /** A lease found lost: given back under a new fence and revision, a submission under way now unknown. */
  predicate IsReleased(a: App, b: App) {
    && b.state == (if a.state == Submitting then SubmissionUnknown else a.state) && !b.leased
    && b.fence == a.fence + 1 && b.revision == a.revision + 1 && b.checkpoint == a.checkpoint
  }

  /** A refused command leaves everything as it was, but for a lease it found lost. */
  predicate IsUntouched(s: Server, t: Server, fence: int, revision: int, live: bool) {
    || t == s
    || (!live && s.app.leased && s.app.fence == fence && s.app.revision == revision
        && t == s.(app := t.app) && IsReleased(s.app, t.app))
  }

  // ----------------------------------------------------------------------------------------
  // Checkpoint events and question batches
  // ----------------------------------------------------------------------------------------

  /** The checkpoint is the next one, of the stage the application is then at: when the lease ends, the one it was at. */
  predicate IsNextStep(a: App, c: EventCmd) {
    && IsNextSequence(a, c.checkpoint.sequence)
    && c.checkpoint.stage == (if !EndsLease(c.state) then c.state else if a.state == Submitting then Ready else a.state)
  }

  /** What an applied event leaves: the new state and checkpoint, one revision on, the lease kept unless the state ends it. */
  predicate IsApplied(s: Server, t: Server, c: EventCmd) {
    && t == s.(app := t.app, events := t.events, applied := s.applied + [c.id])
    && t.events == s.events[c.id := Applied(Event(c), s.app.revision + 1, c.state)]
    && t.app == App(c.state, s.app.revision + 1, t.app.fence, t.app.leased, Some(c.checkpoint))
    && (if EndsLease(c.state) then !t.app.leased && t.app.fence == s.app.fence + 1 else t.app.leased && t.app.fence == s.app.fence)
  }

  predicate IsAllowed(s: Server, c: EventCmd) {
    MayGo(s.app.state, c.state, Evidence(c.artifactVerified, c.formVerified, c.submitPermit, false, false))
  }

  /** Of the refusals, bad input is 400, not found 404, too large 413, and the others 409. */
  lemma StatusIs(why: Refusal)
    ensures HttpStatus(why) ==
      if why in {InvalidInput, InvalidReceipt} then 400 else if why == NotFound then 404 else if why == TooLarge then 413 else 409
  {
  }

  /**
   * A new event of the worker's own is applied exactly under a lease that is held, for a move that is allowed, at the next
   * checkpoint, with a reason if it ends the lease. A refusal leaves the row, and names the first of these that fails.
   */
  lemma EventTakenIff(s: Server, c: EventCmd, live: bool)
    requires !c.foreign && c.id !in s.events
    ensures var out := RecordEvent(s, c, live);
      var held := IsHeld(s.app, c.fence, c.revision, live);
      if held && IsAllowed(s, c) && IsNextStep(s.app, c) && (EndsLease(c.state) ==> c.hasReason) then
        out.reply == Accepted(s.app.revision + 1, c.state) && IsApplied(s, out.server, c)
      else
        && out.reply == Refused(if !held then LeaseLost else if !IsAllowed(s, c) then ExecutionDisabled
                                else if !IsNextStep(s.app, c) then Conflict else InvalidInput)
        && IsUntouched(s, out.server, c.fence, c.revision, live)
        && (!live && HoldsLease(s.app, c.fence, c.revision) ==> IsReleased(s.app, out.server.app))
  {
    TransitionIff(s.app.state, c.state, EventEvidence(c));
  }

  /** Any other event changes nothing: a repeated one is answered as it was, another's id is refused, a foreign one not found. */
  lemma OldEventIsAnswered(s: Server, c: EventCmd, live: bool)
    requires c.foreign || c.id in s.events
    ensures var out := RecordEvent(s, c, live);
      && out.server == s
      && out.reply == if c.foreign then Refused(NotFound)
                      else if s.events[c.id].command == Event(c) then Accepted(s.events[c.id].revision, s.events[c.id].state)
                      else Refused(Conflict)
  {
  }

  /** A registered batch ends the lease: the application holds for the applicant, or starts over from screening. */
  predicate IsRegistered(s: Server, t: Server, c: BatchCmd, blocker: Option<AppState>) {
    && t == s.(app := t.app, events := t.events, applied := s.applied + [c.id])
    && t.events == s.events[c.id := Applied(Batch(c), s.app.revision + 1, t.app.state)]
    && t.app.revision == s.app.revision + 1 && t.app.fence == s.app.fence + 1 && !t.app.leased
    && t.app.checkpoint.Some? && t.app.checkpoint.value.sequence == c.checkpoint.sequence
    && (if blocker.Some? then t.app.state == blocker.value && t.app.checkpoint == Some(c.checkpoint)
        else t.app.state == Screening && t.app.checkpoint.value.stage == Screening)
  }

  /**
   * A new batch of the worker's own is registered exactly under a held lease, at the next checkpoint of the stage the application
   * is at, for the profile as it is, if its descriptors fit. One too large, or foreign, is refused as that.
   */
  lemma BatchTakenIff(s: Server, c: BatchCmd, live: bool, blocker: Option<AppState>)
    requires blocker.Some? ==> IsWaiting(blocker.value)
    ensures var out := RegisterBatch(s, c, live, blocker);
      var held := IsHeld(s.app, c.fence, c.revision, live);
      if !c.oversized && !c.foreign && c.id !in s.events && held && IsStage(s.app.state)
         && c.checkpoint.stage == s.app.state && IsNextSequence(s.app, c.checkpoint.sequence) && c.profile == s.profile && c.fits
      then out.reply == Accepted(s.app.revision + 1, out.server.app.state) && IsRegistered(s, out.server, c, blocker)
      else if !c.oversized && !c.foreign && c.id in s.events && s.events[c.id].command == Batch(c)
      then out.server == s && out.reply == Accepted(s.events[c.id].revision, s.events[c.id].state)
      else out.reply == Refused(if c.oversized then TooLarge else if c.foreign then NotFound
                                else if c.id !in s.events && !held then LeaseLost else Conflict)
           && IsUntouched(s, out.server, c.fence, c.revision, live)
  {
  }

  // ----------------------------------------------------------------------------------------
  // Submissions
  // ----------------------------------------------------------------------------------------

  /** An intent is filed exactly when the application is ready, its lease held, the role admitted and no intent on file. */
  lemma IntentTakenIff(s: Server, c: IntentCmd, live: bool, admitted: bool)
    requires s.intent.Some? ==> s.intent.value.intentId != c.intentId
    ensures var out := BeginSubmission(s, c, live, admitted);
      if s.app.state == Ready && IsHeld(s.app, c.fence, c.revision, live) && admitted && s.intent.None? then
        && out.reply == Accepted(s.app.revision + 1, Submitting)
        && out.server == s.(intent := Some(c), app := s.app.(state := Submitting, revision := s.app.revision + 1))
      else
        && out.server == s
        && out.reply == Refused(if s.app.state != Ready then ExecutionDisabled
                                else if !IsHeld(s.app, c.fence, c.revision, live) then LeaseLost
                                else if !admitted then IdentityMismatch else AlreadyIntended)
  {
  }

  /** A repeated intent is confirmed exactly while it is the one on file and its submission is under way. */
  lemma IntentRepeatedIff(s: Server, c: IntentCmd, live: bool, admitted: bool)
    requires s.intent.Some? && s.intent.value.intentId == c.intentId
    ensures var out := BeginSubmission(s, c, live, admitted);
      && out.server == s
      && out.reply == if s.intent.value == c && s.app.state == Submitting then Accepted(s.app.revision, Submitting)
                      else Refused(Conflict)
  {
  }

  /** A receipt is filed exactly for its intent, dated five minutes ahead at most, while the outcome is open and the lease live. */
  lemma ReceiptTakenIff(s: Server, c: ReceiptCmd, now: int, live: bool)
    ensures var out := RecordReceipt(s, c, now, live);
      var own := s.intent.Some? && s.intent.value.intentId == c.intentId && s.intent.value.role == c.role;
      var timely := c.submittedAt <= now + 300000;
      if own && s.receipt.None? && timely && s.app.state in {Submitting, SubmissionUnknown} && s.app.leased && live then
        && out.reply == Accepted(s.app.revision + 1, Submitted)
        && out.server == s.(receipt := Some(c), app := App(Submitted, s.app.revision + 1, s.app.fence + 1, false, s.app.checkpoint))
      else
        && out.server == s
        && (if own && s.receipt.Some? && s.receipt.value.receiptId == c.receiptId && s.receipt.value.submittedAt == c.submittedAt
               && s.app.state == Submitted
            then out.reply == Accepted(s.app.revision, Submitted)
            else out.reply == Refused(if !own then IdentityMismatch else if s.receipt.Some? then Conflict
                                      else if !timely then InvalidReceipt
                                      else if s.app.state !in {Submitting, SubmissionUnknown} then ExecutionDisabled else LeaseLost))
  {
  }

  // ----------------------------------------------------------------------------------------
  // Leases and everything else
  // ----------------------------------------------------------------------------------------

  /** What a poll finds: the row, or the row with its lease given back, when it was lost or only read an unknown outcome. */
  predicate IsFound(s: Server, a: App, lost: bool) {
    if s.app.leased && (s.app.state == SubmissionUnknown || lost) then IsReleased(s.app, a) else a == s.app
  }

  /** Queued, at a stage, or with its outcome open. */
  predicate MayBeClaimed(state: AppState) {
    state == Queued || IsStage(state) || state in {Submitting, SubmissionUnknown}
  }

  /** The row found is claimed: a live lease under a new fence and revision, which says what the row does. */
  predicate IsClaimed(a: App, b: App, reply: Reply) {
    && b.state == (if a.state == Queued then Screening else if a.state == Submitting then SubmissionUnknown else a.state)
    && b.revision == a.revision + 1 && b.fence == a.fence + 1 && b.leased && b.checkpoint == a.checkpoint
    && reply == Granted(Lease(b.fence, b.revision, b.state, b.checkpoint))
  }

  /** A poll that claims is granted the row it finds exactly when that may be claimed. */
  lemma PollGrantsIff(s: Server, lost: bool, claim: bool) returns (a: App)
    ensures IsFound(s, a, lost)
    ensures var out := Poll(s, lost, claim);
      && out.server == s.(app := out.server.app)
      && (if claim && MayBeClaimed(a.state) then IsClaimed(a, out.server.app, out.reply) else out.reply == Idle && out.server.app == a)
  {
    a := if s.app.leased && (s.app.state.SubmissionUnknown? || lost) then Released(s.app) else s.app;
  }

  /** A heartbeat changes nothing but a lease it finds lost, and is answered exactly while the lease is held. */
  lemma HeartbeatIff(s: Server, fence: int, revision: int, live: bool)
    ensures var out := Heartbeat(s, fence, revision, live);
      && IsUntouched(s, out.server, fence, revision, live)
      && (if IsHeld(s.app, fence, revision, live) then out.reply == Idle && out.server == s
          else out.reply == Refused(LeaseLost) && (HoldsLease(s.app, fence, revision) ==> IsReleased(s.app, out.server.app)))
  {
  }

  /** Where anyone but the worker may take the row: not out of a final state, nor past an open outcome but to close it. */
  predicate MayBeMoved(from: AppState, to: AppState) {
    || (from in {Submitted, Failed, Skipped, Cancelled} && to == from)
    || (from == Submitting && to == SubmissionUnknown)
    || (from == SubmissionUnknown && to in {SubmissionUnknown, Submitted, Failed})
    || ((from == Queued || IsStage(from) || IsHold(from)) && to !in {Submitting, SubmissionUnknown, Submitted})
  }

  lemma MovedIff(s: Server, to: AppState, checkpoint: Option<Checkpoint>)
    ensures var out := Serve(s, Move(to, checkpoint));
      && out.reply == Idle
      && out.server == if MayBeMoved(s.app.state, to)
                       then s.(app := App(to, s.app.revision + 1, s.app.fence + 1, false, checkpoint)) else s
  {
  }

  /** An edit of the profile is one revision of it and nothing else; a new batch that names an earlier one is refused from then on. */
  lemma EditOutdatesBatches(s: Server, c: BatchCmd, live: bool, blocker: Option<AppState>)
    requires c.profile <= s.profile && c.id !in s.events && (blocker.Some? ==> IsWaiting(blocker.value))
    ensures var t := Serve(s, EditProfile).server;
      && t == s.(profile := s.profile + 1) && Serve(s, EditProfile).reply == Idle
      && RegisterBatch(t, c, live, blocker).reply.Refused?
  {
  }

  /**
   * However the server is used, an application comes to be submitting from ready alone, to be submitted only with an outcome
   * open, and leaves a final state never.
   */
  lemma StatesFollow(s: Server, act: ServerAction)
    requires ServerOk(s)
    ensures var from, to := s.app.state, Serve(s, act).server.app.state;
      && (to == Submitting && from != to ==> from == Ready)
      && (to == Submitted && from != to ==> from in {Submitting, SubmissionUnknown})
      && (from in {Submitted, Failed, Skipped, Cancelled} ==> to == from)
      && (from in {Submitting, SubmissionUnknown} ==> to in {Submitting, SubmissionUnknown, Submitted, Failed})
  {
    if act.DoEvent? {
      TransitionIff(s.app.state, act.event.state, EventEvidence(act.event));
    }
  }
}
