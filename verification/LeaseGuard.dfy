/**
 * The guard a worker holds for the length of one lease (worker/guard.ts). Each call reads the worker's clock:
 * the readings are parameters. Times are in milliseconds; readings are finite.
 */
module LeaseGuard {
  import opened Options

  const HEARTBEAT_MS: real := 20000.0
  const LEASE_MS: real := 120000.0
  const POLL_TIMEOUT_MS: real := 30000.0

  datatype Clock = Clock(mono: real, wall: real)

  /** Who and what the lease is for; `place` stands for the ats, tenant and requisition. */
  datatype Binding = Binding(application: int, run: int, worker: int, owner: int, policyRevision: int, place: int, fence: int)

  datatype State = Safe(stage: int) | Submitting | SubmissionUnknown

  datatype Lease = Lease(binding: Binding, state: State, reconcile: bool, revision: int, leaseUntil: real)

  datatype Reason = ClockUnsafe | LeaseExpired | InvalidLease | BindingChanged | Other(reason: int)

  /**
   * The guard's variables. `asked` and `served` are the request start and the server time of the reply that set the
   * deadline.
   */
  datatype Guard = Guard(
    lease: Lease, previous: Clock, deadline: real, revoked: Option<Reason>, asked: real, served: real)

  /** A call returns or throws; either way the guard has its new variables. */
  datatype Outcome = Outcome(guard: Guard, ok: bool)

  function Abs(x: real): real {
    if x < 0.0 then -x else x
  }

  function Revoked(g: Guard, reason: Reason): Guard {
    if g.revoked.Some? then g else g.(revoked := Some(reason))
  }

  function Fail(g: Guard, reason: Reason): Outcome {
    Outcome(Revoked(g, reason), false)
  }

  predicate ClockIsSafe(previous: Clock, now: Clock) {
    var elapsed, wallElapsed := now.mono - previous.mono, now.wall - previous.wall;
    0.0 <= elapsed <= HEARTBEAT_MS + 10000.0 && Abs(elapsed - wallElapsed) <= 2000.0
  }

  function Sample(g: Guard, now: Clock): Outcome {
    if ClockIsSafe(g.previous, now) then Outcome(g.(previous := now), true) else Fail(g, ClockUnsafe)
  }

  function Check(g: Guard, now: Clock): Outcome {
    if g.revoked.Some? then Outcome(g, false)
    else
      var s := Sample(g, now);
      if !s.ok then s else if now.mono >= g.deadline then Fail(s.guard, LeaseExpired) else s
  }

  predicate ReplyIsValid(value: Lease, time: real, start: Clock, now: Clock) {
    var remaining, elapsed := value.leaseUntil - time, now.mono - start.mono;
    && time.Floor as real == time && value.binding.policyRevision >= 1
    && 1000.0 < remaining <= LEASE_MS
    && 0.0 <= elapsed <= POLL_TIMEOUT_MS && Abs(now.wall - start.wall - elapsed) <= 2000.0
  }

  /** The deadline counts from the start of the request whose reply carries the lease. */
  function SetDeadline(g: Guard, value: Lease, time: real, start: Clock, now: Clock, after: Clock): Outcome {
    var s := Sample(g, now);
    if !s.ok then s
    else if !ReplyIsValid(value, time, start, now) then Fail(s.guard, InvalidLease)
    else Check(s.guard.(deadline := start.mono + (value.leaseUntil - time) - 1000.0, asked := start.mono, served := time), after)
  }

  /** Renewing keeps the lease's identity, which includes its mode and state, and its revision. */
  function Renew(g: Guard, value: Lease, time: real, start: Clock, at: Clock, now: Clock, after: Clock): Outcome {
    var c := Check(g, at);
    if !c.ok then c
    else if value.binding != g.lease.binding || value.state != g.lease.state || value.reconcile != g.lease.reconcile
            || value.revision != g.lease.revision then Fail(c.guard, BindingChanged)
    else
      var s := SetDeadline(c.guard, value, time, start, now, after);
      if s.ok then Outcome(s.guard.(lease := value), true) else s
  }

  /** A submission intent moves the application on under the same lease. */
  function Advance(g: Guard, fence: int, revision: int, state: State, at: Clock): Outcome {
    var c := Check(g, at);
    if !c.ok then c
    else if revision == g.lease.revision && state == g.lease.state then c
    else if fence != g.lease.binding.fence || revision < g.lease.revision then Fail(c.guard, BindingChanged)
    else
      Outcome(c.guard.(lease := g.lease.(revision := revision, state := state,
        reconcile := state.Submitting? || state.SubmissionUnknown? || g.lease.reconcile)), true)
  }

  function Create(initial: Lease, owner: int, worker: int, time: real, started: Clock, now: Clock, after: Clock): Outcome {
    var g := Guard(initial, started, 0.0, None, started.mono, time);
    if initial.binding.owner != owner || initial.binding.worker != worker then Fail(g, BindingChanged)
    else SetDeadline(g, initial, time, started, now, after)
  }

  datatype Event =
    | DoCheck(at: Clock)
    | DoRenew(value: Lease, time: real, start: Clock, at: Clock, now: Clock, after: Clock)
    | DoAdvance(fence: int, revision: int, state: State, at: Clock)
    | DoRevoke(reason: Reason)

  function Step(g: Guard, e: Event): Outcome {
    match e
    case DoCheck(at) => Check(g, at)
    case DoRenew(value, time, start, at, now, after) => Renew(g, value, time, start, at, now, after)
    case DoAdvance(fence, revision, state, at) => Advance(g, fence, revision, state, at)
    case DoRevoke(reason) => Outcome(Revoked(g, reason), true)
  }

  function After(g: Guard, events: seq<Event>): Guard
    decreases events
  {
    if events == [] then g else After(Step(g, events[0]).guard, events[1..])
  }

  // ----------------------------------------------------------------------------------------
  // Lease safety
  // ----------------------------------------------------------------------------------------

  /** Until it is revoked, a guard's deadline comes from the reply that carried its lease. */
  predicate Inv(g: Guard) {
    g.revoked.None? ==> g.deadline == g.asked + (g.lease.leaseUntil - g.served) - 1000.0
  }

  /** What every call leaves alone or only moves forward. */
  predicate Follows(g: Guard, h: Guard) {
    && h.lease.binding == g.lease.binding && g.lease.revision <= h.lease.revision && g.previous.mono <= h.previous.mono
    && (g.revoked.Some? ==> h == g)
  }

  lemma StepIsSafe(g: Guard, e: Event)
    requires Inv(g)
    ensures Inv(Step(g, e).guard) && Follows(g, Step(g, e).guard)
    ensures g.revoked.Some? && !e.DoRevoke? ==> !Step(g, e).ok
  {
  }

  lemma {:induction false} RunIsSafe(g: Guard, events: seq<Event>)
    requires Inv(g)
    ensures Inv(After(g, events)) && Follows(g, After(g, events))
    decreases events
  {
    if events != [] {
      StepIsSafe(g, events[0]);
      RunIsSafe(Step(g, events[0]).guard, events[1..]);
    }
  }

  /** The server's clock when the worker's reads `mono`, if it read `served` when the worker's read `sampledAt`. */
  function ServerClock(served: real, sampledAt: real, mono: real): real {
    served + (mono - sampledAt)
  }

  /**
   * In every run, for clocks of equal rate and a server that read its clock no earlier than the request began: when a
   * check passes, more than a second of the lease is left by the server's clock. The lease is still for the same
   * application, owner, worker, run and fence, its revision has not gone back, and a revoked guard never passes.
   */
  lemma PassingCheckIsInTime(
      initial: Lease, owner: int, worker: int, time: real, started: Clock, now: Clock, after: Clock,
      events: seq<Event>, at: Clock, sampledAt: real)
    requires Create(initial, owner, worker, time, started, now, after).ok
    requires var g := After(Create(initial, owner, worker, time, started, now, after).guard, events);
      Check(g, at).ok && g.asked <= sampledAt
    ensures var g := After(Create(initial, owner, worker, time, started, now, after).guard, events);
      && ServerClock(g.served, sampledAt, at.mono) < g.lease.leaseUntil - 1000.0
      && g.lease.binding == initial.binding && initial.revision <= g.lease.revision && g.revoked.None?
      && initial.binding.owner == owner && initial.binding.worker == worker
  {
    var g := Create(initial, owner, worker, time, started, now, after).guard;
    RunIsSafe(g, events);
  }

  /** Once revoked, whatever is called later, the guard stays as it is and no check passes. */
  lemma RevocationIsPermanent(g: Guard, events: seq<Event>, at: Clock)
    requires Inv(g) && g.revoked.Some?
    ensures After(g, events) == g && !Check(After(g, events), at).ok
  {
    RunIsSafe(g, events);
  }

  /** A slow reply only shortens the lease: the deadline is the same whenever the reply is read. */
  lemma SlowReplyOnlyShortens(g: Guard, value: Lease, time: real, start: Clock, now: Clock, after: Clock)
    requires SetDeadline(g, value, time, start, now, after).ok
    ensures SetDeadline(g, value, time, start, now, after).guard.deadline - now.mono
            == (value.leaseUntil - time) - 1000.0 - (now.mono - start.mono)
    ensures start.mono <= now.mono <= after.mono < start.mono + (value.leaseUntil - time) - 1000.0
  {
  }

  // ----------------------------------------------------------------------------------------
  // When a guard holds
  // ----------------------------------------------------------------------------------------

  /** Two readings at most half a minute apart, between which neither clock ran more than two seconds ahead of the other. */
  predicate Agrees(a: Clock, c: Clock) {
    && a.mono <= c.mono <= a.mono + 30000.0
    && c.wall - a.wall <= c.mono - a.mono + 2000.0 && c.mono - a.mono <= c.wall - a.wall + 2000.0
  }

  predicate Passes(g: Guard, at: Clock) {
    g.revoked.None? && Agrees(g.previous, at) && at.mono < g.deadline
  }

  /** A reply read in time, of a lease that by the server's whole clock runs for more than a second and two minutes at most. */
  predicate IsTimely(value: Lease, time: real, start: Clock, now: Clock) {
    && time.Floor as real == time && 0 < value.binding.policyRevision
    && time + 1000.0 < value.leaseUntil <= time + 120000.0 && Agrees(start, now)
  }

  predicate IsGranted(value: Lease, time: real, start: Clock, previous: Clock, now: Clock, after: Clock) {
    && Agrees(previous, now) && IsTimely(value, time, start, now) && Agrees(now, after)
    && after.mono + 1000.0 < start.mono + (value.leaseUntil - time)
  }

  /** The calls that leave a guard unrevoked. */
  predicate Accepts(g: Guard, e: Event) {
    match e
    case DoCheck(at) => Passes(g, at)
    case DoRenew(value, time, start, at, now, after) =>
      Passes(g, at) && value == g.lease.(leaseUntil := value.leaseUntil) && IsGranted(value, time, start, at, now, after)
    case DoAdvance(fence, revision, state, at) =>
      Passes(g, at) && ((revision == g.lease.revision && state == g.lease.state)
                        || (fence == g.lease.binding.fence && g.lease.revision <= revision))
    case DoRevoke(_) => false
  }

  /** What an accepted call leaves. */
  predicate Accepted(g: Guard, h: Guard, e: Event) {
    match e
    case DoCheck(at) => h == g.(previous := at)
    case DoRenew(value, time, start, _, _, after) =>
      h == Guard(value, after, start.mono + (value.leaseUntil - time) - 1000.0, None, start.mono, time)
    case DoAdvance(_, revision, state, at) =>
      && h == g.(previous := at, lease := h.lease) && h.lease.binding == g.lease.binding && h.lease.leaseUntil == g.lease.leaseUntil
      && h.lease.revision == revision && h.lease.state == state
      && (h.lease.reconcile <==> g.lease.reconcile || (h.lease != g.lease && (state == Submitting || state == SubmissionUnknown)))
    case DoRevoke(_) => false
  }

  /** Why a call that is not accepted revokes a guard. */
  function Refusal(g: Guard, e: Event): Reason {
    match e
    case DoRevoke(reason) => reason
    case DoCheck(at) => if Agrees(g.previous, at) then LeaseExpired else ClockUnsafe
    case DoAdvance(_, _, _, at) =>
      if Passes(g, at) then BindingChanged else if Agrees(g.previous, at) then LeaseExpired else ClockUnsafe
    case DoRenew(value, time, start, at, now, after) =>
      if !Passes(g, at) then (if Agrees(g.previous, at) then LeaseExpired else ClockUnsafe)
      else if value != g.lease.(leaseUntil := value.leaseUntil) then BindingChanged
      else if !Agrees(at, now) then ClockUnsafe
      else if !IsTimely(value, time, start, now) then InvalidLease
      else if !Agrees(now, after) then ClockUnsafe
      else LeaseExpired
  }

  lemma ReadsAgree(a: Clock, c: Clock)
    ensures ClockIsSafe(a, c) <==> Agrees(a, c)
  {
  }

  /** A guard outlives a call exactly when it accepts the call; the call returns, and else throws for that reason. */
  lemma AcceptsIff(g: Guard, e: Event)
    requires g.revoked.None?
    ensures var o := Step(g, e);
      if Accepts(g, e) then o.ok && Accepted(g, o.guard, e) && o.guard.revoked.None?
      else o.guard.revoked == Some(Refusal(g, e)) && (o.ok ==> e.DoRevoke?)
  {
    match e
    case DoRenew(value, time, start, at, now, after) =>
      ReadsAgree(g.previous, at);
      ReadsAgree(at, now);
      ReadsAgree(start, now);
      ReadsAgree(now, after);
    case DoCheck(at) =>
      ReadsAgree(g.previous, at);
    case DoAdvance(_, _, _, at) =>
      ReadsAgree(g.previous, at);
    case DoRevoke(_) =>
  }

  /** In the run, call `i` is accepted. */
  predicate AcceptsAt(g: Guard, events: seq<Event>, i: nat)
    requires i < |events|
  {
    Accepts(After(g, events[..i]), events[i])
  }

  lemma AcceptsFirst(g: Guard, events: seq<Event>)
    requires events != []
    ensures AcceptsAt(g, events, 0) <==> Accepts(g, events[0])
    ensures forall i :: 0 < i < |events| ==> (AcceptsAt(g, events, i) <==> AcceptsAt(Step(g, events[0]).guard, events[1..], i - 1))
  {
    hide Accepts, Step;
    assert events[..0] == [];
    forall i | 0 < i < |events|
      ensures AcceptsAt(g, events, i) <==> AcceptsAt(Step(g, events[0]).guard, events[1..], i - 1)
    {
      assert events[..i][1..] == events[1..][..i - 1];
    }
  }

  /** A lease is still held after a run exactly when its guard accepted every call. */
  lemma {:induction false} HeldIff(g: Guard, events: seq<Event>)
    requires Inv(g)
    ensures After(g, events).revoked.None? <==> g.revoked.None? && forall i :: 0 <= i < |events| ==> AcceptsAt(g, events, i)
    decreases events
  {
    if events != [] {
      var h, rest := Step(g, events[0]).guard, events[1..];
      StepIsSafe(g, events[0]);
      HeldIff(h, rest);
      AcceptsFirst(g, events);
      if g.revoked.None? {
        AcceptsIff(g, events[0]);
      }
      hide Step, Accepts, AcceptsAt, Inv;
      assert forall i :: 0 <= i < |rest| ==> (AcceptsAt(h, rest, i) <==> AcceptsAt(g, events, i + 1));
    }
  }

  /** A guard is created exactly for the worker's own lease, granted by a reply so read. */
  lemma CreatedIff(initial: Lease, owner: int, worker: int, time: real, started: Clock, now: Clock, after: Clock)
    ensures var o := Create(initial, owner, worker, time, started, now, after);
      && (o.ok <==> initial.binding.owner == owner && initial.binding.worker == worker
                    && IsGranted(initial, time, started, started, now, after))
      && (o.ok ==> o.guard == Guard(initial, after, started.mono + (initial.leaseUntil - time) - 1000.0, None, started.mono, time))
  {
    ReadsAgree(started, now);
    ReadsAgree(now, after);
  }

  // ----------------------------------------------------------------------------------------
  // The guard as an object
  // ----------------------------------------------------------------------------------------

  class LeaseHolder {
    var lease: Lease
    var previous: Clock
    var deadline: real
    var revoked: Option<Reason>
    ghost var asked: real
    ghost var served: real

    ghost function View(): Guard
      reads this
    {
      Guard(lease, previous, deadline, revoked, asked, served)
    }

    constructor (initial: Lease, started: Clock, ghost time: real)
      ensures View() == Guard(initial, started, 0.0, None, started.mono, time)
    {
      lease, previous, deadline, revoked := initial, started, 0.0, None;
      asked, served := started.mono, time;
    }

    method Revoke(reason: Reason)
      modifies this`revoked
      ensures View() == Revoked(old(View()), reason)
    {
      if revoked.None? {
        revoked := Some(reason);
      }
    }

    method SampleClock(now: Clock) returns (ok: bool)
      modifies this`previous, this`revoked
      ensures Outcome(View(), ok) == Sample(old(View()), now)
    {
      var elapsed, wallElapsed := now.mono - previous.mono, now.wall - previous.wall;
      if elapsed < 0.0 || elapsed > HEARTBEAT_MS + 10000.0 || Abs(elapsed - wallElapsed) > 2000.0 {
        Revoke(ClockUnsafe);
        return false;
      }
      previous := now;
      return true;
    }

    method CheckLease(now: Clock) returns (ok: bool)
      modifies this`previous, this`revoked
      ensures Outcome(View(), ok) == Check(old(View()), now)
    {
      if revoked.Some? {
        return false;
      }
      ok := SampleClock(now);
      if ok && now.mono >= deadline {
        Revoke(LeaseExpired);
        ok := false;
      }
    }

    method SetLeaseDeadline(value: Lease, time: real, start: Clock, now: Clock, after: Clock) returns (ok: bool)
      modifies this
      ensures Outcome(View(), ok) == SetDeadline(old(View()), value, time, start, now, after)
    {
      ok := SampleClock(now);
      if !ok {
        return;
      }
      if !ReplyIsValid(value, time, start, now) {
        Revoke(InvalidLease);
        return false;
      }
      deadline := start.mono + (value.leaseUntil - time) - 1000.0;
      asked, served := start.mono, time;
      ok := CheckLease(after);
    }

    method RenewLease(value: Lease, time: real, start: Clock, at: Clock, now: Clock, after: Clock) returns (ok: bool)
      requires Inv(View())
      modifies this
      ensures Outcome(View(), ok) == Renew(old(View()), value, time, start, at, now, after) && Inv(View())
    {
      StepIsSafe(View(), DoRenew(value, time, start, at, now, after));
      ok := CheckLease(at);
      if !ok {
        return;
      }
      if value.binding != lease.binding || value.state != lease.state || value.reconcile != lease.reconcile
         || value.revision != lease.revision {
        Revoke(BindingChanged);
        return false;
      }
      ok := SetLeaseDeadline(value, time, start, now, after);
      if ok {
        lease := value;
      }
    }

    method AdvanceLease(fence: int, revision: int, state: State, at: Clock) returns (ok: bool)
      requires Inv(View())
      modifies this
      ensures Outcome(View(), ok) == Advance(old(View()), fence, revision, state, at) && Inv(View())
    {
      StepIsSafe(View(), DoAdvance(fence, revision, state, at));
      ok := CheckLease(at);
      if !ok || (revision == lease.revision && state == lease.state) {
        return;
      }
      if fence != lease.binding.fence || revision < lease.revision {
        Revoke(BindingChanged);
        return false;
      }
      lease := lease.(revision := revision, state := state,
        reconcile := state.Submitting? || state.SubmissionUnknown? || lease.reconcile);
    }
  }
}
