/**
 * The optimistic profile writer (lib/profile-drafts.ts): edits are saved one request at a time, each carrying
 * the revision last acknowledged. A write's reply settles in three microtasks (then, catch, finally), and any
 * call may come between them. Profiles are compared as JSON values; `changed` does not call back in.
 */
module ProfileDrafts {
  import opened Options
  import opened Rebase

  datatype Request = Request(expectedRevision: int, requestId: int, profile: Json)

  datatype Snapshot = Snapshot(revision: int, acknowledged: Json, desired: Json, pending: Option<Request>)

  datatype Status = Saved | Pending | Saving | Paused | Conflicted

  /** Where the promise of one write stands: no reply yet, its error to be caught, or its `finally` to run. */
  datatype Stage = Waiting | Threw(error: int) | Settling | Done

  datatype Work = Work(generation: int, request: Request, stage: Stage)

  /** A flush loop suspended on the promise of a write. */
  datatype Loop = Loop(id: int, work: int)

  /**
   * The writer's fields, the promises it has started (`flight` names the one it waits for), and the flush loops
   * suspended on a promise.
   */
  datatype Writer = Writer(
    state: Option<Snapshot>, flight: Option<int>, timer: bool, generation: int, blocked: bool,
    status: Status, error: Option<int>,
    works: map<int, Work>, loops: set<Loop>, nextWork: int, nextRequest: int, nextLoop: int)

  function New(revision: int, profile: Json, recovered: Option<Snapshot>): Writer {
    var state := if recovered.Some? then recovered.value else Snapshot(revision, profile, profile, None);
    var w := Writer(Some(state), None, false, 0, false, Saved, None, map[], {}, 0, 0, 0);
    w.(status := if Dirty(w) then Pending else Saved,
       nextRequest := if state.pending.Some? then state.pending.value.requestId + 1 else 0)
  }

  predicate Dirty(w: Writer) {
    w.state.Some? && (w.state.value.pending.Some? || w.state.value.desired != w.state.value.acknowledged)
  }

  function Calm(w: Writer): Status {
    if Dirty(w) then Pending else Saved
  }

  function Scheduled(w: Writer): Writer {
    w.(timer := w.state.Some? && !w.blocked && Dirty(w))
  }

  function SetDesired(w: Writer, value: Json): Writer {
    if w.state.None? then w
    else
      var u := w.(state := Some(w.state.value.(desired := value)));
      Scheduled(if u.blocked then u else u.(status := Calm(u)))
  }

  function Pause(w: Writer, error: int): Writer {
    w.(generation := w.generation + 1, flight := None, blocked := true, error := Some(error),
       status := if error == 409 then Conflicted else Paused, timer := false)
  }

  function Retry(w: Writer): Writer {
    if w.state.None? || w.status.Conflicted? then w
    else
      var u := w.(blocked := false, error := None);
      Scheduled(u.(status := Calm(u)))
  }

  function Reconcile(w: Writer, revision: int, profile: Json, keepDraft: bool): Writer {
    if w.state.None? then w
    else
      var desired := if keepDraft then RebaseVersions(w.state.value.desired, profile) else profile;
      var u := w.(generation := w.generation + 1, flight := None, blocked := false, error := None,
                  state := Some(Snapshot(revision, profile, desired, None)));
      Scheduled(u.(status := Calm(u)))
  }

  function Dispose(w: Writer): Writer {
    w.(generation := w.generation + 1, timer := false, state := None, error := None, flight := None)
  }

  /** Starts the write of the pending request, or of a new one for the desired profile. */
  function Started(w: Writer): Writer
    requires w.state.Some?
  {
    var s := w.state.value;
    var request := if s.pending.Some? then s.pending.value else Request(s.revision, w.nextRequest, s.desired);
    w.(state := Some(s.(pending := Some(request))), status := Saving,
       nextRequest := if s.pending.Some? then w.nextRequest else w.nextRequest + 1,
       works := w.works[w.nextWork := Work(w.generation, request, Waiting)],
       flight := Some(w.nextWork), nextWork := w.nextWork + 1)
  }

  predicate KeepsFlushing(w: Writer) {
    w.state.Some? && !w.blocked && Dirty(w)
  }

  /** One turn of a flush loop: it returns, or waits for the flight, starting one when there is none. */
  function Turned(w: Writer, loop: int): Writer {
    if !KeepsFlushing(w) then w
    else
      var u := if w.flight.Some? then w else Started(w);
      u.(loops := u.loops + {Loop(loop, u.flight.value)})
  }

  function Flush(w: Writer): Writer {
    Turned(w.(timer := false, nextLoop := w.nextLoop + 1), w.nextLoop)
  }

  function TimerFires(w: Writer): Writer {
    if w.timer then Flush(w) else w
  }

  /** A flush loop whose promise has settled takes its next turn. */
  function Resume(w: Writer, loop: int, work: int): Writer {
    if Loop(loop, work) !in w.loops || work !in w.works || !w.works[work].stage.Done? then w
    else Turned(w.(loops := w.loops - {Loop(loop, work)}), loop)
  }

  function Staged(w: Writer, k: int, stage: Stage): Writer
    requires k in w.works
  {
    w.(works := w.works[k := w.works[k].(stage := stage)])
  }

  /** The writer still cares: it is not disposed, and no pause or reconcile came since the write started. */
  predicate Current(w: Writer, k: int)
    requires k in w.works
  {
    w.state.Some? && w.works[k].generation == w.generation
  }

  const INVALID_ACK: int := 0

  /** The write resolves with an acknowledgement: the `then` handler. */
  function Acknowledge(w: Writer, k: int, revision: int, profile: Json): Writer {
    if k !in w.works || !w.works[k].stage.Waiting? then w
    else if !Current(w, k) then Staged(w, k, Settling)
    else
      var request, s := w.works[k].request, w.state.value;
      if revision <= request.expectedRevision then Staged(w, k, Threw(INVALID_ACK))
      else
        var desired := if s.desired == request.profile then profile else RebaseVersions(s.desired, profile);
        var u := Staged(w, k, Settling).(state := Some(Snapshot(revision, profile, desired, None)), error := None);
        u.(status := Calm(u))
  }

  /** The write rejects, with the status of a save error or 0 for any other. */
  function Reject(w: Writer, k: int, error: int): Writer {
    if k !in w.works || !w.works[k].stage.Waiting? then w else Staged(w, k, Threw(error))
  }

  predicate IsRefusal(error: int) {
    error == 400 || error == 413 || error == 415
  }

  /** The `catch` handler: a request the server will never take is given up, any other is kept to be sent again. */
  function Catch(w: Writer, k: int): Writer {
    if k !in w.works || !w.works[k].stage.Threw? then w
    else
      var error, u := w.works[k].stage.error, Staged(w, k, Settling);
      if !Current(w, k) then u
      else
        u.(blocked := true, error := Some(error),
           state := if IsRefusal(error) then Some(u.state.value.(pending := None)) else u.state,
           status := if error == 409 then Conflicted else Paused)
  }

  /** The `finally` handler; then everyone waiting on the promise may resume. */
  function Finish(w: Writer, k: int): Writer {
    if k !in w.works || !w.works[k].stage.Settling? then w
    else
      var u := Staged(w, k, Done);
      if Current(w, k) then u.(flight := None) else u
  }

  datatype Event =
    | DoSetDesired(value: Json) | DoPause(error: int) | DoRetry | DoReconcile(revision: int, profile: Json, keepDraft: bool)
    | DoFlush | DoTimer | DoResume(loop: int, work: int) | DoDispose
    | DoAcknowledge(k: int, revision: int, profile: Json) | DoReject(k: int, error: int) | DoCatch(k: int) | DoFinish(k: int)

  function Step(w: Writer, e: Event): Writer {
    match e
    case DoSetDesired(value) => SetDesired(w, value)
    case DoPause(error) => Pause(w, error)
    case DoRetry => Retry(w)
    case DoReconcile(revision, profile, keepDraft) => Reconcile(w, revision, profile, keepDraft)
    case DoFlush => Flush(w)
    case DoTimer => TimerFires(w)
    case DoResume(loop, work) => Resume(w, loop, work)
    case DoDispose => Dispose(w)
    case DoAcknowledge(k, revision, profile) => Acknowledge(w, k, revision, profile)
    case DoReject(k, error) => Reject(w, k, error)
    case DoCatch(k) => Catch(w, k)
    case DoFinish(k) => Finish(w, k)
  }

  function After(w: Writer, events: seq<Event>): Writer
    decreases events
  {
    if events == [] then w else After(Step(w, events[0]), events[1..])
  }

  // ----------------------------------------------------------------------------------------
  // What every interleaving keeps
  // ----------------------------------------------------------------------------------------

  /** A pending request carries the acknowledged revision, and no id is used for two requests. */
  ghost predicate RequestsOk(w: Writer) {
    && (w.state.Some? && w.state.value.pending.Some? ==>
          w.state.value.pending.value.expectedRevision == w.state.value.revision
          && w.state.value.pending.value.requestId < w.nextRequest)
    && (forall k :: k in w.works ==> w.works[k].request.requestId < w.nextRequest)
    && (forall j, k :: j in w.works && k in w.works && w.works[j].request.requestId == w.works[k].request.requestId ==>
          w.works[j].request == w.works[k].request)
    && (w.state.Some? && w.state.value.pending.Some? ==>
          var pending := w.state.value.pending.value;
          forall k :: k in w.works && w.works[k].request.requestId == pending.requestId ==> w.works[k].request == pending)
  }

  /** An unsettled write of the current generation is the flight, and while it waits its request is the pending one. */
  predicate WorkOk(w: Writer, k: int)
    requires k in w.works
  {
    && k < w.nextWork && w.works[k].generation <= w.generation
    && (Current(w, k) && !w.works[k].stage.Done? ==> w.flight == Some(k))
    && (Current(w, k) && (w.works[k].stage.Waiting? || w.works[k].stage.Threw?) ==>
          w.state.value.pending == Some(w.works[k].request) && !w.blocked)
  }

  predicate FlightOk(w: Writer) {
    w.flight.Some? ==>
      w.flight.value in w.works && Current(w, w.flight.value) && !w.works[w.flight.value].stage.Done?
      && IsAwaited(w, w.flight.value)
  }

  predicate IsAwaited(w: Writer, work: int) {
    exists l :: l in w.loops && l.work == work
  }

  predicate LoopsOk(w: Writer) {
    forall l :: l in w.loops ==> l.work in w.works && l.id < w.nextLoop
  }

  /** Unsaved edits of an unblocked writer are on their way: a timer, a flight or a flush loop ready to go on. */
  predicate SaveIsComing(w: Writer) {
    KeepsFlushing(w) ==> w.timer || w.flight.Some? || exists l :: l in w.loops && IsReady(w, l)
  }

  predicate IsReady(w: Writer, l: Loop) {
    l.work in w.works && w.works[l.work].stage.Done?
  }

  ghost predicate Inv(w: Writer) {
    RequestsOk(w) && FlightOk(w) && LoopsOk(w) && (forall k :: k in w.works ==> WorkOk(w, k))
  }

  lemma StartKeepsInv(w: Writer, loop: int)
    requires Inv(w) && KeepsFlushing(w) && w.flight.None? && loop < w.nextLoop
    ensures var u := Started(w); Inv(u.(loops := u.loops + {Loop(loop, u.flight.value)}))
  {
    assert forall k :: k in w.works ==> WorkOk(w, k) && k < w.nextWork;
    var u := Started(w);
    var v := u.(loops := u.loops + {Loop(loop, u.flight.value)});
    assert Loop(loop, w.nextWork) in v.loops;
    forall k | k in v.works
      ensures WorkOk(v, k)
    {
      if k in w.works {
        assert WorkOk(w, k);
      }
    }
  }

  lemma TurnKeepsInv(w: Writer, loop: int)
    requires Inv(w) && loop < w.nextLoop
    ensures Inv(Turned(w, loop))
  {
    if KeepsFlushing(w) {
      if w.flight.Some? {
        WaitKeepsInv(w, loop);
      } else {
        StartKeepsInv(w, loop);
      }
    }
  }

  lemma WaitKeepsInv(w: Writer, loop: int)
    requires Inv(w) && w.flight.Some? && loop < w.nextLoop
    ensures Inv(w.(loops := w.loops + {Loop(loop, w.flight.value)}))
  {
    var v := w.(loops := w.loops + {Loop(loop, w.flight.value)});
    assert Loop(loop, w.flight.value) in v.loops;
    forall k | k in v.works
      ensures WorkOk(v, k)
    {
      assert WorkOk(w, k);
    }
  }

  lemma FlushKeepsInv(w: Writer)
    requires Inv(w)
    ensures Inv(Flush(w))
  {
    hide Inv, Turned;
    var u := w.(timer := false, nextLoop := w.nextLoop + 1);
    SameWorks(w, u);
    TurnKeepsInv(u, w.nextLoop);
  }

  /** Fields no promise depends on may change. */
  lemma SameWorks(w: Writer, u: Writer)
    requires Inv(w) && u.works == w.works && u.loops == w.loops && u.nextWork == w.nextWork && u.nextRequest == w.nextRequest
    requires w.nextLoop <= u.nextLoop && u.generation == w.generation && u.flight == w.flight
    requires u.state.Some? <==> w.state.Some?
    requires u.state.Some? ==> u.state.value.revision == w.state.value.revision && u.state.value.pending == w.state.value.pending
    requires !w.blocked ==> !u.blocked
    ensures Inv(u)
  {
    assert w.flight.Some? ==> exists l :: l in u.loops && l.work == w.flight.value;
    forall k | k in u.works
      ensures WorkOk(u, k)
    {
      assert WorkOk(w, k);
    }
  }

  /** A new generation: no write is current any more. */
  lemma SupersededKeepsInv(w: Writer, u: Writer)
    requires Inv(w) && u.works == w.works && u.loops == w.loops && u.nextWork == w.nextWork && u.nextRequest == w.nextRequest
    requires u.nextLoop == w.nextLoop && u.generation == w.generation + 1 && u.flight.None?
    requires u.state.Some? && u.state.value.pending.Some? ==>
               w.state.Some? && u.state.value.pending == w.state.value.pending && u.state.value.revision == w.state.value.revision
    ensures Inv(u)
  {
    forall k | k in u.works
      ensures WorkOk(u, k) && !Current(u, k)
    {
      assert WorkOk(w, k);
    }
  }

  lemma ResumeKeepsInv(w: Writer, loop: int, work: int)
    requires Inv(w)
    ensures Inv(Resume(w, loop, work))
  {
    if Loop(loop, work) in w.loops && work in w.works && w.works[work].stage.Done? {
      var u := w.(loops := w.loops - {Loop(loop, work)});
      if w.flight.Some? {
        var l :| l in w.loops && l.work == w.flight.value;
        assert l in u.loops;
      }
      forall k | k in u.works
        ensures WorkOk(u, k)
      {
        assert WorkOk(w, k);
      }
      TurnKeepsInv(u, loop);
    }
  }

  /** A handler of a superseded write only moves its own promise on. */
  lemma StagedKeepsInv(w: Writer, k: int, stage: Stage)
    requires Inv(w) && k in w.works && !Current(w, k)
    ensures Inv(Staged(w, k, stage))
  {
    var u := Staged(w, k, stage);
    forall j | j in u.works
      ensures WorkOk(u, j)
    {
      assert WorkOk(w, j);
    }
    assert FlightOk(w);
    assert w.flight.Some? ==> exists l :: l in u.loops && l.work == w.flight.value;
  }

  lemma HandlerKeepsInv(w: Writer, e: Event)
    requires Inv(w)
    requires (e.DoAcknowledge? && e.k in w.works && w.works[e.k].stage.Waiting?)
             || (e.DoReject? && e.k in w.works && w.works[e.k].stage.Waiting?)
             || (e.DoCatch? && e.k in w.works && w.works[e.k].stage.Threw?)
             || (e.DoFinish? && e.k in w.works && w.works[e.k].stage.Settling?)
    requires Current(w, e.k)
    ensures Inv(Step(w, e))
  {
    var u := Step(w, e);
    assert WorkOk(w, e.k);
    assert w.flight == Some(e.k);
    HandlerKeepsRequests(w, e);
    HandlerKeepsWorks(w, e);
    assert LoopsOk(u) && IsAwaited(w, e.k) && (IsAwaited(w, e.k) ==> IsAwaited(u, e.k));
    hide RequestsOk, WorkOk, RebaseVersions, Calm, IsAwaited;
  }

  /** A handler moves its own write on, and no other. */
  lemma HandlerKeepsWorks(w: Writer, e: Event)
    requires Inv(w) && (e.DoAcknowledge? || e.DoReject? || e.DoCatch? || e.DoFinish?)
    requires e.k in w.works && Current(w, e.k) && w.flight == Some(e.k)
    ensures var u := Step(w, e); forall j :: j in u.works ==> WorkOk(u, j)
  {
    hide RequestsOk, LoopsOk, FlightOk, RebaseVersions, Calm;
    var u := Step(w, e);
    forall j | j in u.works
      ensures WorkOk(u, j)
    {
      assert WorkOk(w, j);
    }
  }

  lemma HandlerKeepsRequests(w: Writer, e: Event)
    requires RequestsOk(w) && (e.DoAcknowledge? || e.DoReject? || e.DoCatch? || e.DoFinish?)
    ensures RequestsOk(Step(w, e))
  {
    hide RebaseVersions, Calm, RequestsOk, IsRefusal, Dirty;
    SameRequests(w, Step(w, e));
  }

  /** Writes may change their stages, and a pending request may go. */
  lemma SameRequests(w: Writer, u: Writer)
    requires RequestsOk(w) && u.nextRequest == w.nextRequest
    requires forall k :: k in u.works ==> k in w.works && u.works[k].request == w.works[k].request
    requires u.state.Some? && u.state.value.pending.Some? ==>
               w.state.Some? && u.state.value.pending == w.state.value.pending && u.state.value.revision == w.state.value.revision
    ensures RequestsOk(u)
  {
  }

  lemma StepKeepsInv(w: Writer, e: Event)
    requires Inv(w)
    ensures Inv(Step(w, e))
  {
    match e
    case DoSetDesired(_) => if w.state.Some? { SameWorks(w, Step(w, e)); }
    case DoPause(_) => SupersededKeepsInv(w, Step(w, e));
    case DoRetry => RetryKeepsInv(w);
    case DoReconcile(_, _, _) => if w.state.Some? { SupersededKeepsInv(w, Step(w, e)); }
    case DoFlush => FlushKeepsInv(w);
    case DoTimer => if w.timer { FlushKeepsInv(w); }
    case DoResume(loop, work) => ResumeKeepsInv(w, loop, work);
    case DoDispose => SupersededKeepsInv(w, Step(w, e));
    case DoAcknowledge(k, _, _) =>
      if k in w.works && w.works[k].stage.Waiting? { if Current(w, k) { HandlerKeepsInv(w, e); } else { StagedKeepsInv(w, k, Settling); } }
    case DoReject(k, error) =>
      if k in w.works && w.works[k].stage.Waiting? { if Current(w, k) { HandlerKeepsInv(w, e); } else { StagedKeepsInv(w, k, Threw(error)); } }
    case DoCatch(k) =>
      if k in w.works && w.works[k].stage.Threw? { if Current(w, k) { HandlerKeepsInv(w, e); } else { StagedKeepsInv(w, k, Settling); } }
    case DoFinish(k) =>
      if k in w.works && w.works[k].stage.Settling? { if Current(w, k) { HandlerKeepsInv(w, e); } else { StagedKeepsInv(w, k, Done); } }
  }

  lemma RetryKeepsInv(w: Writer)
    requires Inv(w)
    ensures Inv(Retry(w))
  {
    if w.state.Some? && !w.status.Conflicted? {
      SameWorks(w, Retry(w));
    }
  }

  lemma {:induction false} RunKeepsInv(w: Writer, events: seq<Event>)
    requires Inv(w)
    ensures Inv(After(w, events))
    decreases events
  {
    if events != [] {
      StepKeepsInv(w, events[0]);
      RunKeepsInv(Step(w, events[0]), events[1..]);
    }
  }

  /** What a recovered draft must satisfy: its pending request is for the revision it was acknowledged at. */
  predicate Recoverable(recovered: Option<Snapshot>) {
    recovered.Some? && recovered.value.pending.Some? ==>
      recovered.value.pending.value.expectedRevision == recovered.value.revision
  }

  lemma NewIsOk(revision: int, profile: Json, recovered: Option<Snapshot>)
    requires Recoverable(recovered)
    ensures Inv(New(revision, profile, recovered))
  {
  }

  /** A write the writer still waits for. */
  predicate Outstanding(w: Writer, k: int) {
    k in w.works && Current(w, k) && !w.works[k].stage.Done?
  }

  /**
   * In every interleaving: a pending request carries the acknowledged revision, at most one write of the current
   * generation is outstanding, and a request id stands for one request.
   */
  lemma WriterIsSafe(revision: int, profile: Json, recovered: Option<Snapshot>, events: seq<Event>)
    requires Recoverable(recovered)
    ensures var w := After(New(revision, profile, recovered), events);
      && (w.state.Some? && w.state.value.pending.Some? ==> w.state.value.pending.value.expectedRevision == w.state.value.revision)
      && (forall j, k :: Outstanding(w, j) && Outstanding(w, k) ==> j == k)
      && (forall j, k :: j in w.works && k in w.works && w.works[j].request.requestId == w.works[k].request.requestId ==>
            w.works[j].request == w.works[k].request)
  {
    NewIsOk(revision, profile, recovered);
    RunKeepsInv(New(revision, profile, recovered), events);
    var w := After(New(revision, profile, recovered), events);
    forall j, k | Outstanding(w, j) && Outstanding(w, k)
      ensures j == k
    {
      assert WorkOk(w, j) && WorkOk(w, k);
    }
  }

  /** The reply of a superseded write changes nothing but its own promise. */
  lemma SupersededRepliesAreIgnored(w: Writer, e: Event)
    requires e.DoAcknowledge? || e.DoReject? || e.DoCatch? || e.DoFinish?
    requires e.k in w.works && !Current(w, e.k)
    ensures exists stage :: Step(w, e) == Staged(w, e.k, stage)
  {
    var u := Step(w, e);
    assert w.works[e.k := w.works[e.k]] == w.works;
    assert u == Staged(w, e.k, u.works[e.k].stage);
  }

  /** A failure that is not a refusal keeps its request; after a retry the next write sends the same request. */
  lemma RetrySendsTheSameRequest(w: Writer, k: int, error: int)
    requires Inv(w) && Outstanding(w, k) && w.works[k].stage == Threw(error) && !IsRefusal(error) && error != 409
    ensures var u := Flush(Retry(Finish(Catch(w, k), k)));
      u.flight.Some? && u.works[u.flight.value].request == w.works[k].request && u.works[u.flight.value].stage.Waiting?
  {
    assert WorkOk(w, k);
  }

  /** The same after a pause in the middle of a write. */
  lemma PauseKeepsTheRequest(w: Writer, k: int, error: int)
    requires Inv(w) && Outstanding(w, k) && w.works[k].stage.Waiting? && error != 409
    ensures var u := Flush(Retry(Pause(w, error)));
      u.flight.Some? && u.works[u.flight.value].request == w.works[k].request && u.works[u.flight.value].generation == w.generation + 1
  {
    assert WorkOk(w, k);
  }

  // ----------------------------------------------------------------------------------------
  // What a flush returns with
  // ----------------------------------------------------------------------------------------

  /** The acknowledgement of a write that the writer still waits for, of a later revision than its request's. */
  predicate TakesAck(w: Writer, k: int, revision: int) {
    k in w.works && w.works[k].stage.Waiting? && Current(w, k) && revision > w.works[k].request.expectedRevision
  }

  /** The revision and profile that the server last confirmed, after one more event. */
  function Confirmed(w: Writer, e: Event, last: (int, Json)): (int, Json) {
    match e
    case DoReconcile(revision, profile, _) => if w.state.Some? then (revision, profile) else last
    case DoAcknowledge(k, revision, profile) => if TakesAck(w, k, revision) then (revision, profile) else last
    case _ => last
  }

  /** And after a run of events. */
  function LastConfirmed(w: Writer, events: seq<Event>, last: (int, Json)): (int, Json)
    decreases events
  {
    if events == [] then last else LastConfirmed(Step(w, events[0]), events[1..], Confirmed(w, events[0], last))
  }

  function Held(s: Snapshot): (int, Json) {
    (s.revision, s.acknowledged)
  }

  lemma StepHoldsConfirmed(w: Writer, e: Event, last: (int, Json))
    requires w.state.Some? ==> Held(w.state.value) == last
    ensures Step(w, e).state.Some? ==> Held(Step(w, e).state.value) == Confirmed(w, e, last)
  {
  }

  lemma {:induction false} RunHoldsConfirmed(w: Writer, events: seq<Event>, last: (int, Json))
    requires w.state.Some? ==> Held(w.state.value) == last
    ensures After(w, events).state.Some? ==> Held(After(w, events).state.value) == LastConfirmed(w, events, last)
    decreases events
  {
    hide Step, Confirmed, Held;
    if events != [] {
      StepHoldsConfirmed(w, events[0], last);
      RunHoldsConfirmed(Step(w, events[0]), events[1..], Confirmed(w, events[0], last));
    }
  }

  /** What the draft becomes when the server confirms a profile: that profile, if the draft holds no later edits or is given up. */
  predicate TakesProfile(w: Writer, e: Event) {
    match e
    case DoReconcile(_, _, keepDraft) => w.state.Some? && !keepDraft
    case DoAcknowledge(k, revision, _) => TakesAck(w, k, revision) && w.state.value.desired == w.works[k].request.profile
    case _ => false
  }

  /** Else the edits stay, on top of it. */
  predicate RebasesDraft(w: Writer, e: Event) {
    match e
    case DoReconcile(_, _, keepDraft) => w.state.Some? && keepDraft
    case DoAcknowledge(k, revision, _) => TakesAck(w, k, revision) && w.state.value.desired != w.works[k].request.profile
    case _ => false
  }

  /**
   * When the server confirms a profile, the draft becomes that profile, or each of its versioned objects gets the version
   * of the confirmed object with its id, and its confirmation if the two agree; at no other event but an edit does the
   * draft change.
   */
  lemma DraftFollowsServer(w: Writer, e: Event, path: seq<nat>)
    requires w.state.Some? && Step(w, e).state.Some?
    ensures var before, after := w.state.value.desired, Step(w, e).state.value.desired;
      && (TakesProfile(w, e) ==> after == e.profile)
      && (RebasesDraft(w, e) ==> Stripped(after) == Stripped(before))
      && (RebasesDraft(w, e) && ObjectAt(before, path).Some? ==>
            ObjectAt(after, path).Some? && RebasedOnto(ObjectAt(before, path).value, ObjectAt(after, path).value, e.profile))
      && (e.DoSetDesired? ==> after == e.value)
      && (!TakesProfile(w, e) && !RebasesDraft(w, e) && !e.DoSetDesired? ==> after == before)
  {
    hide RebaseVersions, RebasedOnto, ObjectAt, Stripped, Objects;
    if RebasesDraft(w, e) {
      RebaseKeepsDraft(w.state.value.desired, e.profile);
      if ObjectAt(w.state.value.desired, path).Some? {
        ObjectsAreRebased(w.state.value.desired, e.profile, path);
      }
    }
  }

  ghost predicate IsWaiting(w: Writer, loop: int) {
    exists work :: Loop(loop, work) in w.loops
  }

  /** A flush waits from its call on, until the last of some later events lets it return. */
  ghost predicate FlushReturns(w: Writer, later: seq<Event>) {
    var events := [DoFlush] + later;
    && (forall n :: 1 <= n < |events| ==> IsWaiting(After(w, events[..n]), w.nextLoop))
    && !IsWaiting(After(w, events), w.nextLoop)
  }

  lemma TurnWaits(w: Writer, loop: int)
    ensures if KeepsFlushing(w) then IsWaiting(Turned(w, loop), loop) else Turned(w, loop) == w
  {
    if KeepsFlushing(w) {
      var u := if w.flight.Some? then w else Started(w);
      assert Loop(loop, u.flight.value) in Turned(w, loop).loops;
    }
  }

  /** The event at which a flush returns leaves the writer blocked, disposed or with nothing to save. */
  lemma ReturningStep(w: Writer, e: Event, loop: int)
    requires IsWaiting(w, loop) && !IsWaiting(Step(w, e), loop)
    ensures !KeepsFlushing(Step(w, e))
  {
    var work :| Loop(loop, work) in w.loops;
    assert Loop(loop, work) !in Step(w, e).loops;
    OnlyResumeEnds(w, e, Loop(loop, work));
    TurnWaits(w.(loops := w.loops - {Loop(loop, work)}), loop);
  }

  lemma OnlyResumeEnds(w: Writer, e: Event, l: Loop)
    requires l in w.loops && l !in Step(w, e).loops
    ensures e == DoResume(l.id, l.work) && Step(w, e) == Turned(w.(loops := w.loops - {l}), l.id)
  {
    hide RebaseVersions, Dirty, Calm;
  }

  lemma {:induction false} AfterSplits(w: Writer, events: seq<Event>, more: seq<Event>)
    ensures After(w, events + more) == After(After(w, events), more)
    decreases events
  {
    hide Step;
    if events == [] {
      assert events + more == more;
    } else {
      assert (events + more)[1..] == events[1..] + more;
      AfterSplits(Step(w, events[0]), events[1..], more);
    }
  }

  /**
   * A flush called at any time that returns, after whatever events came meanwhile, to a writer neither blocked nor
   * disposed, returns with no write pending and the draft equal to the profile that the server last confirmed.
   */
  lemma FlushReturnsClean(revision: int, profile: Json, recovered: Option<Snapshot>, before: seq<Event>, later: seq<Event>)
    requires FlushReturns(After(New(revision, profile, recovered), before), later)
    ensures var w := New(revision, profile, recovered);
      var events := before + ([DoFlush] + later);
      var end := After(w, events);
      end.state.Some? && !end.blocked ==>
        && end.state.value.pending.None?
        && LastConfirmed(w, events, Held(w.state.value)) == (end.state.value.revision, end.state.value.desired)
  {
    var w := New(revision, profile, recovered);
    var events := before + ([DoFlush] + later);
    RunHoldsConfirmed(w, events, Held(w.state.value));
    AfterSplits(w, before, [DoFlush] + later);
    hide Step, After, New, LastConfirmed;
    FlushEndsClean(After(w, before), later);
  }

  lemma FlushEndsClean(w: Writer, later: seq<Event>)
    requires FlushReturns(w, later)
    ensures !KeepsFlushing(After(w, [DoFlush] + later))
  {
    var events := [DoFlush] + later;
    if later == [] {
      assert events == [DoFlush] && [DoFlush][1..] == [];
      assert After(w, [DoFlush]) == Flush(w);
      TurnWaits(w.(timer := false, nextLoop := w.nextLoop + 1), w.nextLoop);
    } else {
      var n := |events| - 1;
      var e := events[n];
      assert events == events[..n] + [e] && [e][1..] == [];
      AfterSplits(w, events[..n], [e]);
      assert After(After(w, events[..n]), [e]) == Step(After(w, events[..n]), e);
      hide Step, After;
      ReturningStep(After(w, events[..n]), e, w.nextLoop);
    }
  }

  /** Unsaved edits are never forgotten: once a save is coming it keeps coming until they are saved or the writer blocks. */
  lemma SaveKeepsComing(w: Writer, e: Event)
    requires Inv(w) && SaveIsComing(w)
    ensures SaveIsComing(Step(w, e))
  {
    match e
    case DoFinish(k) => FinishKeepsComing(w, k);
    case DoResume(loop, work) =>
      if Loop(loop, work) in w.loops && work in w.works && w.works[work].stage.Done? {
        TurnSaves(w.(loops := w.loops - {Loop(loop, work)}), loop);
      }
    case DoFlush => TurnSaves(w.(timer := false, nextLoop := w.nextLoop + 1), w.nextLoop);
    case DoTimer => TurnSaves(w.(timer := false, nextLoop := w.nextLoop + 1), w.nextLoop);
    case DoAcknowledge(k, _, _) => HandlerKeepsComing(w, e);
    case DoReject(k, _) => HandlerKeepsComing(w, e);
    case DoCatch(k) => HandlerKeepsComing(w, e);
    case _ =>
  }

  /** A call of one of the writer's methods, as against a timer, a reply or a loop that goes on. */
  predicate IsCall(e: Event) {
    e.DoSetDesired? || e.DoPause? || e.DoRetry? || e.DoReconcile? || e.DoFlush? || e.DoDispose?
  }

  lemma CallSaves(w: Writer, e: Event)
    requires IsCall(e) && w.works == map[] && w.flight.None? && !w.blocked && (w.state.Some? ==> w.status != Conflicted)
    ensures SaveIsComing(Step(w, e))
  {
    match e
    case DoFlush => TurnSaves(w.(timer := false, nextLoop := w.nextLoop + 1), w.nextLoop);
    case _ =>
  }

  lemma {:induction false} SavesKeepComing(w: Writer, events: seq<Event>)
    requires Inv(w) && SaveIsComing(w)
    ensures SaveIsComing(After(w, events))
    decreases events
  {
    hide Step, Inv, SaveIsComing;
    if events != [] {
      SaveKeepsComing(w, events[0]);
      StepKeepsInv(w, events[0]);
      SavesKeepComing(Step(w, events[0]), events[1..]);
    }
  }

  /**
   * Over a whole life of a writer, unsaved edits have a save coming exactly when it did not begin with edits recovered
   * from a draft, or one of its methods has been called: recovered edits wait for the first call.
   */
  lemma {:induction false} SavesComeIff(revision: int, profile: Json, recovered: Option<Snapshot>, events: seq<Event>)
    requires Recoverable(recovered)
    ensures var w := New(revision, profile, recovered);
      SaveIsComing(After(w, events)) <==> !Dirty(w) || exists i :: 0 <= i < |events| && IsCall(events[i])
    decreases events
  {
    var w := New(revision, profile, recovered);
    NewIsOk(revision, profile, recovered);
    if events == [] {
    } else if !Dirty(w) || IsCall(events[0]) {
      if Dirty(w) {
        CallSaves(w, events[0]);
        StepKeepsInv(w, events[0]);
        SavesKeepComing(Step(w, events[0]), events[1..]);
      } else {
        SavesKeepComing(w, events);
      }
    } else {
      assert Step(w, events[0]) == w;
      hide SaveIsComing, Dirty, New, Step, Inv, IsCall;
      SavesComeIff(revision, profile, recovered, events[1..]);
      CallLater(events);
    }
  }

  lemma CallLater(events: seq<Event>)
    requires events != [] && !IsCall(events[0])
    ensures (exists i :: 0 <= i < |events| && IsCall(events[i])) <==> exists i :: 0 <= i < |events[1..]| && IsCall(events[1..][i])
  {
    hide IsCall;
    if i :| 0 <= i < |events| && IsCall(events[i]) {
      assert IsCall(events[1..][i - 1]);
    }
    if i :| 0 <= i < |events[1..]| && IsCall(events[1..][i]) {
      assert IsCall(events[i + 1]);
    }
  }

  lemma TurnSaves(w: Writer, loop: int)
    ensures SaveIsComing(Turned(w, loop))
  {
  }

  lemma HandlerKeepsComing(w: Writer, e: Event)
    requires Inv(w) && SaveIsComing(w) && (e.DoAcknowledge? || e.DoReject? || e.DoCatch?)
    ensures SaveIsComing(Step(w, e))
  {
    var u := Step(w, e);
    if e.k in w.works && Current(w, e.k) {
      assert WorkOk(w, e.k);
    } else {
      KeptReady(w, u);
    }
  }

  lemma FinishKeepsComing(w: Writer, k: int)
    requires Inv(w) && SaveIsComing(w)
    ensures SaveIsComing(Finish(w, k))
  {
    var u := Finish(w, k);
    if k in w.works && w.works[k].stage.Settling? && Current(w, k) {
      assert WorkOk(w, k);
      var l :| l in w.loops && l.work == k;
      assert l in u.loops && IsReady(u, l);
    } else {
      KeptReady(w, u);
    }
  }

  lemma KeptReady(w: Writer, u: Writer)
    requires w.loops == u.loops && forall l :: IsReady(w, l) ==> IsReady(u, l)
    ensures (exists l :: l in w.loops && IsReady(w, l)) ==> exists l :: l in u.loops && IsReady(u, l)
  {
  }

  // ----------------------------------------------------------------------------------------
  // The writer as an object
  // ----------------------------------------------------------------------------------------

  /** Each method is one step of the writer above, so what every interleaving of steps keeps holds of the object. */
  class RevisionWriter {
    var state: Option<Snapshot>
    var flight: Option<int>
    var timer: bool
    var generation: int
    var blocked: bool
    var status: Status
    var error: Option<int>
    var works: map<int, Work>
    var loops: set<Loop>
    var nextWork: int
    var nextRequest: int
    var nextLoop: int

    function View(): Writer
      reads this
    {
      Writer(state, flight, timer, generation, blocked, status, error, works, loops, nextWork, nextRequest, nextLoop)
    }

    constructor (revision: int, profile: Json, recovered: Option<Snapshot>)
      requires Recoverable(recovered)
      ensures View() == New(revision, profile, recovered) && Inv(View())
    {
      var s := if recovered.Some? then recovered.value else Snapshot(revision, profile, profile, None);
      state := Some(s);
      flight, timer, generation, blocked, error := None, false, 0, false, None;
      status := if s.pending.Some? || s.desired != s.acknowledged then Pending else Saved;
      works, loops, nextWork, nextLoop := map[], {}, 0, 0;
      nextRequest := if s.pending.Some? then s.pending.value.requestId + 1 else 0;
      new;
      NewIsOk(revision, profile, recovered);
    }

    method Schedule()
      modifies this`timer
      ensures View() == Scheduled(old(View()))
    {
      timer := false;
      if state.None? || blocked || !Dirty(View()) {
        return;
      }
      timer := true;
    }

    method SetDesired(value: Json)
      modifies this
      ensures View() == Step(old(View()), DoSetDesired(value))
    {
      if state.None? {
        return;
      }
      state := Some(state.value.(desired := value));
      if !blocked {
        status := if Dirty(View()) then Pending else Saved;
      }
      Schedule();
    }

    method Pause(reason: int)
      modifies this
      ensures View() == Step(old(View()), DoPause(reason))
    {
      generation, flight, blocked, error := generation + 1, None, true, Some(reason);
      status := if reason == 409 then Conflicted else Paused;
      timer := false;
    }

    method Retry()
      modifies this
      ensures View() == Step(old(View()), DoRetry)
    {
      if state.None? || status == Conflicted {
        return;
      }
      blocked := false;
      error := None;
      status := if Dirty(View()) then Pending else Saved;
      Schedule();
    }

    method Reconcile(revision: int, profile: Json, keepDraft: bool)
      modifies this
      ensures View() == Step(old(View()), DoReconcile(revision, profile, keepDraft))
    {
      hide Dirty, RebaseVersions;
      if state.None? {
        return;
      }
      var desired := if keepDraft then RebaseVersions(state.value.desired, profile) else profile;
      generation, flight, blocked, error := generation + 1, None, false, None;
      state := Some(Snapshot(revision, profile, desired, None));
      status := if Dirty(View()) then Pending else Saved;
      Schedule();
    }

    /** Sends the pending request, or a new one that becomes pending; the promise is the flight. */
    method Start()
      requires state.Some?
      modifies this
      ensures View() == Started(old(View()))
    {
      var request := if state.value.pending.Some? then state.value.pending.value
                     else Request(state.value.revision, nextRequest, state.value.desired);
      if state.value.pending.None? {
        nextRequest := nextRequest + 1;
      }
      state := Some(state.value.(pending := Some(request)));
      status := Saving;
      works := works[nextWork := Work(generation, request, Waiting)];
      flight := Some(nextWork);
      nextWork := nextWork + 1;
    }

    method Turn(loop: int)
      modifies this
      ensures View() == Turned(old(View()), loop)
    {
      if state.Some? && !blocked && Dirty(View()) {
        if flight.None? {
          Start();
        }
        loops := loops + {Loop(loop, flight.value)};
      }
    }

    method Flush()
      modifies this
      ensures View() == Step(old(View()), DoFlush)
    {
      timer := false;
      nextLoop := nextLoop + 1;
      Turn(nextLoop - 1);
    }

    method Resume(loop: int, work: int)
      modifies this
      ensures View() == Step(old(View()), DoResume(loop, work))
    {
      if Loop(loop, work) in loops && work in works && works[work].stage.Done? {
        loops := loops - {Loop(loop, work)};
        Turn(loop);
      }
    }

    /** The `then` handler of write `k`. */
    method Acknowledge(k: int, revision: int, profile: Json)
      modifies this
      ensures View() == Step(old(View()), DoAcknowledge(k, revision, profile))
    {
      hide Dirty, RebaseVersions;
      if k !in works || !works[k].stage.Waiting? {
        return;
      }
      var request := works[k].request;
      works := works[k := works[k].(stage := Settling)];
      if state.None? || works[k].generation != generation {
        return;
      }
      if revision <= request.expectedRevision {
        works := works[k := works[k].(stage := Threw(INVALID_ACK))];
        return;
      }
      var desired := if state.value.desired == request.profile then profile
                     else RebaseVersions(state.value.desired, profile);
      state := Some(Snapshot(revision, profile, desired, None));
      error := None;
      status := if Dirty(View()) then Pending else Saved;
    }

    method Reject(k: int, reason: int)
      modifies this
      ensures View() == Step(old(View()), DoReject(k, reason))
    {
      if k in works && works[k].stage.Waiting? {
        works := works[k := works[k].(stage := Threw(reason))];
      }
    }

    method Catch(k: int)
      modifies this
      ensures View() == Step(old(View()), DoCatch(k))
    {
      hide Dirty, RebaseVersions;
      if k !in works || !works[k].stage.Threw? {
        return;
      }
      var reason := works[k].stage.error;
      works := works[k := works[k].(stage := Settling)];
      if state.None? || works[k].generation != generation {
        return;
      }
      blocked, error := true, Some(reason);
      if IsRefusal(reason) {
        state := Some(state.value.(pending := None));
      }
      status := if reason == 409 then Conflicted else Paused;
    }

    method Finish(k: int)
      modifies this
      ensures View() == Step(old(View()), DoFinish(k))
    {
      if k !in works || !works[k].stage.Settling? {
        return;
      }
      works := works[k := works[k].(stage := Done)];
      if state.Some? && works[k].generation == generation {
        flight := None;
      }
    }

    method Dispose()
      modifies this
      ensures View() == Step(old(View()), DoDispose)
    {
      generation, timer, state, error, flight := generation + 1, false, None, None, None;
    }
  }
}
