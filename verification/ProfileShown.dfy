/** What the profile writer shows, keeps and sends, said of every step and of whole runs. */
module ProfileShown {
  import opened Options
  import opened Rebase
  import opened ProfileDrafts

  predicate HasUnsaved(s: Snapshot) {
    s.pending.Some? || s.desired != s.acknowledged
  }

  /** The write is under way: no acknowledgement has been taken, nor its error caught. */
  predicate IsUnderWay(w: Writer, k: int) {
    k in w.works && (w.works[k].stage.Waiting? || w.works[k].stage.Threw?)
  }

  /**
   * The writer is blocked exactly while it shows an error, as a conflict for status 409 and paused for any other; else it shows
   * that all is saved exactly when it is. It shows that it is saving only while a write is under way.
   */
  predicate ShowsItsState(w: Writer) {
    w.state.Some? ==>
      && (w.blocked <==> w.error.Some?)
      && (w.status == Conflicted <==> w.error == Some(409))
      && (w.status == Paused <==> w.error.Some? && w.error != Some(409))
      && (w.status == Saved <==> w.error.None? && !HasUnsaved(w.state.value))
      && (w.status == Saving ==> w.flight.Some? && IsUnderWay(w, w.flight.value))
  }

  lemma StepShowsItsState(w: Writer, e: Event)
    requires Inv(w) && ShowsItsState(w)
    ensures ShowsItsState(Step(w, e))
  {
    hide RebaseVersions, RequestsOk, LoopsOk;
    match e
    case DoAcknowledge(k, _, _) => if k in w.works { assert WorkOk(w, k); }
    case DoReject(k, _) => if k in w.works { assert WorkOk(w, k); }
    case DoCatch(k) => if k in w.works { assert WorkOk(w, k); }
    case DoFinish(k) => if k in w.works { assert WorkOk(w, k); }
    case _ =>
  }

  lemma {:induction false} RunShowsItsState(w: Writer, events: seq<Event>)
    requires Inv(w) && ShowsItsState(w)
    ensures ShowsItsState(After(w, events))
    decreases events
  {
    hide Step, Inv, ShowsItsState;
    if events != [] {
      StepShowsItsState(w, events[0]);
      StepKeepsInv(w, events[0]);
      RunShowsItsState(Step(w, events[0]), events[1..]);
    }
  }

  /** So it does in every run, until it is disposed. */
  lemma WriterShowsItsState(revision: int, profile: Json, recovered: Option<Snapshot>, events: seq<Event>)
    requires Recoverable(recovered)
    ensures ShowsItsState(After(New(revision, profile, recovered), events))
  {
    NewIsOk(revision, profile, recovered);
    RunShowsItsState(New(revision, profile, recovered), events);
  }

  /** The error of a write that the writer still waits for. */
  predicate CatchesError(w: Writer, e: Event) {
    e.DoCatch? && e.k in w.works && w.works[e.k].stage.Threw? && w.works[e.k].generation == w.generation
  }

  /**
   * A writer blocks exactly at a pause or such an error, and shows it; a blocked one goes on exactly at a reconciliation, or a
   * retry that is not of a conflict.
   */
  lemma BlocksIff(w: Writer, e: Event)
    requires Inv(w) && ShowsItsState(w) && w.state.Some? && !e.DoDispose?
    ensures var u := Step(w, e);
      && u.state.Some?
      && (!w.blocked ==> (u.blocked <==> e.DoPause? || CatchesError(w, e)))
      && (w.blocked ==> (!u.blocked <==> e.DoReconcile? || (e.DoRetry? && w.error != Some(409))))
      && (e.DoPause? ==> u.error == Some(e.error))
      && (CatchesError(w, e) ==> u.error == Some(w.works[e.k].stage.error))
      && (w.blocked && u.blocked && !e.DoPause? ==> u.error == w.error)
  {
    hide RebaseVersions, RequestsOk, LoopsOk;
    if e.DoCatch? && e.k in w.works {
      assert WorkOk(w, e.k);
    }
  }

  /** The events after which the writer looks anew whether to save, and those that stop its timer. */
  predicate Reschedules(w: Writer, e: Event) {
    e.DoSetDesired? || e.DoReconcile? || (e.DoRetry? && w.status != Conflicted)
  }

  predicate StopsTimer(w: Writer, e: Event) {
    e.DoPause? || e.DoFlush? || e.DoTimer? || e.DoDispose?
  }

  lemma TimerIs(w: Writer, e: Event)
    requires w.state.Some?
    ensures var u := Step(w, e);
      u.timer <==> if Reschedules(w, e) then !u.blocked && u.state.Some? && HasUnsaved(u.state.value)
                   else w.timer && !StopsTimer(w, e)
  {
    hide RebaseVersions;
  }

  /** A flush, a timer that fires or a flush that goes on. */
  predicate MaySend(w: Writer, e: Event) {
    || e.DoFlush? || (e.DoTimer? && w.timer)
    || (e.DoResume? && Loop(e.loop, e.work) in w.loops && e.work in w.works && w.works[e.work].stage.Done?)
  }

  /**
   * A write starts exactly then, if the writer is unblocked with something unsaved and waits for no other. It sends the pending
   * request again, or a new one of the draft for the revision last acknowledged; that is pending from then on.
   */
  lemma SendsIff(w: Writer, e: Event)
    requires Inv(w)
    ensures var u := Step(w, e);
      if MaySend(w, e) && w.state.Some? && !w.blocked && HasUnsaved(w.state.value) && w.flight.None? then
        && u.flight == Some(w.nextWork) && u.works.Keys == w.works.Keys + {w.nextWork} && w.nextWork !in w.works
        && u.status == Saving && u.works[w.nextWork].stage.Waiting? && u.works[w.nextWork].generation == w.generation
        && (var request := u.works[w.nextWork].request;
            && u.state == Some(w.state.value.(pending := Some(request)))
            && if w.state.value.pending.Some? then request == w.state.value.pending.value
               else request.expectedRevision == w.state.value.revision && request.profile == w.state.value.desired
                    && forall k :: k in w.works ==> w.works[k].request.requestId != request.requestId)
      else u.works.Keys == w.works.Keys && (u.flight.Some? ==> u.flight == w.flight)
  {
    hide RebaseVersions, LoopsOk, FlightOk;
    assert forall k :: k in w.works ==> WorkOk(w, k) && k < w.nextWork;
  }

  /** The server refuses the form of the request for good: bad, too large, or of a wrong type. */
  predicate IsRefusedForm(error: int) {
    error in {400, 413, 415}
  }

  /** A pending request is given up exactly when it is acknowledged, reconciled away or refused for its form; it never changes. */
  lemma PendingFallsIff(w: Writer, e: Event)
    requires w.state.Some? && w.state.value.pending.Some? && !e.DoDispose?
    ensures var u := Step(w, e);
      && u.state.Some?
      && (u.state.value.pending.None? <==>
            (e.DoAcknowledge? && TakesAck(w, e.k, e.revision)) || e.DoReconcile? || (CatchesError(w, e) && IsRefusedForm(w.works[e.k].stage.error)))
      && (u.state.value.pending.Some? ==> u.state.value.pending == w.state.value.pending)
  {
    hide RebaseVersions;
  }

  /** An acknowledgement of no later revision confirms nothing: it blocks the writer, which keeps its request. */
  lemma StaleAckBlocks(w: Writer, k: int, revision: int, profile: Json)
    requires Inv(w) && Outstanding(w, k) && w.works[k].stage.Waiting? && revision <= w.works[k].request.expectedRevision
    ensures var u := Finish(Catch(Acknowledge(w, k, revision, profile), k), k);
      && u.state == w.state && u.state.value.pending == Some(w.works[k].request)
      && u.blocked && u.error == Some(0) && u.status == Paused && u.flight.None?
  {
    assert WorkOk(w, k);
  }

  /** A disposed writer stays so: it holds no draft, waits for nothing and sends nothing, whatever comes. */
  lemma {:induction false} DisposedIsInert(w: Writer, events: seq<Event>)
    ensures var u := After(Dispose(w), events);
      u.state.None? && u.flight.None? && !u.timer && u.works.Keys == w.works.Keys && (events == [] ==> u.error.None?)
    decreases |events|
  {
    if events != [] {
      var n := |events| - 1;
      assert events == events[..n] + [events[n]] && [events[n]][1..] == [];
      DisposedIsInert(w, events[..n]);
      AfterSplits(Dispose(w), events[..n], [events[n]]);
      var u := After(Dispose(w), events[..n]);
      assert After(u, [events[n]]) == Step(u, events[n]);
    }
  }
}
