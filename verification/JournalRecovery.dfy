/** How a worker gets through: from a lease to an applied checkpoint, and from a crash to an empty journal. */
module JournalRecovery {
  import opened Options
  import opened Control
  import opened Journals

  lemma Nothing(w: World)
    ensures After(w, []) == w
  {
  }

  lemma Then(w: World, act: Action, rest: seq<Action>)
    ensures After(w, [act] + rest) == After(Step(w, act), rest)
  {
    hide Step;
    assert ([act] + rest)[1..] == rest;
  }

  /** The worker sends what it waits to hear of, the server handles it, and the worker hears the reply and tidies up. */
  function Exchange(act: ServerAction, reply: Reply): seq<Action> {
    [Send] + ([ServerActs(act)] + ([Hear(reply)] + ([ClearRejected] + [])))
  }

  lemma ExchangeIs(w: World, act: ServerAction, reply: Reply)
    ensures After(w, Exchange(act, reply)) == Step(Step(Step(Step(w, Send), ServerActs(act)), Hear(reply)), ClearRejected)
  {
    hide Step;
    Then(w, Send, [ServerActs(act)] + ([Hear(reply)] + ([ClearRejected] + [])));
    Then(Step(w, Send), ServerActs(act), [Hear(reply)] + ([ClearRejected] + []));
    Then(Step(Step(w, Send), ServerActs(act)), Hear(reply), [ClearRejected] + []);
    Then(Step(Step(Step(w, Send), ServerActs(act)), Hear(reply)), ClearRejected, []);
    Nothing(Step(Step(Step(Step(w, Send), ServerActs(act)), Hear(reply)), ClearRejected));
  }

  /** The answer is final for a journal being recovered: not found, in conflict, or too large. */
  predicate IsFinalStatus(status: int) {
    status in {404, 409, 413}
  }

  // ----------------------------------------------------------------------------------------
  // One exchange
  // ----------------------------------------------------------------------------------------

  /**
   * A worker that waits on a checkpoint settles it in one undisturbed exchange exactly when it is applied, or when the worker
   * recovers it and the answer is 409; else it goes down with the journal as it was.
   */
  lemma EventExchange(w: World, c: EventCmd, recovering: bool, live: bool)
    requires Inv(w) && w.phase == AwaitingEvent(c, recovering)
    ensures var out := RecordEvent(w.server, c, live);
      var t := After(w, Exchange(DoEvent(c, live), out.reply));
      && t.server == out.server && t.batch == w.batch
      && (if out.reply.Accepted? then
            t.phase.Polling? && t.event.None? && AppliedHere(t.server, Event(c)) && t.rejected == w.rejected
          else if HttpStatus(out.reply.why) == 409 && recovering then
            t.phase.Polling? && t.event.None? && Dead(t.server, Event(c)) && t.rejected == w.rejected + {Event(c)}
          else t.phase.Down? && t.event == Some(c) && t.rejected == w.rejected)
  {
    var out := RecordEvent(w.server, c, live);
    ExchangeIs(w, DoEvent(c, live), out.reply);
    var v := EventIsAnswered(w, c, recovering, live);
    hide Inv, Exchange, ServerSteps, RecordEvent, AppliedHere, Dead;
    EventIsHeard(v, c, recovering, out.reply);
  }

  /** The request is sent and handled, and the answer is on its way: it tells the truth. */
  lemma EventIsAnswered(w: World, c: EventCmd, recovering: bool, live: bool) returns (v: World)
    requires Inv(w) && w.phase == AwaitingEvent(c, recovering)
    ensures v == Step(Step(w, Send), ServerActs(DoEvent(c, live))) && v.phase == w.phase && v.event == Some(c)
    ensures v.batch == w.batch && v.rejected == w.rejected
    ensures var out := RecordEvent(w.server, c, live);
      v.server == out.server && Answer(Event(c), out.reply) in v.answers && AnswerOk(v, Answer(Event(c), out.reply))
  {
    var u := Step(w, Send);
    StepKeepsInv(w, Send);
    StepKeepsInv(u, ServerActs(DoEvent(c, live)));
    v := Step(u, ServerActs(DoEvent(c, live)));
    hide RecordEvent, ServerOk, CommandsOk, AnswerOk;
  }

  lemma EventIsHeard(v: World, c: EventCmd, recovering: bool, reply: Reply)
    requires v.phase == AwaitingEvent(c, recovering) && v.event == Some(c)
    requires Answer(Event(c), reply) in v.answers && AnswerOk(v, Answer(Event(c), reply)) && (reply.Accepted? || reply.Refused?)
    ensures var t := Step(Step(v, Hear(reply)), ClearRejected);
      && t.server == v.server && t.batch == v.batch
      && (if reply.Accepted? then
            t.phase.Polling? && t.event.None? && AppliedHere(t.server, Event(c)) && t.rejected == v.rejected
          else if HttpStatus(reply.why) == 409 && recovering then
            t.phase.Polling? && t.event.None? && Dead(t.server, Event(c)) && t.rejected == v.rejected + {Event(c)}
          else t.phase.Down? && t.event == Some(c) && t.rejected == v.rejected)
  {
    hide AppliedHere, Dead;
  }

  /**
   * A batch is settled when it is applied, or is recovered and the answer is final; a stage whose batch is too large goes on
   * without it; else the worker goes down with the journal as it was.
   */
  lemma BatchExchange(w: World, c: BatchCmd, stage: Option<Lease>, live: bool, blocker: Option<AppState>)
    requires Inv(w) && w.phase == AwaitingBatch(c, stage) && (blocker.Some? ==> IsWaiting(blocker.value))
    ensures var out := RegisterBatch(w.server, c, live, blocker);
      var t := After(w, Exchange(DoBatch(c, live, blocker), out.reply));
      && t.server == out.server && t.event == w.event
      && (if out.reply.Accepted? then
            && t.batch.None? && AppliedHere(t.server, Batch(c)) && t.rejected == w.rejected
            && (if stage.Some? then t.phase.Polling? else t.phase.RecoveringEvent?)
          else if stage.None? && IsFinalStatus(HttpStatus(out.reply.why)) then
            t.phase.RecoveringEvent? && t.batch.None? && Dead(t.server, Batch(c)) && t.rejected == w.rejected + {Batch(c)}
          else if stage.Some? && out.reply.why == TooLarge then
            t.phase == Working(stage.value) && t.batch.None? && Dead(t.server, Batch(c)) && t.rejected == w.rejected
          else t.phase.Down? && t.batch == Some(c) && t.rejected == w.rejected)
  {
    var out := RegisterBatch(w.server, c, live, blocker);
    ExchangeIs(w, DoBatch(c, live, blocker), out.reply);
    var v := BatchIsAnswered(w, c, stage, live, blocker);
    hide Inv, Exchange, ServerSteps, RegisterBatch, AppliedHere, Dead;
    BatchIsHeard(v, c, stage, out.reply);
  }

  lemma BatchIsAnswered(w: World, c: BatchCmd, stage: Option<Lease>, live: bool, blocker: Option<AppState>) returns (v: World)
    requires Inv(w) && w.phase == AwaitingBatch(c, stage) && (blocker.Some? ==> IsWaiting(blocker.value))
    ensures v == Step(Step(w, Send), ServerActs(DoBatch(c, live, blocker))) && v.phase == w.phase && v.batch == Some(c)
    ensures v.event == w.event && v.rejected == w.rejected
    ensures var out := RegisterBatch(w.server, c, live, blocker);
      v.server == out.server && Answer(Batch(c), out.reply) in v.answers && AnswerOk(v, Answer(Batch(c), out.reply))
      && (out.reply.Accepted? || out.reply.Refused?)
  {
    var u := Step(w, Send);
    StepKeepsInv(w, Send);
    StepKeepsInv(u, ServerActs(DoBatch(c, live, blocker)));
    v := Step(u, ServerActs(DoBatch(c, live, blocker)));
    assert RegisterBatch(w.server, c, live, blocker).reply != Idle;
    hide RegisterBatch, ServerOk, CommandsOk, AnswerOk;
  }

  lemma BatchIsHeard(v: World, c: BatchCmd, stage: Option<Lease>, reply: Reply)
    requires v.phase == AwaitingBatch(c, stage) && v.batch == Some(c)
    requires Answer(Batch(c), reply) in v.answers && AnswerOk(v, Answer(Batch(c), reply)) && (reply.Accepted? || reply.Refused?)
    ensures var t := Step(Step(v, Hear(reply)), ClearRejected);
      && t.server == v.server && t.event == v.event
      && (if reply.Accepted? then
            && t.batch.None? && AppliedHere(t.server, Batch(c)) && t.rejected == v.rejected
            && (if stage.Some? then t.phase.Polling? else t.phase.RecoveringEvent?)
          else if stage.None? && IsFinalStatus(HttpStatus(reply.why)) then
            t.phase.RecoveringEvent? && t.batch.None? && Dead(t.server, Batch(c)) && t.rejected == v.rejected + {Batch(c)}
          else if stage.Some? && reply.why == TooLarge then
            t.phase == Working(stage.value) && t.batch.None? && Dead(t.server, Batch(c)) && t.rejected == v.rejected
          else t.phase.Down? && t.batch == Some(c) && t.rejected == v.rejected)
  {
    hide AppliedHere, Dead;
  }

  // ----------------------------------------------------------------------------------------
  // After a crash
  // ----------------------------------------------------------------------------------------

  function Restart(rest: seq<Action>): seq<Action> {
    [Crash] + ([Start] + ([Recover] + rest))
  }

  lemma RestartIs(w: World, rest: seq<Action>)
    ensures After(w, Restart(rest)) ==
      After(w.(phase := if w.batch.Some? then AwaitingBatch(w.batch.value, None) else RecoveringEvent), rest)
  {
    Then(w, Crash, [Start] + ([Recover] + rest));
    Then(Step(w, Crash), Start, [Recover] + rest);
    Then(Step(Step(w, Crash), Start), Recover, rest);
  }

  lemma RestartKeepsInv(w: World)
    requires Inv(w)
    ensures Inv(w.(phase := if w.batch.Some? then AwaitingBatch(w.batch.value, None) else RecoveringEvent))
  {
    StepKeepsInv(w, Crash);
    StepKeepsInv(Step(w, Crash), Start);
    StepKeepsInv(Step(Step(w, Crash), Start), Recover);
    hide Inv;
  }

  /** A worker that crashes with nothing on disk, whatever it was doing, is polling again after its recovery. */
  lemma CleanRestart(w: World)
    requires Inv(w) && w.event.None? && w.batch.None?
    ensures After(w, Restart([Recover])) == w.(phase := Polling)
  {
    RestartIs(w, [Recover]);
    var u := w.(phase := RecoveringEvent);
    Then(u, Recover, []);
    assert [Recover] + [] == [Recover];
    Nothing(u.(phase := Polling));
  }

  /**
   * A worker that crashes with a checkpoint on disk recovers it in one undisturbed exchange, exactly when it is then applied or
   * answered with 409; else it is down again, with the checkpoint still on disk.
   */
  lemma EventRecovery(w: World, c: EventCmd, live: bool)
    requires Inv(w) && w.event == Some(c)
    ensures var out := RecordEvent(w.server, c, live);
      var t := After(w, Restart([Recover] + Exchange(DoEvent(c, live), out.reply)));
      && t.server == out.server && t.batch.None?
      && (if out.reply.Accepted? then t.phase.Polling? && t.event.None? && AppliedHere(t.server, Event(c))
          else if HttpStatus(out.reply.why) == 409 then
            t.phase.Polling? && t.event.None? && Dead(t.server, Event(c)) && Event(c) in t.rejected
          else t.phase.Down? && t.event == Some(c))
  {
    var out := RecordEvent(w.server, c, live);
    RestartIs(w, [Recover] + Exchange(DoEvent(c, live), out.reply));
    RestartKeepsInv(w);
    var u := w.(phase := RecoveringEvent);
    Then(u, Recover, Exchange(DoEvent(c, live), out.reply));
    StepKeepsInv(u, Recover);
    assert Step(u, Recover) == w.(phase := AwaitingEvent(c, true));
    hide Inv, Step, RecordEvent, AppliedHere, Dead, Exchange;
    EventExchange(w.(phase := AwaitingEvent(c, true)), c, true, live);
  }

  /** The same with a batch on disk, which a final answer of any kind settles. */
  lemma BatchRecovery(w: World, c: BatchCmd, live: bool, blocker: Option<AppState>)
    requires Inv(w) && w.batch == Some(c) && (blocker.Some? ==> IsWaiting(blocker.value))
    ensures var out := RegisterBatch(w.server, c, live, blocker);
      var t := After(w, Restart(Exchange(DoBatch(c, live, blocker), out.reply)));
      && t.server == out.server && t.event.None?
      && (if out.reply.Accepted? then t.phase.RecoveringEvent? && t.batch.None? && AppliedHere(t.server, Batch(c))
          else if IsFinalStatus(HttpStatus(out.reply.why)) then
            t.phase.RecoveringEvent? && t.batch.None? && Dead(t.server, Batch(c)) && Batch(c) in t.rejected
          else t.phase.Down? && t.batch == Some(c))
  {
    var out := RegisterBatch(w.server, c, live, blocker);
    RestartIs(w, Exchange(DoBatch(c, live, blocker), out.reply));
    RestartKeepsInv(w);
    var u := w.(phase := AwaitingBatch(c, None));
    assert w.event.None? by {
      hide ServerOk, CommandsOk;
    }
    hide Inv, Step, RegisterBatch, AppliedHere, Dead, Exchange;
    BatchExchange(u, c, None, live, blocker);
  }

  // ----------------------------------------------------------------------------------------
  // From a lease to a checkpoint
  // ----------------------------------------------------------------------------------------

  /** What a worker writes of a lease: for that fence and revision, and one past the last checkpoint, or the first. */
  predicate IsNext(lease: Lease, fence: int, revision: int, checkpoint: Checkpoint) {
    && fence == lease.fence && revision == lease.revision
    && (if lease.checkpoint.Some? then checkpoint.sequence == lease.checkpoint.value.sequence + 1 else checkpoint.sequence == 1)
  }

  /**
   * A polling worker that nobody disturbs: the server grants it a lease, it writes the checkpoint of its stage, sends it and
   * hears; with its own fence, revision and sequence the checkpoint is applied exactly when the move is allowed, and the row is
   * then as the checkpoint says.
   */
  lemma LeaseIsWorked(w: World, lost: bool, c: EventCmd)
    requires Inv(w) && w.phase.Polling? && Poll(w.server, lost, true).reply.Granted? && IsFresh(w, c.id) && !c.foreign
    requires IsNext(Poll(w.server, lost, true).reply.lease, c.fence, c.revision, c.checkpoint)
    ensures var granted := Poll(w.server, lost, true);
      var out := RecordEvent(granted.server, c, true);
      var t := After(w, [ServerActs(DoPoll(lost, true))] + ([TakeLease(granted.reply.lease)]
        + ([WriteEvent(c)] + Exchange(DoEvent(c, true), out.reply))));
      if Takes(granted.server, Event(c)) then
        && t.phase.Polling? && t.event.None? && t.server.applied == w.server.applied + [c.id]
        && t.server.app.state == c.state && t.server.app.revision == c.revision + 1 && t.server.app.checkpoint == Some(c.checkpoint)
      else t.phase.Down? && t.event == Some(c) && t.server == granted.server
  {
    var granted := Poll(w.server, lost, true);
    var out := RecordEvent(granted.server, c, true);
    var x := CheckpointIsWritten(w, lost, c, Exchange(DoEvent(c, true), out.reply));
    FreshIsUnapplied(w, c.id);
    GrantKeepsEvents(w.server, lost, c.id);
    AcceptedIffTaken(granted.server, c);
    hide Inv, Step, RecordEvent, AppliedHere, Dead, Exchange, Poll, Takes;
    EventExchange(x, c, false, true);
  }

  lemma GrantKeepsEvents(s: Server, lost: bool, id: int)
    requires Poll(s, lost, true).reply.Granted?
    ensures var granted := Poll(s, lost, true);
      && granted.server.events == s.events && granted.server.applied == s.applied
      && HoldsLease(granted.server.app, granted.reply.lease.fence, granted.reply.lease.revision)
  {
  }

  /** The worker takes the lease it is granted. */
  lemma LeaseIsTaken(w: World, lost: bool, rest: seq<Action>) returns (v: World)
    requires Inv(w) && w.phase.Polling? && Poll(w.server, lost, true).reply.Granted?
    ensures var granted := Poll(w.server, lost, true);
      && Inv(v) && v.phase == Working(granted.reply.lease) && v.server == granted.server && v.made == w.made
      && v.server.profile == w.server.profile
      && After(w, [ServerActs(DoPoll(lost, true))] + ([TakeLease(granted.reply.lease)] + rest)) == After(v, rest)
  {
    var lease := Poll(w.server, lost, true).reply.lease;
    Then(w, ServerActs(DoPoll(lost, true)), [TakeLease(lease)] + rest);
    var u := Step(w, ServerActs(DoPoll(lost, true)));
    StepKeepsInv(w, ServerActs(DoPoll(lost, true)));
    Then(u, TakeLease(lease), rest);
    StepKeepsInv(u, TakeLease(lease));
    v := u.(phase := Working(lease));
    hide Inv;
  }

  /** It writes its checkpoint, and waits to hear of it. */
  lemma CheckpointIsWritten(w: World, lost: bool, c: EventCmd, rest: seq<Action>) returns (x: World)
    requires Inv(w) && w.phase.Polling? && Poll(w.server, lost, true).reply.Granted? && IsFresh(w, c.id)
    requires IsNext(Poll(w.server, lost, true).reply.lease, c.fence, c.revision, c.checkpoint)
    ensures Inv(x) && x.phase == AwaitingEvent(c, false) && x.server == Poll(w.server, lost, true).server
    ensures After(w, [ServerActs(DoPoll(lost, true))] + ([TakeLease(Poll(w.server, lost, true).reply.lease)] + ([WriteEvent(c)] + rest)))
      == After(x, rest)
  {
    var v := LeaseIsTaken(w, lost, [WriteEvent(c)] + rest);
    Then(v, WriteEvent(c), rest);
    StepKeepsInv(v, WriteEvent(c));
    hide Inv, Poll;
    x := Step(v, WriteEvent(c));
  }

  lemma FreshIsUnapplied(w: World, id: int)
    requires Inv(w)
    ensures id in w.server.events ==> !IsFresh(w, id)
  {
    if id in w.server.events {
      assert RowOk(id, w.server.events[id]);
    }
  }

  lemma AcceptedIffTaken(s: Server, c: EventCmd)
    requires c.id !in s.events && !c.foreign && HoldsLease(s.app, c.fence, c.revision)
    ensures var out := RecordEvent(s, c, true);
      if Takes(s, Event(c)) then
        && out.reply.Accepted? && out.server.applied == s.applied + [c.id]
        && out.server.app.state == c.state && out.server.app.revision == c.revision + 1 && out.server.app.checkpoint == Some(c.checkpoint)
      else out.reply.Refused? && out.server == s
  {
  }

  /**
   * The same with questions: the batch is registered exactly when it names the stage of the lease and fits the profile as it is;
   * one too large leaves the worker on its stage with nothing on disk, and any other refusal stops it with the batch kept.
   */
  lemma LeaseIsAsked(w: World, lost: bool, c: BatchCmd, blocker: Option<AppState>)
    requires Inv(w) && w.phase.Polling? && Poll(w.server, lost, true).reply.Granted? && IsFresh(w, c.id) && !c.foreign
    requires IsNext(Poll(w.server, lost, true).reply.lease, c.fence, c.revision, c.checkpoint) && c.profile <= w.server.profile
    requires blocker.Some? ==> IsWaiting(blocker.value)
    ensures var granted := Poll(w.server, lost, true);
      var lease := granted.reply.lease;
      var out := RegisterBatch(granted.server, c, true, blocker);
      var t := After(w, [ServerActs(DoPoll(lost, true))] + ([TakeLease(lease)]
        + ([WriteBatch(c)] + Exchange(DoBatch(c, true, blocker), out.reply))));
      if c.oversized then t.phase == Working(lease) && t.batch.None? && t.server == granted.server
      else if IsSafe(lease.state) && c.checkpoint.stage == lease.state && c.profile == w.server.profile && c.fits then
        t.phase.Polling? && t.batch.None? && t.server.applied == w.server.applied + [c.id]
      else t.phase.Down? && t.batch == Some(c) && t.server == granted.server
  {
    var granted := Poll(w.server, lost, true);
    var out := RegisterBatch(granted.server, c, true, blocker);
    var x := BatchIsWritten(w, lost, c, Exchange(DoBatch(c, true, blocker), out.reply));
    FreshIsUnapplied(w, c.id);
    GrantKeepsEvents(w.server, lost, c.id);
    RegisteredIff(w.server, lost, c, blocker);
    hide Inv, Step, RegisterBatch, AppliedHere, Dead, Exchange, Poll;
    BatchExchange(x, c, Some(granted.reply.lease), true, blocker);
  }

  lemma RegisteredIff(s: Server, lost: bool, c: BatchCmd, blocker: Option<AppState>)
    requires Poll(s, lost, true).reply.Granted? && c.id !in s.events && !c.foreign && (blocker.Some? ==> IsWaiting(blocker.value))
    requires IsNext(Poll(s, lost, true).reply.lease, c.fence, c.revision, c.checkpoint)
    ensures var granted := Poll(s, lost, true);
      var out, lease := RegisterBatch(granted.server, c, true, blocker), granted.reply.lease;
      if c.oversized then out.reply == Refused(TooLarge) && out.server == granted.server
      else if IsSafe(lease.state) && c.checkpoint.stage == lease.state && c.profile == s.profile && c.fits then
        out.reply.Accepted? && out.server.applied == s.applied + [c.id]
      else out.reply == Refused(Conflict) && out.server == granted.server
  {
  }

  lemma BatchIsWritten(w: World, lost: bool, c: BatchCmd, rest: seq<Action>) returns (x: World)
    requires Inv(w) && w.phase.Polling? && Poll(w.server, lost, true).reply.Granted? && IsFresh(w, c.id)
    requires IsNext(Poll(w.server, lost, true).reply.lease, c.fence, c.revision, c.checkpoint) && c.profile <= w.server.profile
    ensures Inv(x) && x.phase == AwaitingBatch(c, Some(Poll(w.server, lost, true).reply.lease))
    ensures x.server == Poll(w.server, lost, true).server
    ensures After(w, [ServerActs(DoPoll(lost, true))] + ([TakeLease(Poll(w.server, lost, true).reply.lease)] + ([WriteBatch(c)] + rest)))
      == After(x, rest)
  {
    var v := LeaseIsTaken(w, lost, [WriteBatch(c)] + rest);
    Then(v, WriteBatch(c), rest);
    StepKeepsInv(v, WriteBatch(c));
    hide Inv, Poll;
    x := Step(v, WriteBatch(c));
  }

  /** An event sent from a stage without a journal reaches the server as any other; the worker goes on to poll, its disk untouched. */
  lemma UnjournaledIsSent(w: World, c: EventCmd, live: bool)
    requires w.phase.Working? && c.revision <= w.server.app.revision && IsFresh(w, c.id)
    ensures var t := After(w, [SendUnjournaled(c)] + ([ServerActs(DoEvent(c, live))] + ([Leave] + [])));
      t.phase.Polling? && t.server == RecordEvent(w.server, c, live).server && t.event == w.event && t.batch == w.batch
  {
    var u := Step(w, SendUnjournaled(c));
    var v := Step(u, ServerActs(DoEvent(c, live)));
    Then(w, SendUnjournaled(c), [ServerActs(DoEvent(c, live))] + ([Leave] + []));
    Then(u, ServerActs(DoEvent(c, live)), [Leave] + []);
    Then(v, Leave, []);
    Nothing(Step(v, Leave));
    hide RecordEvent;
  }
}
