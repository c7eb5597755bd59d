/**
 * The worker's two checkpoint journals (worker/runtime.ts, worker/question-client.ts) against the control
 * server, over a network that loses, repeats, delays and reorders requests and replies, with the worker
 * crashing and restarting between any two steps.
 */
module Journals {
  import opened Options
  import opened Control

  // ----------------------------------------------------------------------------------------
  // When a refusal is for good
  // ----------------------------------------------------------------------------------------

  /** Whether the row, if its lease is live, takes the command. */
  predicate Takes(s: Server, c: Command) {
    var a := s.app;
    match c
    case Event(e) =>
      !e.foreign && HoldsLease(a, e.fence, e.revision) && CanTransition(a.state, e.state, EventEvidence(e))
      && e.checkpoint.stage == StageAfter(a, e) && e.checkpoint.sequence == NextSequence(a)
      && (Releases(e.state) ==> e.hasReason)
    case Batch(b) =>
      !b.oversized && !b.foreign && HoldsLease(a, b.fence, b.revision) && IsSafe(a.state)
      && b.checkpoint.stage == a.state && b.checkpoint.sequence == NextSequence(a)
      && b.profile == s.profile && b.fits
  }

  /** The command names facts the server has already had: no revision or profile from the future. */
  predicate Informed(s: Server, c: Command) {
    RevisionOf(c) <= s.app.revision && (c.Batch? ==> c.batch.profile <= s.profile)
  }

  /** Never applied, and not acceptable now or in any later state. */
  predicate Dead(s: Server, c: Command) {
    IdOf(c) !in s.events && Informed(s, c) && !Takes(s, c)
  }

  predicate AppliedHere(s: Server, c: Command) {
    IdOf(c) in s.events && s.events[IdOf(c)].command == c
  }

  /** The commands a server action handles. */
  predicate Delivers(act: ServerAction, c: Command) {
    (act.DoEvent? && c == Event(act.event)) || (act.DoBatch? && c == Batch(act.batch))
  }

  predicate IsFinal(why: Refusal) {
    HttpStatus(why) == 404 || HttpStatus(why) == 409 || HttpStatus(why) == 413
  }

  lemma AcceptedMeansApplied(s: Server, act: ServerAction, c: Command)
    requires ServerOk(s) && Delivers(act, c) && Serve(s, act).reply.Accepted?
    ensures AppliedHere(Serve(s, act).server, c)
  {
  }

  /** A 404, 409 or 413 answer to an informed command whose id is its own is never taken back. */
  lemma RefusedForGood(s: Server, act: ServerAction, c: Command)
    requires ServerOk(s) && Delivers(act, c) && Informed(s, c)
    requires IdOf(c) in s.events ==> s.events[IdOf(c)].command == c
    requires Serve(s, act).reply.Refused? && IsFinal(Serve(s, act).reply.why)
    ensures Dead(Serve(s, act).server, c)
  {
  }

  lemma TakesIsSettled(s: Server, t: Server, c: Command)
    requires Informed(s, c) && !Takes(s, c) && Grows(s, t)
    ensures Informed(t, c) && !Takes(t, c)
  {
  }

  /** A step applies only the command it delivers, and that only when the row takes it. */
  lemma OnlyTakenIsApplied(s: Server, act: ServerAction, c: Command)
    requires ServerOk(s) && IdOf(c) !in s.events && IdOf(c) in Serve(s, act).server.events
    ensures exists d :: Delivers(act, d) && IdOf(d) == IdOf(c) && Takes(s, d) && AppliedHere(Serve(s, act).server, d)
  {
    if act.DoEvent? {
      assert Delivers(act, Event(act.event));
    } else if act.DoBatch? {
      assert Delivers(act, Batch(act.batch));
    }
  }

  lemma DeadStaysDead(s: Server, act: ServerAction, c: Command)
    requires ServerOk(s) && Dead(s, c)
    requires forall d :: Delivers(act, d) && IdOf(d) == IdOf(c) ==> d == c
    ensures Dead(Serve(s, act).server, c)
  {
    ServeKeeps(s, act);
    TakesIsSettled(s, Serve(s, act).server, c);
    if IdOf(c) in Serve(s, act).server.events {
      OnlyTakenIsApplied(s, act, c);
    }
  }

  /** The id belongs to this command alone in everything the server is asked. */
  ghost predicate OwnsItsId(acts: seq<ServerAction>, c: Command) {
    forall i, d :: 0 <= i < |acts| && Delivers(acts[i], d) && IdOf(d) == IdOf(c) ==> d == c
  }

  /** A dead command is never applied, whatever the server is asked later. */
  lemma {:induction false} DeadForever(s: Server, acts: seq<ServerAction>, c: Command)
    requires ServerOk(s) && Dead(s, c) && OwnsItsId(acts, c)
    ensures Dead(Served(s, acts), c)
    decreases acts
  {
    if acts != [] {
      assert forall d :: Delivers(acts[0], d) && IdOf(d) == IdOf(c) ==> d == c;
      ServeKeeps(s, acts[0]);
      DeadStaysDead(s, acts[0], c);
      assert forall i, d :: 0 <= i < |acts[1..]| && Delivers(acts[1..][i], d) ==> Delivers(acts[i + 1], d);
      DeadForever(Serve(s, acts[0]).server, acts[1..], c);
    }
  }

  // ----------------------------------------------------------------------------------------
  // The worker and its disk
  // ----------------------------------------------------------------------------------------

  /**
   * Where the worker stands: restarting (recovering the question journal, then the checkpoint journal), waiting
   * for the answer to a journaled command, writing the diagnostic of a rejected one, polling, or on a stage.
   * A batch sent from a stage remembers its lease.
   */
  datatype Phase =
    | Down
    | RecoveringBatch | RecoveringEvent
    | AwaitingBatch(batch: BatchCmd, stage: Option<Lease>) | AwaitingEvent(event: EventCmd, recovering: bool)
    | RejectingBatch(rejectedBatch: BatchCmd) | RejectingEvent(rejectedEvent: EventCmd)
    | Polling | Working(lease: Lease)

  datatype Answer = Answer(command: Command, reply: Reply)

  /** The server, the two journals on disk, the worker, the network, and every command ever made. */
  datatype World = World(
    server: Server, event: Option<EventCmd>, batch: Option<BatchCmd>, phase: Phase,
    grants: set<Lease>, sent: set<Command>, answers: set<Answer>, made: set<Command>, rejected: set<Command>)

  datatype Action =
    | ServerActs(act: ServerAction)
    | Start | Crash | Recover | Send | Hear(reply: Reply) | ClearRejected
    | TakeLease(lease: Lease) | WriteEvent(event: EventCmd) | WriteBatch(batch: BatchCmd) | SendUnjournaled(event: EventCmd) | Leave

  predicate IsFresh(w: World, id: int) {
    forall c :: c in w.made ==> IdOf(c) != id
  }

  predicate NamesLease(lease: Lease, fence: int, revision: int, checkpoint: Checkpoint) {
    fence == lease.fence && revision == lease.revision
    && checkpoint.sequence == if lease.checkpoint.Some? then lease.checkpoint.value.sequence + 1 else 1
  }

  /** The server handles only requests that were sent, any number of times and at any later time. */
  predicate Arrives(w: World, act: ServerAction) {
    (act.DoEvent? ==> Event(act.event) in w.sent) && (act.DoBatch? ==> Batch(act.batch) in w.sent)
  }

  function Answers(act: ServerAction, reply: Reply): set<Answer> {
    if act.DoEvent? then {Answer(Event(act.event), reply)}
    else if act.DoBatch? && reply != Idle then {Answer(Batch(act.batch), reply)}
    else {}
  }

  function ServerSteps(w: World, act: ServerAction): World {
    var out := Serve(w.server, act);
    w.(server := out.server, answers := w.answers + Answers(act, out.reply),
       grants := w.grants + if out.reply.Granted? then {out.reply.lease} else {})
  }

  /** The answer to the checkpoint event: an acknowledgement must match, and only recovery survives a refusal. */
  function HearEvent(w: World, c: EventCmd, recovering: bool, reply: Reply): World {
    if reply.Accepted? && reply.revision == c.revision + 1 && reply.state == c.state then w.(event := None, phase := Polling)
    else if reply.Refused? && HttpStatus(reply.why) == 409 && recovering then w.(phase := RejectingEvent(c))
    else w.(phase := Down)
  }

  function HearBatch(w: World, c: BatchCmd, stage: Option<Lease>, reply: Reply): World {
    if reply.Accepted? && reply.revision == c.revision + 1 then
      w.(batch := None, phase := if stage.Some? then Polling else RecoveringEvent)
    else if reply.Refused? && stage.None? && IsFinal(reply.why) then w.(phase := RejectingBatch(c))
    else if reply.Refused? && stage.Some? && reply.why == TooLarge then w.(batch := None, phase := Working(stage.value))
    else w.(phase := Down)
  }

  /** One step; an action that cannot happen changes nothing. Every file write is one step. */
  function Step(w: World, act: Action): World {
    match act
    case ServerActs(a) => if Arrives(w, a) then ServerSteps(w, a) else w
    case Start => if w.phase.Down? then w.(phase := RecoveringBatch) else w
    case Crash => w.(phase := Down)
    case Recover =>
      if w.phase.RecoveringBatch? then
        w.(phase := if w.batch.Some? then AwaitingBatch(w.batch.value, None) else RecoveringEvent)
      else if w.phase.RecoveringEvent? then
        w.(phase := if w.event.Some? then AwaitingEvent(w.event.value, true) else Polling)
      else w
    case Send =>
      if w.phase.AwaitingBatch? then w.(sent := w.sent + {Batch(w.phase.batch)})
      else if w.phase.AwaitingEvent? then w.(sent := w.sent + {Event(w.phase.event)})
      else w
    case Hear(reply) =>
      if w.phase.AwaitingBatch? && Answer(Batch(w.phase.batch), reply) in w.answers then
        HearBatch(w, w.phase.batch, w.phase.stage, reply)
      else if w.phase.AwaitingEvent? && Answer(Event(w.phase.event), reply) in w.answers then
        HearEvent(w, w.phase.event, w.phase.recovering, reply)
      else w
    case ClearRejected =>
      if w.phase.RejectingBatch? then
        w.(rejected := w.rejected + {Batch(w.phase.rejectedBatch)}, batch := None, phase := RecoveringEvent)
      else if w.phase.RejectingEvent? then
        w.(rejected := w.rejected + {Event(w.phase.rejectedEvent)}, event := None, phase := Polling)
      else w
    case TakeLease(lease) =>
      if w.phase.Polling? && lease in w.grants then w.(phase := Working(lease)) else w
    case WriteEvent(c) =>
      if w.phase.Working? && NamesLease(w.phase.lease, c.fence, c.revision, c.checkpoint) && IsFresh(w, c.id) then
        w.(event := Some(c), made := w.made + {Event(c)}, phase := AwaitingEvent(c, false))
      else w
    case WriteBatch(c) =>
      if w.phase.Working? && NamesLease(w.phase.lease, c.fence, c.revision, c.checkpoint) && IsFresh(w, c.id)
         && c.profile <= w.server.profile then
        w.(batch := Some(c), made := w.made + {Batch(c)}, phase := AwaitingBatch(c, Some(w.phase.lease)))
      else w
    case SendUnjournaled(c) =>
      if w.phase.Working? && c.revision <= w.server.app.revision && IsFresh(w, c.id) then
        w.(sent := w.sent + {Event(c)}, made := w.made + {Event(c)})
      else w
    case Leave => if w.phase.Working? then w.(phase := Polling) else w
  }

  function After(w: World, acts: seq<Action>): World
    decreases acts
  {
    if acts == [] then w else After(Step(w, acts[0]), acts[1..])
  }

  // ----------------------------------------------------------------------------------------
  // The journals are safe in every run
  // ----------------------------------------------------------------------------------------

  /** An answer tells the truth, and goes on telling it. */
  predicate AnswerOk(w: World, a: Answer) {
    && a.command in w.made
    && (a.reply.Accepted? ==> AppliedHere(w.server, a.command) && a.reply.revision == RevisionOf(a.command) + 1
                              && (a.command.Event? ==> a.reply.state == a.command.event.state))
    && (a.reply.Refused? && IsFinal(a.reply.why) ==> Dead(w.server, a.command))
  }

  predicate CommandsOk(w: World) {
    && (forall c, d :: c in w.made && d in w.made && IdOf(c) == IdOf(d) ==> c == d)
    && (forall c :: c in w.made ==> Informed(w.server, c))
    && w.sent <= w.made
    && (forall id :: id in w.server.events ==> w.server.events[id].command in w.made)
  }

  /** A pending journal is the one the worker waits on, and never both are pending. */
  predicate JournalsOk(w: World) {
    && (w.event.Some? ==> Event(w.event.value) in w.made)
    && (w.batch.Some? ==> Batch(w.batch.value) in w.made)
    && !(w.event.Some? && w.batch.Some?)
    && match w.phase
       case Down => true
       case RecoveringBatch => true
       case RecoveringEvent => w.batch.None?
       case AwaitingBatch(c, _) => w.batch == Some(c)
       case AwaitingEvent(c, _) => w.event == Some(c)
       case RejectingBatch(c) => w.batch == Some(c) && Dead(w.server, Batch(c))
       case RejectingEvent(c) => w.event == Some(c) && Dead(w.server, Event(c))
       case Polling => w.event.None? && w.batch.None?
       case Working(lease) => w.event.None? && w.batch.None? && lease in w.grants
  }

  ghost predicate Inv(w: World) {
    && ServerOk(w.server) && CommandsOk(w) && JournalsOk(w)
    && (forall lease :: lease in w.grants ==> lease.revision <= w.server.app.revision)
    && (w.phase.AwaitingBatch? && w.phase.stage.Some? ==> w.phase.stage.value in w.grants)
    && (forall a :: a in w.answers ==> AnswerOk(w, a))
    && (forall c :: c in w.rejected ==> c in w.made && Dead(w.server, c))
  }

  /** Facts about a command outlive any server step. */
  lemma FactsStay(w: World, act: ServerAction, c: Command)
    requires Inv(w) && Arrives(w, act) && c in w.made
    ensures var t := Serve(w.server, act).server;
      && Informed(t, c)
      && (AppliedHere(w.server, c) ==> AppliedHere(t, c))
      && (Dead(w.server, c) ==> Dead(t, c))
  {
    ServeKeeps(w.server, act);
    if Dead(w.server, c) {
      DeadStaysDead(w.server, act, c);
    }
  }

  lemma NewAnswerIsOk(w: World, act: ServerAction, a: Answer)
    requires Inv(w) && Arrives(w, act) && a in Answers(act, Serve(w.server, act).reply)
    ensures AnswerOk(ServerSteps(w, act), a)
  {
    var c := a.command;
    assert Delivers(act, c) && c in w.made;
    if a.reply.Accepted? {
      AcceptedMeansApplied(w.server, act, c);
    }
    if a.reply.Refused? && IsFinal(a.reply.why) {
      RefusedForGood(w.server, act, c);
    }
  }

  lemma AnswerStays(w: World, act: ServerAction, a: Answer)
    requires Inv(w) && Arrives(w, act) && a in w.answers
    ensures AnswerOk(ServerSteps(w, act), a)
  {
    assert AnswerOk(w, a);
    FactsStay(w, act, a.command);
    hide Inv, AppliedHere, Dead, Serve, Answers;
  }

  lemma GrantIsCurrent(s: Server, act: ServerAction)
    ensures Serve(s, act).reply.Granted? ==> Serve(s, act).reply.lease.revision == Serve(s, act).server.app.revision
  {
  }

  lemma JournalsStay(w: World, act: ServerAction)
    requires Inv(w) && Arrives(w, act)
    ensures JournalsOk(ServerSteps(w, act))
  {
    hide Serve, ServerOk, CommandsOk, AnswerOk, Dead, Answers;
    match w.phase
    case RejectingBatch(c) => FactsStay(w, act, Batch(c));
    case RejectingEvent(c) => FactsStay(w, act, Event(c));
    case _ =>
  }

  lemma CommandsStay(w: World, act: ServerAction)
    requires Inv(w) && Arrives(w, act)
    ensures CommandsOk(ServerSteps(w, act))
  {
    hide Serve, ServerOk, JournalsOk, AnswerOk, Dead, Answers, Informed, AppliedHere;
    var t := ServerSteps(w, act);
    forall c | c in w.made
      ensures Informed(t.server, c)
    {
      FactsStay(w, act, c);
    }
    ServeKeeps(w.server, act);
    forall id | id in t.server.events
      ensures t.server.events[id].command in t.made
    {
      if id !in w.server.events {
        NewRowWasSent(w, act, id);
      }
    }
  }

  lemma ServerStepKeepsInv(w: World, act: ServerAction)
    requires Inv(w) && Arrives(w, act)
    ensures Inv(ServerSteps(w, act))
  {
    hide Serve, ServerOk, CommandsOk, JournalsOk, AnswerOk, Dead, Informed, AppliedHere;
    var t := ServerSteps(w, act);
    ServeKeeps(w.server, act);
    GrantIsCurrent(w.server, act);
    CommandsStay(w, act);
    JournalsStay(w, act);
    forall c | c in w.rejected
      ensures Dead(t.server, c)
    {
      FactsStay(w, act, c);
    }
    forall a | a in t.answers
      ensures AnswerOk(t, a)
    {
      if a in Answers(act, Serve(w.server, act).reply) {
        NewAnswerIsOk(w, act, a);
      } else {
        AnswerStays(w, act, a);
      }
    }
  }

  lemma NewRowWasSent(w: World, act: ServerAction, id: int)
    requires Inv(w) && Arrives(w, act) && id !in w.server.events && id in Serve(w.server, act).server.events
    ensures Serve(w.server, act).server.events[id].command in w.made
  {
  }

  lemma StepKeepsInv(w: World, act: Action)
    requires Inv(w)
    ensures Inv(Step(w, act))
  {
    hide Inv, ServerSteps;
    if act.ServerActs? && Arrives(w, act.act) {
      ServerStepKeepsInv(w, act.act);
    } else {
      WorkerStepKeepsInv(w, act);
    }
  }

  lemma WorkerStepKeepsInv(w: World, act: Action)
    requires Inv(w) && (act.ServerActs? ==> !Arrives(w, act.act))
    ensures Inv(Step(w, act))
  {
    match act
    case Hear(reply) => HearKeepsInv(w, reply);
    case WriteEvent(c) => MakingKeepsInv(w, act, Event(c));
    case WriteBatch(c) => MakingKeepsInv(w, act, Batch(c));
    case SendUnjournaled(c) => MakingKeepsInv(w, act, Event(c));
    case _ => QuietStepKeepsInv(w, act);
  }

  /** Steps that make no command and hear no answer. */
  lemma QuietStepKeepsInv(w: World, act: Action)
    requires Inv(w) && (act.ServerActs? ==> !Arrives(w, act.act))
    requires !act.Hear? && !act.WriteEvent? && !act.WriteBatch? && !act.SendUnjournaled?
    ensures Inv(Step(w, act))
  {
    hide ServerOk, Dead, Informed;
    var t := Step(w, act);
    assert t.server == w.server && t.made == w.made && t.answers == w.answers && t.grants == w.grants;
    AnswersCarryOver(w, t);
    hide AnswerOk;
  }

  /** Answers stay true while the server and the commands stay. */
  lemma AnswersCarryOver(w: World, t: World)
    requires (forall a :: a in w.answers ==> AnswerOk(w, a)) && t.server == w.server && w.made <= t.made && t.answers == w.answers
    ensures forall a :: a in t.answers ==> AnswerOk(t, a)
  {
    hide Dead, AppliedHere;
    forall a | a in t.answers
      ensures AnswerOk(t, a)
    {
      assert AnswerOk(w, a);
    }
  }

  lemma HearKeepsInv(w: World, reply: Reply)
    requires Inv(w)
    ensures Inv(Step(w, Hear(reply)))
  {
    hide ServerOk, Informed, Takes, AppliedHere;
    var t := Step(w, Hear(reply));
    assert t.server == w.server && t.made == w.made && t.answers == w.answers && t.grants == w.grants;
    assert t.rejected == w.rejected && t.sent == w.sent;
    AnswersCarryOver(w, t);
    if w.phase.AwaitingEvent? && Answer(Event(w.phase.event), reply) in w.answers {
      HeardEvent(w, w.phase.event, w.phase.recovering, reply);
    } else if w.phase.AwaitingBatch? && Answer(Batch(w.phase.batch), reply) in w.answers {
      HeardBatch(w, w.phase.batch, w.phase.stage, reply);
    }
    hide AnswerOk, HearEvent, HearBatch, JournalsOk, Dead;
  }

  lemma HeardEvent(w: World, c: EventCmd, recovering: bool, reply: Reply)
    requires JournalsOk(w) && w.phase == AwaitingEvent(c, recovering) && AnswerOk(w, Answer(Event(c), reply))
    ensures var t := HearEvent(w, c, recovering, reply); JournalsOk(t) && !t.phase.AwaitingBatch?
  {
    hide Dead, AppliedHere;
  }

  lemma HeardBatch(w: World, c: BatchCmd, stage: Option<Lease>, reply: Reply)
    requires JournalsOk(w) && w.phase == AwaitingBatch(c, stage) && AnswerOk(w, Answer(Batch(c), reply))
    requires stage.Some? ==> stage.value in w.grants
    ensures var t := HearBatch(w, c, stage, reply); JournalsOk(t) && !t.phase.AwaitingBatch?
  {
    hide Dead, AppliedHere;
  }

  /** A new command, from a lease the server granted, with an id of its own. */
  lemma MakingKeepsInv(w: World, act: Action, c: Command)
    requires Inv(w)
    requires (c.Event? && (act == SendUnjournaled(c.event) || act == WriteEvent(c.event))) || (c.Batch? && act == WriteBatch(c.batch))
    ensures Inv(Step(w, act))
  {
    var t := Step(w, act);
    assert t.server == w.server && t.answers == w.answers && t.grants == w.grants && t.rejected == w.rejected;
    forall a | a in t.answers
      ensures AnswerOk(t, a)
    {
      assert AnswerOk(w, a);
    }
    if t != w {
      assert t.made == w.made + {c};
      assert Informed(w.server, c);
      assert CommandsOk(t);
    }
  }

  /**
   * A pending checkpoint is never overwritten: a step leaves it as it is or clears it, and it clears it only
   * when the server applied it, or will not apply it in any later state.
   */
  lemma PendingEventIsResolved(w: World, act: Action)
    requires Inv(w) && w.event.Some?
    ensures var c, t := Event(w.event.value), Step(w, act);
      t.event == w.event || (t.event.None? && (AppliedHere(t.server, c) || Dead(t.server, c)))
  {
    if act.Hear? && w.phase.AwaitingEvent? && Answer(Event(w.phase.event), act.reply) in w.answers {
      assert AnswerOk(w, Answer(Event(w.phase.event), act.reply));
    }
  }

  /** The same for the question journal; an oversized batch is one the server can never take. */
  lemma PendingBatchIsResolved(w: World, act: Action)
    requires Inv(w) && w.batch.Some?
    ensures var c, t := Batch(w.batch.value), Step(w, act);
      t.batch == w.batch || (t.batch.None? && (AppliedHere(t.server, c) || Dead(t.server, c)))
  {
    if act.Hear? && w.phase.AwaitingBatch? && Answer(Batch(w.phase.batch), act.reply) in w.answers {
      assert AnswerOk(w, Answer(Batch(w.phase.batch), act.reply));
    }
  }

  /** A worker that starts with nothing on disk, for an application whose row is consistent. */
  predicate IsInitial(w: World) {
    && w.server.events == map[] && w.server.applied == []
    && (w.server.intent.Some? ==> IsAmbiguous(w.server.app.state) || w.server.app.state.Submitted? || w.server.app.state.Failed?)
    && (IsAmbiguous(w.server.app.state) ==> w.server.intent.Some?) && w.server.receipt.None?
    && w.event.None? && w.batch.None? && w.phase.Down?
    && w.grants == {} && w.sent == {} && w.answers == {} && w.made == {} && w.rejected == {}
  }

  lemma {:induction false} RunKeepsInv(w: World, acts: seq<Action>)
    requires Inv(w)
    ensures Inv(After(w, acts))
    decreases acts
  {
    if acts != [] {
      StepKeepsInv(w, acts[0]);
      RunKeepsInv(Step(w, acts[0]), acts[1..]);
    }
  }

  /**
   * In every run: an event is applied at most once, at the revision it names; the two journals are never
   * both pending; and whatever was rejected was never applied and never will be.
   */
  lemma JournalsAreSafe(w: World, acts: seq<Action>)
    requires IsInitial(w)
    ensures var t := After(w, acts);
      && NoRepeats(t.server.applied) && (forall id :: id in t.server.applied <==> id in t.server.events)
      && (forall id :: id in t.server.events ==> t.server.events[id].revision == RevisionOf(t.server.events[id].command) + 1)
      && !(t.event.Some? && t.batch.Some?)
      && (forall c :: c in t.rejected ==> Dead(t.server, c))
  {
    RunKeepsInv(w, acts);
  }

  /** An acknowledgement the worker hears always matches its request, so the check on it never stops the worker. */
  lemma AcknowledgementsMatch(w: World, reply: Reply)
    requires Inv(w) && reply.Accepted?
    ensures w.phase.AwaitingEvent? && Answer(Event(w.phase.event), reply) in w.answers ==>
              Step(w, Hear(reply)).event.None? && Step(w, Hear(reply)).phase.Polling?
    ensures w.phase.AwaitingBatch? && Answer(Batch(w.phase.batch), reply) in w.answers ==>
              Step(w, Hear(reply)).batch.None? && !Step(w, Hear(reply)).phase.Down?
  {
    if w.phase.AwaitingEvent? && Answer(Event(w.phase.event), reply) in w.answers {
      assert AnswerOk(w, Answer(Event(w.phase.event), reply));
    }
    if w.phase.AwaitingBatch? && Answer(Batch(w.phase.batch), reply) in w.answers {
      assert AnswerOk(w, Answer(Batch(w.phase.batch), reply));
    }
  }
}
