/**
 * One worker's two journals, shared by all the applications that it serves in turn (worker/runtime.ts,
 * worker/question-client.ts): a journaled command names its application. What the worker, its disk and the control
 * server do for one application is a step of `Journals`.
 */
module SharedJournals {
  import opened Options
  import opened Control
  import opened Journals

  /** What there is of one application outside the worker and its disk. */
  datatype Site = Site(
    server: Server, grants: set<Lease>, sent: set<Command>, answers: set<Answer>, made: set<Command>, rejected: set<Command>)

  datatype Filed<T> = Filed(application: int, command: T)

  /** `at` is the application of the stage or the command that the worker is on. */
  datatype Fleet = Fleet(
    sites: map<int, Site>, event: Option<Filed<EventCmd>>, batch: Option<Filed<BatchCmd>>, phase: Phase, at: int)

  predicate IsBound(p: Phase) {
    p.AwaitingBatch? || p.AwaitingEvent? || p.RejectingBatch? || p.RejectingEvent? || p.Working?
  }

  function Local<T>(filed: Option<Filed<T>>, a: int): Option<T> {
    if filed.Some? && filed.value.application == a then Some(filed.value.command) else None
  }

  /** The world as one application sees it: while the worker is on another one, it might as well be down. */
  function View(f: Fleet, a: int): World
    requires a in f.sites
  {
    var s := f.sites[a];
    World(s.server, Local(f.event, a), Local(f.batch, a), if IsBound(f.phase) && f.at != a then Down else f.phase,
          s.grants, s.sent, s.answers, s.made, s.rejected)
  }

  /** The server acts for any application; the worker for the one it is on, or for the one it recovers. */
  predicate Concerns(f: Fleet, a: int, act: Action) {
    || act.ServerActs?
    || ((IsBound(f.phase) ==> f.at == a)
        && (act.Recover? && f.phase.RecoveringBatch? && f.batch.Some? ==> f.batch.value.application == a)
        && (act.Recover? && f.phase.RecoveringEvent? && f.event.Some? ==> f.event.value.application == a))
  }

  function Refiled<T>(a: int, command: Option<T>): Option<Filed<T>> {
    if command.Some? then Some(Filed(a, command.value)) else None
  }

  function Put(f: Fleet, a: int, u: World): Fleet
    requires a in f.sites
  {
    var w := View(f, a);
    Fleet(f.sites[a := Site(u.server, u.grants, u.sent, u.answers, u.made, u.rejected)],
          if u.event == w.event then f.event else Refiled(a, u.event),
          if u.batch == w.batch then f.batch else Refiled(a, u.batch),
          if u.phase == w.phase then f.phase else u.phase,
          if u.phase == w.phase then f.at else a)
  }

  /** One step for one application; a step that cannot happen changes nothing. */
  function FleetStep(f: Fleet, a: int, act: Action): Fleet {
    if a in f.sites && Concerns(f, a, act) then Put(f, a, Step(View(f, a), act)) else f
  }

  function FleetAfter(f: Fleet, acts: seq<(int, Action)>): Fleet
    decreases acts
  {
    if acts == [] then f else FleetAfter(FleetStep(f, acts[0].0, acts[0].1), acts[1..])
  }

  /** Never both journals are pending, and the pending one is of the application the worker is on. */
  predicate Shared(f: Fleet) {
    && !(f.event.Some? && f.batch.Some?)
    && (f.event.Some? ==> f.event.value.application in f.sites)
    && (f.batch.Some? ==> f.batch.value.application in f.sites)
    && (IsBound(f.phase) ==> f.at in f.sites)
    && match f.phase
       case Down => true
       case RecoveringBatch => true
       case RecoveringEvent => f.batch.None?
       case AwaitingBatch(c, _) => f.batch == Some(Filed(f.at, c))
       case AwaitingEvent(c, _) => f.event == Some(Filed(f.at, c))
       case RejectingBatch(c) => f.batch == Some(Filed(f.at, c))
       case RejectingEvent(c) => f.event == Some(Filed(f.at, c))
       case Polling => f.event.None? && f.batch.None?
       case Working(_) => f.event.None? && f.batch.None?
  }

  ghost predicate FleetInv(f: Fleet) {
    Shared(f) && forall a :: a in f.sites ==> Inv(View(f, a))
  }

  lemma PutIsSeen(f: Fleet, a: int, u: World)
    requires a in f.sites
    ensures View(Put(f, a, u), a) == u
  {
  }

  /** An application sees of another one's step no more than that the worker comes or goes. */
  lemma OthersSee(f: Fleet, a: int, u: World, b: int)
    requires a in f.sites && b in f.sites && a != b && Inv(View(f, b)) && Shared(Put(f, a, u))
    ensures Inv(View(Put(f, a, u), b))
  {
    hide ServerOk, CommandsOk, AnswerOk, Dead;
    var v, t := View(f, b), View(Put(f, a, u), b);
    assert t.event == v.event || t.event.None?;
    assert t.batch == v.batch || t.batch.None?;
    SameSite(v, t);
  }

  lemma SameSite(v: World, t: World)
    requires Inv(v) && JournalsOk(t) && t == v.(event := t.event, batch := t.batch, phase := t.phase)
    requires t.phase == v.phase || !t.phase.AwaitingBatch?
    ensures Inv(t)
  {
    hide ServerOk, JournalsOk, Dead, Informed, AppliedHere;
    AnswersCarryOver(v, t);
    hide AnswerOk;
  }

  lemma ServerStepIsShared(f: Fleet, a: int, act: ServerAction)
    requires Shared(f) && a in f.sites
    ensures Shared(Put(f, a, Step(View(f, a), ServerActs(act))))
  {
    hide Serve, Answers;
  }

  lemma WorkerStepIsShared(f: Fleet, a: int, act: Action)
    requires Shared(f) && a in f.sites && Concerns(f, a, act) && !act.ServerActs?
    ensures Shared(Put(f, a, Step(View(f, a), act)))
  {
    hide IsFinal, HttpStatus, NamesLease, IsFresh;
  }

  lemma FleetStepKeepsInv(f: Fleet, a: int, act: Action)
    requires FleetInv(f)
    ensures FleetInv(FleetStep(f, a, act)) && FleetStep(f, a, act).sites.Keys == f.sites.Keys
  {
    hide Inv, Shared, View, Step;
    if a in f.sites && Concerns(f, a, act) {
      var u := Step(View(f, a), act);
      StepKeepsInv(View(f, a), act);
      PutIsSeen(f, a, u);
      if act.ServerActs? {
        ServerStepIsShared(f, a, act.act);
      } else {
        WorkerStepIsShared(f, a, act);
      }
      forall b | b in f.sites
        ensures Inv(View(Put(f, a, u), b))
      {
        if b != a {
          OthersSee(f, a, u, b);
        }
      }
    }
  }

  lemma {:induction false} FleetKeepsInv(f: Fleet, acts: seq<(int, Action)>)
    requires FleetInv(f)
    ensures FleetInv(FleetAfter(f, acts)) && FleetAfter(f, acts).sites.Keys == f.sites.Keys
    decreases acts
  {
    hide FleetInv, FleetStep;
    if acts != [] {
      FleetStepKeepsInv(f, acts[0].0, acts[0].1);
      FleetKeepsInv(FleetStep(f, acts[0].0, acts[0].1), acts[1..]);
    }
  }

  ghost predicate IsInitialFleet(f: Fleet) {
    f.event.None? && f.batch.None? && f.phase.Down? && forall a :: a in f.sites ==> IsInitial(View(f, a))
  }

  /** What the journals promise of one application. */
  ghost predicate SafeAt(s: Site) {
    && NoRepeats(s.server.applied) && (forall id :: id in s.server.applied <==> id in s.server.events)
    && (forall id :: id in s.server.events ==> s.server.events[id].revision == RevisionOf(s.server.events[id].command) + 1)
    && (forall c :: c in s.rejected ==> Dead(s.server, c))
  }

  lemma InvIsSafe(f: Fleet, a: int)
    requires a in f.sites && Inv(View(f, a))
    ensures SafeAt(f.sites[a])
  {
    hide Dead;
  }

  /**
   * In every run of a worker over any applications: each event is applied at most once and one revision past the one it
   * names, what was rejected never was and never will be applied, and of all the applications at most one has one
   * command pending in one of the two journals.
   */
  lemma SharedJournalsAreSafe(f: Fleet, acts: seq<(int, Action)>)
    requires IsInitialFleet(f)
    ensures var t := FleetAfter(f, acts);
      && t.sites.Keys == f.sites.Keys && (forall a :: a in t.sites ==> SafeAt(t.sites[a]))
      && !(t.event.Some? && t.batch.Some?)
  {
    FleetKeepsInv(f, acts);
    hide FleetAfter;
    var t := FleetAfter(f, acts);
    forall a | a in t.sites
      ensures SafeAt(t.sites[a])
    {
      InvIsSafe(t, a);
    }
  }

  /** A step for one application leaves a pending checkpoint alone, or clears it with its fate settled at its own server. */
  lemma SharedEventIsResolved(f: Fleet, a: int, act: Action)
    requires FleetInv(f) && f.event.Some?
    ensures var b, c, t := f.event.value.application, Event(f.event.value.command), FleetStep(f, a, act);
      b in t.sites && (t.event == f.event || (t.event.None? && (AppliedHere(t.sites[b].server, c) || Dead(t.sites[b].server, c))))
  {
    hide Inv, AppliedHere, Dead;
    if a == f.event.value.application {
      PendingEventIsResolved(View(f, a), act);
    } else {
      EventOfAnother(f, a, act);
    }
  }

  lemma EventOfAnother(f: Fleet, a: int, act: Action)
    requires Shared(f) && f.event.Some? && a != f.event.value.application
    ensures FleetStep(f, a, act).event == f.event
  {
    hide Serve, Answers, IsFinal, HttpStatus, NamesLease, IsFresh;
  }

  /** The same for the question journal. */
  lemma SharedBatchIsResolved(f: Fleet, a: int, act: Action)
    requires FleetInv(f) && f.batch.Some?
    ensures var b, c, t := f.batch.value.application, Batch(f.batch.value.command), FleetStep(f, a, act);
      b in t.sites && (t.batch == f.batch || (t.batch.None? && (AppliedHere(t.sites[b].server, c) || Dead(t.sites[b].server, c))))
  {
    hide Inv, AppliedHere, Dead;
    if a == f.batch.value.application {
      PendingBatchIsResolved(View(f, a), act);
    } else {
      BatchOfAnother(f, a, act);
    }
  }

  lemma BatchOfAnother(f: Fleet, a: int, act: Action)
    requires Shared(f) && f.batch.Some? && a != f.batch.value.application
    ensures FleetStep(f, a, act).batch == f.batch
  {
    hide Serve, Answers, IsFinal, HttpStatus, NamesLease, IsFresh;
  }
}
