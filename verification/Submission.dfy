/**
 * Submitting one application (worker/application-runner.ts, worker/main.ts, worker/runtime.ts): stage threads,
 * each started by one granted lease, against the control server over a network that loses, repeats, delays and
 * reorders requests and replies. Threads crash, give up and outlive their leases at any point, and the server
 * may handle any other command in between. Submitting to the employer cannot be undone.
 */
module Submission {
  import opened Options
  import opened Control

  datatype Result = ReportedSubmitted(receipt: ReceiptCmd) | ReportedUnknown | NotSubmitted

  /**
   * A stage on a ready application: screening and filling; waiting for the answer to its intent; permitted to
   * submit; after the submit; waiting for the answer to its receipt; keeping a receipt the server did not take.
   */
  datatype Phase =
    | Preparing
    | Beginning(intent: IntentCmd)
    | Permitted(intent: IntentCmd)
    | Pressed(intent: IntentCmd)
    | Persisting(intent: IntentCmd, receipt: ReceiptCmd)
    | Keeping(intent: IntentCmd, receipt: ReceiptCmd)
    | Done(result: Result)

  datatype Thread = Thread(lease: Lease, phase: Phase)

  datatype IntentAnswer = IntentAnswer(intent: IntentCmd, reply: Reply)
  datatype ReceiptAnswer = ReceiptAnswer(receipt: ReceiptCmd, reply: Reply)
  datatype Dropped = Dropped(receipt: ReceiptCmd, why: Refusal)

  /**
   * `threads` and `intents` go by the fence of the lease; `submits` lists the fences of the threads that pressed
   * submit, `confirmations` the receipts read off the employer's page, `posted` those sent to the server; `kept`
   * is the receipt on the worker's disk and `reconciling` the one a reconcile lease is sending.
   */
  datatype World = World(
    server: Server, grants: set<Lease>, threads: map<int, Thread>,
    intents: map<int, IntentCmd>, intentAnswers: set<IntentAnswer>,
    submits: seq<int>, confirmations: set<ReceiptCmd>, posted: set<ReceiptCmd>, receiptAnswers: set<ReceiptAnswer>,
    kept: Option<ReceiptCmd>, reconciling: Option<ReceiptCmd>, dropped: set<Dropped>)

  datatype Action =
    | ServerActs(act: ServerAction)
    | Begin(lease: Lease) | SendIntent(f: int, intentId: int, role: int, manifest: int) | HearIntent(f: int, reply: Reply)
    | Press(f: int) | Confirm(f: int, role: int, receiptId: int, submittedAt: int) | HearReceipt(f: int, reply: Reply)
    | Keep(f: int) | GiveUp(f: int) | Crash(f: int)
    | Reconcile(lease: Lease) | HearReconcile(reply: Reply) | ReconcileFails(crashed: bool)

  predicate Arrives(w: World, act: ServerAction) {
    && (act.DoIntent? ==> act.intent.fence in w.intents && w.intents[act.intent.fence] == act.intent)
    && (act.DoReceipt? ==> act.receipt in w.posted)
  }

  function ServerSteps(w: World, act: ServerAction): World {
    var out := Serve(w.server, act);
    w.(server := out.server,
       grants := w.grants + (if out.reply.Granted? then {out.reply.lease} else {}),
       intentAnswers := w.intentAnswers + (if act.DoIntent? then {IntentAnswer(act.intent, out.reply)} else {}),
       receiptAnswers := w.receiptAnswers + (if act.DoReceipt? then {ReceiptAnswer(act.receipt, out.reply)} else {}))
  }


  function Moved(w: World, f: int, phase: Phase): World
    requires f in w.threads
  {
    w.(threads := w.threads[f := w.threads[f].(phase := phase)])
  }

  /** Refused for good, in the worker's eyes: dropped from its disk. */
  predicate DropsOn(reply: Reply) {
    reply.Refused? && (HttpStatus(reply.why) == 400 || (HttpStatus(reply.why) == 409 && reply.why != LeaseLost))
  }

  /** A failure at any await: what the stage then reports, or tries next. */
  function GivenUp(phase: Phase): Phase {
    match phase
    case Preparing => Done(NotSubmitted)
    case Beginning(_) => Done(ReportedUnknown)
    case Permitted(_) => Done(ReportedUnknown)
    case Pressed(_) => Done(ReportedUnknown)
    case Persisting(c, r) => Keeping(c, r)
    case Keeping(_, _) => Done(ReportedUnknown)
    case Done(result) => Done(result)
  }

  function ThreadActs(w: World, f: int, act: Action): World
    requires f in w.threads
  {
    var th := w.threads[f];
    match act
    case SendIntent(_, intentId, role, manifest) =>
      if !th.phase.Preparing? then w
      else
        var c := IntentCmd(intentId, th.lease.fence, th.lease.revision, role, manifest);
        Moved(w, f, Beginning(c)).(intents := w.intents[f := c])
    case HearIntent(_, reply) =>
      if !th.phase.Beginning? || IntentAnswer(th.phase.intent, reply) !in w.intentAnswers then w
      else Moved(w, f, if reply.Accepted? then Permitted(th.phase.intent) else Done(ReportedUnknown))
    case Press(_) =>
      if !th.phase.Permitted? then w
      else Moved(w, f, Pressed(th.phase.intent)).(submits := w.submits + [f])
    case Confirm(_, role, receiptId, submittedAt) =>
      if !th.phase.Pressed? then w
      else
        var r := ReceiptCmd(th.phase.intent.intentId, role, receiptId, submittedAt);
        Moved(w, f, Persisting(th.phase.intent, r)).(confirmations := w.confirmations + {r}, posted := w.posted + {r})
    case HearReceipt(_, reply) =>
      if !th.phase.Persisting? || ReceiptAnswer(th.phase.receipt, reply) !in w.receiptAnswers then w
      else Moved(w, f, if reply.Accepted? then Done(ReportedSubmitted(th.phase.receipt)) else Keeping(th.phase.intent, th.phase.receipt))
    case Keep(_) =>
      if !th.phase.Keeping? then w else Moved(w, f, Done(ReportedUnknown)).(kept := Some(th.phase.receipt))
    case GiveUp(_) => Moved(w, f, GivenUp(th.phase))
    case Crash(_) => w.(threads := w.threads - {f})
    case _ => w
  }

  /** One step; an action that cannot happen changes nothing. A granted lease starts at most one thread. */
  function Step(w: World, act: Action): World {
    match act
    case ServerActs(a) => if Arrives(w, a) then ServerSteps(w, a) else w
    case Begin(lease) =>
      if lease !in w.grants || !lease.state.Ready? then w
      else w.(grants := w.grants - {lease}, threads := w.threads[lease.fence := Thread(lease, Preparing)])
    case Reconcile(lease) =>
      if lease !in w.grants || !IsAmbiguous(lease.state) || w.kept.None? || w.reconciling.Some? then w
      else w.(grants := w.grants - {lease}, reconciling := w.kept, posted := w.posted + {w.kept.value})
    case HearReconcile(reply) =>
      if w.reconciling.None? || ReceiptAnswer(w.reconciling.value, reply) !in w.receiptAnswers then w
      else if reply.Accepted? then w.(kept := None, reconciling := None)
      else if DropsOn(reply) then
        w.(kept := None, reconciling := None, dropped := w.dropped + {Dropped(w.reconciling.value, reply.why)})
      else w.(kept := w.reconciling, reconciling := None)
    case ReconcileFails(crashed) =>
      w.(kept := if crashed || w.reconciling.None? then w.kept else w.reconciling, reconciling := None)
    case SendIntent(f, _, _, _) => if f in w.threads then ThreadActs(w, f, act) else w
    case HearIntent(f, _) => if f in w.threads then ThreadActs(w, f, act) else w
    case Press(f) => if f in w.threads then ThreadActs(w, f, act) else w
    case Confirm(f, _, _, _) => if f in w.threads then ThreadActs(w, f, act) else w
    case HearReceipt(f, _) => if f in w.threads then ThreadActs(w, f, act) else w
    case Keep(f) => if f in w.threads then ThreadActs(w, f, act) else w
    case GiveUp(f) => if f in w.threads then ThreadActs(w, f, act) else w
    case Crash(f) => if f in w.threads then ThreadActs(w, f, act) else w
  }

  function After(w: World, acts: seq<Action>): World
    decreases acts
  {
    if acts == [] then w else After(Step(w, acts[0]), acts[1..])
  }

  // ----------------------------------------------------------------------------------------
  // When a receipt can still be accepted
  // ----------------------------------------------------------------------------------------

  predicate CanStillBeAccepted(s: Server, r: ReceiptCmd) {
    MatchesIntent(s, r) &&
    if s.receipt.Some? then s.receipt.value.receiptId == r.receiptId && s.receipt.value.submittedAt == r.submittedAt
    else IsAmbiguous(s.app.state)
  }

  lemma HopelessStays(s: Server, act: ServerAction, r: ReceiptCmd)
    requires ServerOk(s) && s.intent.Some? && !CanStillBeAccepted(s, r)
    ensures !CanStillBeAccepted(Serve(s, act).server, r)
  {
    ServeKeeps(s, act);
  }

  lemma {:induction false} HopelessForever(s: Server, acts: seq<ServerAction>, r: ReceiptCmd)
    requires ServerOk(s) && s.intent.Some? && !CanStillBeAccepted(s, r)
    ensures !CanStillBeAccepted(Served(s, acts), r) && ServerOk(Served(s, acts))
    decreases acts
  {
    if acts != [] {
      ServeKeeps(s, acts[0]);
      HopelessStays(s, acts[0], r);
      HopelessForever(Serve(s, acts[0]).server, acts[1..], r);
    }
  }

  ghost predicate SomeFutureAccepts(s: Server, r: ReceiptCmd) {
    exists acts, now, live :: RecordReceipt(Served(s, acts), r, now, live).reply.Accepted?
  }

  /** Some later state of the server takes the receipt exactly when the row and the intent allow it now. */
  lemma AcceptableIff(s: Server, r: ReceiptCmd)
    requires ServerOk(s) && s.intent.Some?
    ensures SomeFutureAccepts(s, r) <==> CanStillBeAccepted(s, r)
  {
    if CanStillBeAccepted(s, r) {
      if s.receipt.Some? {
        assert Served(s, []) == s;
        assert RecordReceipt(Served(s, []), r, 0, true).reply.Accepted?;
      } else {
        var claim := DoPoll(true, true);
        var t := Serve(s, claim).server;
        assert Served(s, [claim]) == t by {
          assert [claim][1..] == [];
        }
        assert RecordReceipt(Served(s, [claim]), r, r.submittedAt, true).reply.Accepted?;
      }
    }
    if SomeFutureAccepts(s, r) {
      var acts, now, live :| RecordReceipt(Served(s, acts), r, now, live).reply.Accepted?;
      if !CanStillBeAccepted(s, r) {
        HopelessForever(s, acts, r);
      }
    }
  }

  /** Which refusals of a receipt leave it acceptable: a lost lease, or a date in the future of an open submission. */
  lemma RefusalMeans(s: Server, r: ReceiptCmd, now: int, live: bool)
    requires ServerOk(s) && s.intent.Some? && RecordReceipt(s, r, now, live).reply.Refused?
    ensures var why := RecordReceipt(s, r, now, live).reply.why;
      CanStillBeAccepted(s, r) <==> why == LeaseLost || (why == InvalidReceipt && IsAmbiguous(s.app.state))
  {
  }

  // ----------------------------------------------------------------------------------------
  // Safety in every run
  // ----------------------------------------------------------------------------------------

  predicate GrantOk(w: World, lease: Lease) {
    lease.fence <= w.server.app.fence && lease.fence !in w.threads && lease.fence !in w.intents
  }

  /** The intent is on file, it is the one this thread sent, and nobody else has submitted. */
  predicate Submits(w: World, f: int, c: IntentCmd) {
    w.server.intent == Some(c) && f in w.intents && w.intents[f] == c && w.submits == [f]
  }

  predicate ThreadOk(w: World, f: int, th: Thread) {
    th.lease.fence == f && f <= w.server.app.fence &&
    match th.phase
    case Preparing => f !in w.intents && f !in w.submits
    case Beginning(c) => f in w.intents && w.intents[f] == c && f !in w.submits
    case Permitted(c) => f in w.intents && w.intents[f] == c && f !in w.submits && w.server.intent == Some(c)
    case Pressed(c) => Submits(w, f, c) && w.confirmations == {}
    case Persisting(c, r) => Submits(w, f, c) && w.confirmations == {r} == w.posted
    case Keeping(c, r) => Submits(w, f, c) && w.confirmations == {r} == w.posted
    case Done(ReportedSubmitted(r)) => f in w.intents && w.submits == [f] && w.confirmations == {r} && w.server.receipt == Some(r)
    case Done(ReportedUnknown) => f in w.intents
    case Done(NotSubmitted) => f !in w.intents && f !in w.submits
  }

  predicate IntentsOk(w: World) {
    && (forall f :: f in w.intents ==> w.intents[f].fence == f && f <= w.server.app.fence)
    && (w.server.intent.Some? ==> w.server.intent.value.fence in w.intents
                                  && w.intents[w.server.intent.value.fence] == w.server.intent.value)
    && (forall a :: a in w.intentAnswers && a.reply.Accepted? ==> w.server.intent == Some(a.intent))
  }

  predicate SubmitsOk(w: World) {
    && |w.submits| <= 1
    && (w.submits != [] ==> w.server.intent.Some? && w.server.intent.value.fence == w.submits[0])
  }

  predicate ReceiptAnswerOk(w: World, a: ReceiptAnswer) {
    && a.receipt in w.posted
    && (a.reply.Accepted? ==> w.server.receipt == Some(a.receipt))
    && (DropsOn(a.reply) && a.reply.why != InvalidReceipt ==> !CanStillBeAccepted(w.server, a.receipt))
    && (a.reply.Accepted? || DropsOn(a.reply) || a.reply == Refused(LeaseLost))
  }

  predicate ReceiptsOk(w: World) {
    && (forall r, q :: r in w.confirmations && q in w.confirmations ==> r == q) && w.posted <= w.confirmations
    && (w.confirmations != {} ==> w.submits != [])
    && (forall r :: r in w.confirmations ==> w.server.intent.Some? && r.intentId == w.server.intent.value.intentId)
    && (w.server.receipt.Some? ==> w.server.receipt.value in w.posted)
    && (w.kept.Some? ==> w.kept.value in w.posted) && (w.reconciling.Some? ==> w.reconciling.value in w.posted)
    && (forall d :: d in w.dropped ==> d.receipt in w.posted && (d.why != InvalidReceipt ==> !CanStillBeAccepted(w.server, d.receipt)))
  }

  ghost predicate Inv(w: World) {
    && ServerOk(w.server) && IntentsOk(w) && SubmitsOk(w) && ReceiptsOk(w)
    && (forall lease :: lease in w.grants ==> GrantOk(w, lease))
    && (forall l, m :: l in w.grants && m in w.grants && l.fence == m.fence ==> l == m)
    && (forall f :: f in w.threads ==> ThreadOk(w, f, w.threads[f]))
    && (forall a :: a in w.receiptAnswers ==> ReceiptAnswerOk(w, a))
  }

  /** What a server step can add: an intent or a receipt that it was asked to record. */
  lemma NewFactsWereAsked(s: Server, act: ServerAction)
    requires ServerOk(s)
    ensures var t := Serve(s, act).server;
      && (t.intent == s.intent || (act.DoIntent? && t.intent == Some(act.intent)))
      && (t.receipt == s.receipt || (act.DoReceipt? && t.receipt == Some(act.receipt)))
      && (Serve(s, act).reply.Granted? ==> Serve(s, act).reply.lease.fence == t.app.fence > s.app.fence)
      && (Serve(s, act).reply.Accepted? && act.DoIntent? ==> t.intent == Some(act.intent))
      && (Serve(s, act).reply.Accepted? && act.DoReceipt? ==> t.receipt == Some(act.receipt))
  {
  }

  lemma ServerKeepsAnswer(w: World, act: ServerAction, a: ReceiptAnswer)
    requires Inv(w) && Arrives(w, act) && a in ServerSteps(w, act).receiptAnswers
    ensures ReceiptAnswerOk(ServerSteps(w, act), a)
  {
    ServeKeeps(w.server, act);
    NewFactsWereAsked(w.server, act);
    if a in w.receiptAnswers {
      assert ReceiptAnswerOk(w, a);
      if !CanStillBeAccepted(w.server, a.receipt) {
        HopelessStays(w.server, act, a.receipt);
      }
    } else {
      if a.reply.Refused? {
        RefusalMeans(w.server, act.receipt, act.now, act.live);
      }
    }
  }

  /** `t` is `w` with the server grown by facts it was asked to record, and new grants. */
  predicate GrownBy(w: World, t: World) {
    && t.threads == w.threads && t.intents == w.intents && t.submits == w.submits
    && t.confirmations == w.confirmations && t.posted == w.posted
    && t.kept == w.kept && t.reconciling == w.reconciling && t.dropped == w.dropped
    && w.server.app.fence <= t.server.app.fence
    && (w.server.intent.Some? ==> t.server.intent == w.server.intent)
    && (w.server.receipt.Some? ==> t.server.receipt == w.server.receipt)
    && (t.server.receipt.Some? ==> t.server.receipt.value in w.posted)
    && (t.server.intent.Some? ==> t.server.intent.value.fence in w.intents
                                  && w.intents[t.server.intent.value.fence] == t.server.intent.value)
  }

  lemma GrowthKeepsThread(w: World, t: World, f: int)
    requires f in w.threads && ThreadOk(w, f, w.threads[f]) && GrownBy(w, t)
    ensures ThreadOk(t, f, t.threads[f])
  {
  }

  lemma GrowthKeepsReceipts(w: World, t: World)
    requires ReceiptsOk(w) && GrownBy(w, t)
    requires forall d :: d in w.dropped && !CanStillBeAccepted(w.server, d.receipt) ==> !CanStillBeAccepted(t.server, d.receipt)
    ensures ReceiptsOk(t)
  {
  }

  lemma ServerStepGrows(w: World, act: ServerAction)
    requires Inv(w) && Arrives(w, act)
    ensures GrownBy(w, ServerSteps(w, act))
  {
    ServeKeeps(w.server, act);
    NewFactsWereAsked(w.server, act);
  }

  lemma ServerKeepsGrants(w: World, act: ServerAction)
    requires Inv(w) && Arrives(w, act)
    ensures var t := ServerSteps(w, act);
      && (forall lease :: lease in t.grants ==> GrantOk(t, lease))
      && (forall l, m :: l in t.grants && m in t.grants && l.fence == m.fence ==> l == m)
  {
    var t := ServerSteps(w, act);
    ServeKeeps(w.server, act);
    NewFactsWereAsked(w.server, act);
    assert forall f :: f in w.threads ==> ThreadOk(w, f, w.threads[f]);
    forall lease | lease in w.grants
      ensures lease.fence <= w.server.app.fence && GrantOk(t, lease)
    {
      assert GrantOk(w, lease);
    }
  }

  lemma ServerStepKeepsInv(w: World, act: ServerAction)
    requires Inv(w) && Arrives(w, act)
    ensures Inv(ServerSteps(w, act))
  {
    var t := ServerSteps(w, act);
    ServeKeeps(w.server, act);
    NewFactsWereAsked(w.server, act);
    ServerStepGrows(w, act);
    ServerKeepsGrants(w, act);
    forall d | d in w.dropped && !CanStillBeAccepted(w.server, d.receipt)
      ensures !CanStillBeAccepted(t.server, d.receipt)
    {
      HopelessStays(w.server, act, d.receipt);
    }
    GrowthKeepsReceipts(w, t);
    forall f | f in t.threads
      ensures ThreadOk(t, f, t.threads[f])
    {
      GrowthKeepsThread(w, t, f);
    }
    forall a | a in t.receiptAnswers
      ensures ReceiptAnswerOk(t, a)
    {
      ServerKeepsAnswer(w, act, a);
    }
  }

  predicate IsThreadAction(act: Action, f: int) {
    match act
    case SendIntent(g, _, _, _) => g == f
    case HearIntent(g, _) => g == f
    case Press(g) => g == f
    case Confirm(g, _, _, _) => g == f
    case HearReceipt(g, _) => g == f
    case Keep(g) => g == f
    case GiveUp(g) => g == f
    case Crash(g) => g == f
    case _ => false
  }

  /** The thread that steps is as the invariant says afterwards. */
  lemma OwnStep(w: World, f: int, act: Action)
    requires Inv(w) && f in w.threads && IsThreadAction(act, f)
    ensures var t := ThreadActs(w, f, act); f in t.threads ==> ThreadOk(t, f, t.threads[f])
  {
    assert ThreadOk(w, f, w.threads[f]);
    match act
    case HearReceipt(_, reply) =>
      if w.threads[f].phase.Persisting? && ReceiptAnswer(w.threads[f].phase.receipt, reply) in w.receiptAnswers {
        assert ReceiptAnswerOk(w, ReceiptAnswer(w.threads[f].phase.receipt, reply));
      }
    case HearIntent(_, reply) =>
      if w.threads[f].phase.Beginning? && IntentAnswer(w.threads[f].phase.intent, reply) in w.intentAnswers {
        assert reply.Accepted? ==> w.server.intent == Some(w.threads[f].phase.intent);
      }
    case _ =>
  }

  /** Pressing submit is the first submission of the application. */
  lemma PressIsFirst(w: World, f: int)
    requires Inv(w) && f in w.threads && w.threads[f].phase.Permitted?
    ensures w.submits == [] && w.server.intent == Some(w.threads[f].phase.intent) && w.server.intent.value.fence == f
  {
    assert ThreadOk(w, f, w.threads[f]);
  }

  lemma OtherStep(w: World, f: int, act: Action, g: int)
    requires Inv(w) && f in w.threads && IsThreadAction(act, f) && g in w.threads && g != f
    ensures var t := ThreadActs(w, f, act); g in t.threads && ThreadOk(t, g, t.threads[g])
  {
    assert ThreadOk(w, f, w.threads[f]) && ThreadOk(w, g, w.threads[g]);
    if act.Press? && w.threads[f].phase.Permitted? {
      PressIsFirst(w, f);
    }
  }

  lemma ThreadKeepsFacts(w: World, f: int, act: Action)
    requires Inv(w) && f in w.threads && IsThreadAction(act, f)
    ensures var t := ThreadActs(w, f, act); IntentsOk(t) && SubmitsOk(t) && ReceiptsOk(t)
  {
    assert ThreadOk(w, f, w.threads[f]);
    if act.Press? && w.threads[f].phase.Permitted? {
      PressIsFirst(w, f);
    }
  }

  lemma ThreadFrame(w: World, f: int, act: Action)
    requires f in w.threads && IsThreadAction(act, f)
    ensures var t := ThreadActs(w, f, act);
      && t.server == w.server && t.grants == w.grants && t.receiptAnswers == w.receiptAnswers && w.posted <= t.posted
      && (forall g :: g in t.threads ==> g in w.threads) && (forall g :: g in t.intents ==> g in w.intents || g == f)
  {
  }

  lemma ThreadStepKeepsInv(w: World, f: int, act: Action)
    requires Inv(w) && f in w.threads && IsThreadAction(act, f)
    ensures Inv(ThreadActs(w, f, act))
  {
    var t := ThreadActs(w, f, act);
    ThreadKeepsFacts(w, f, act);
    forall g | g in t.threads
      ensures ThreadOk(t, g, t.threads[g])
    {
      if g == f {
        OwnStep(w, f, act);
      } else {
        OtherStep(w, f, act, g);
      }
    }
    ThreadFrame(w, f, act);
    forall lease | lease in t.grants
      ensures GrantOk(t, lease)
    {
      assert GrantOk(w, lease);
    }
    forall a | a in t.receiptAnswers
      ensures ReceiptAnswerOk(t, a)
    {
      assert ReceiptAnswerOk(w, a);
    }
  }

  lemma BeginKeepsInv(w: World, lease: Lease)
    requires Inv(w) && lease in w.grants && lease.state.Ready?
    ensures Inv(Step(w, Begin(lease)))
  {
    var t := Step(w, Begin(lease));
    assert GrantOk(w, lease);
    forall l | l in t.grants
      ensures GrantOk(t, l)
    {
      assert GrantOk(w, l);
    }
    forall f | f in t.threads
      ensures ThreadOk(t, f, t.threads[f])
    {
      if f != lease.fence {
        assert ThreadOk(w, f, w.threads[f]);
      }
    }
    forall a | a in t.receiptAnswers
      ensures ReceiptAnswerOk(t, a)
    {
      assert ReceiptAnswerOk(w, a);
    }
  }

  /** `t` is `w` but for the kept receipt, its reconciliation, the dropped ones and used-up grants. */
  predicate SameButKept(w: World, t: World) {
    && t.server == w.server && t.grants <= w.grants && t.threads == w.threads
    && t.intents == w.intents && t.intentAnswers == w.intentAnswers && t.submits == w.submits
    && t.confirmations == w.confirmations && t.posted == w.posted && t.receiptAnswers == w.receiptAnswers
  }

  lemma ReconcileKeepsReceipts(w: World, act: Action)
    requires Inv(w) && (act.Reconcile? || act.HearReconcile? || act.ReconcileFails?)
    ensures ReceiptsOk(Step(w, act)) && SameButKept(w, Step(w, act))
  {
    if act.HearReconcile? && w.reconciling.Some? && ReceiptAnswer(w.reconciling.value, act.reply) in w.receiptAnswers {
      assert ReceiptAnswerOk(w, ReceiptAnswer(w.reconciling.value, act.reply));
    }
  }

  lemma SameButKeptKeepsInv(w: World, t: World)
    requires Inv(w) && SameButKept(w, t) && ReceiptsOk(t)
    ensures Inv(t)
  {
    forall f | f in t.threads
      ensures ThreadOk(t, f, t.threads[f])
    {
      assert ThreadOk(w, f, w.threads[f]);
    }
    forall l | l in t.grants
      ensures GrantOk(t, l)
    {
      assert GrantOk(w, l);
    }
    forall a | a in t.receiptAnswers
      ensures ReceiptAnswerOk(t, a)
    {
      assert ReceiptAnswerOk(w, a);
    }
  }

  lemma ReconcileKeepsInv(w: World, act: Action)
    requires Inv(w) && (act.Reconcile? || act.HearReconcile? || act.ReconcileFails?)
    ensures Inv(Step(w, act))
  {
    ReconcileKeepsReceipts(w, act);
    SameButKeptKeepsInv(w, Step(w, act));
  }

  lemma StepKeepsInv(w: World, act: Action)
    requires Inv(w)
    ensures Inv(Step(w, act))
  {
    match act
    case ServerActs(a) => if Arrives(w, a) { ServerStepKeepsInv(w, a); }
    case Begin(lease) => if lease in w.grants && lease.state.Ready? { BeginKeepsInv(w, lease); }
    case Reconcile(_) => ReconcileKeepsInv(w, act);
    case HearReconcile(_) => ReconcileKeepsInv(w, act);
    case ReconcileFails(_) => ReconcileKeepsInv(w, act);
    case SendIntent(f, _, _, _) => if f in w.threads { ThreadStepKeepsInv(w, f, act); }
    case HearIntent(f, _) => if f in w.threads { ThreadStepKeepsInv(w, f, act); }
    case Press(f) => if f in w.threads { ThreadStepKeepsInv(w, f, act); }
    case Confirm(f, _, _, _) => if f in w.threads { ThreadStepKeepsInv(w, f, act); }
    case HearReceipt(f, _) => if f in w.threads { ThreadStepKeepsInv(w, f, act); }
    case Keep(f) => if f in w.threads { ThreadStepKeepsInv(w, f, act); }
    case GiveUp(f) => if f in w.threads { ThreadStepKeepsInv(w, f, act); }
    case Crash(f) => if f in w.threads { ThreadStepKeepsInv(w, f, act); }
  }

  /** Nothing has been granted, sent or submitted yet. */
  predicate IsInitial(w: World) {
    && w.server.intent.None? && w.server.receipt.None? && !IsAmbiguous(w.server.app.state)
    && w.server.events == map[] && w.server.applied == []
    && w.grants == {} && w.threads == map[] && w.intents == map[] && w.intentAnswers == {}
    && w.submits == [] && w.confirmations == {} && w.posted == {} && w.receiptAnswers == {}
    && w.kept.None? && w.reconciling.None? && w.dropped == {}
  }

  lemma {:induction false} RunKeepsInv(w: World, acts: seq<Action>)
    requires Inv(w)
    ensures Inv(After(w, acts))
    decreases acts
  {
    if acts != [] {
      StepKeepsInv(w, acts[0]);
      RunKeepsInv(Step(w, acts[0]), acts[1..]);
    }
  }

  /**
   * In every run the form is submitted at most once; only by the thread whose intent the server has on file;
   * a receipt is on file only after that, and is one read off the employer's page.
   */
  lemma SubmittedAtMostOnce(w: World, acts: seq<Action>)
    requires IsInitial(w)
    ensures var t := After(w, acts);
      && |t.submits| <= 1
      && (t.submits != [] ==> t.server.intent.Some? && t.server.intent.value.fence == t.submits[0]
                              && t.submits[0] in t.intents && t.intents[t.submits[0]] == t.server.intent.value)
      && (t.server.receipt.Some? ==> |t.submits| == 1 && t.server.receipt.value in t.confirmations)
  {
    RunKeepsInv(w, acts);
  }

  /** A thread reports `submitted` only with its own receipt on file; and the server then says the same. */
  lemma ReportedOnlyWithReceipt(w: World, acts: seq<Action>, f: int)
    requires IsInitial(w)
    requires f in After(w, acts).threads && After(w, acts).threads[f].phase.Done?
    requires After(w, acts).threads[f].phase.result.ReportedSubmitted?
    ensures var t := After(w, acts);
      && t.submits == [f] && t.server.app.state.Submitted?
      && t.server.receipt == Some(t.threads[f].phase.result.receipt)
  {
    RunKeepsInv(w, acts);
    assert ThreadOk(After(w, acts), f, After(w, acts).threads[f]);
  }

  /**
   * A stage that is done says that it did not submit exactly when it has sent no intent, and then it has not submitted;
   * once its intent is sent, it reports that it submitted or that nobody can tell.
   */
  lemma FailuresAreReportedTruly(w: World, acts: seq<Action>, f: int)
    requires IsInitial(w)
    requires f in After(w, acts).threads && After(w, acts).threads[f].phase.Done?
    ensures var t := After(w, acts);
      && (t.threads[f].phase.result.NotSubmitted? <==> f !in t.intents)
      && (t.threads[f].phase.result.NotSubmitted? ==> f !in t.submits)
  {
    RunKeepsInv(w, acts);
    assert ThreadOk(After(w, acts), f, After(w, acts).threads[f]);
  }

  /** Submit is pressed for the first time, and only with the intent already on file. */
  lemma PressFollowsIntent(w: World, acts: seq<Action>, act: Action)
    requires IsInitial(w) && Step(After(w, acts), act).submits != After(w, acts).submits
    ensures var t := After(w, acts);
      && act.Press? && t.submits == [] && Step(t, act).submits == [act.f]
      && t.server.intent.Some? && t.server.intent.value.fence == act.f
  {
    RunKeepsInv(w, acts);
    OnlyPressSubmits(After(w, acts), act);
    PressIsFirst(After(w, acts), act.f);
  }

  lemma OnlyPressSubmits(w: World, act: Action)
    requires Step(w, act).submits != w.submits
    ensures act.Press? && act.f in w.threads && w.threads[act.f].phase.Permitted? && Step(w, act).submits == w.submits + [act.f]
  {
  }

  // ----------------------------------------------------------------------------------------
  // The kept receipt
  // ----------------------------------------------------------------------------------------

  /** A kept receipt is never replaced; it goes when it is on file or refused for good, or refused as future-dated. */
  lemma KeptReceiptIsResolved(w: World, act: Action)
    requires Inv(w) && w.kept.Some?
    ensures var t := Step(w, act);
      || t.kept == w.kept
      || (t.kept.None? && t.server.receipt == w.kept)
      || (t.kept.None? && !CanStillBeAccepted(t.server, w.kept.value))
      || (t.kept.None? && act == HearReconcile(Refused(InvalidReceipt)))
  {
    OneConfirmation(w, act);
    if act.HearReconcile? && w.reconciling.Some? && ReceiptAnswer(w.reconciling.value, act.reply) in w.receiptAnswers {
      assert ReceiptAnswerOk(w, ReceiptAnswer(w.reconciling.value, act.reply));
    }
  }

  lemma OneConfirmation(w: World, act: Action)
    requires Inv(w) && w.kept.Some?
    ensures Step(w, act).kept.Some? ==> Step(w, act).kept == w.kept
    ensures w.reconciling.Some? ==> w.reconciling == w.kept
  {
    StepKeepsInv(w, act);
    assert w.kept.value in w.confirmations && w.confirmations <= Step(w, act).confirmations;
  }

  /** Of the dropped receipts, the server could still have taken only those it had refused as future-dated. */
  lemma DroppedForGood(w: World, acts: seq<Action>, d: Dropped)
    requires IsInitial(w) && d in After(w, acts).dropped
    ensures d.why != InvalidReceipt ==> !SomeFutureAccepts(After(w, acts).server, d.receipt)
  {
    RunKeepsInv(w, acts);
    AcceptableIff(After(w, acts).server, d.receipt);
  }

  /** A receipt sent again leaves the disk when its answer is heard, unless the lease was lost meanwhile. */
  lemma AnswersClearTheDisk(w: World, acts: seq<Action>, reply: Reply)
    requires IsInitial(w)
    requires var t := After(w, acts); t.reconciling.Some? && ReceiptAnswer(t.reconciling.value, reply) in t.receiptAnswers
    ensures var t := Step(After(w, acts), HearReconcile(reply));
      && (t.kept.Some? <==> reply == Refused(LeaseLost)) && (t.kept.Some? ==> t.kept == After(w, acts).reconciling)
      && t.reconciling.None?
  {
    RunKeepsInv(w, acts);
    assert ReceiptAnswerOk(After(w, acts), ReceiptAnswer(After(w, acts).reconciling.value, reply));
  }

  /** The stage that has read a receipt and not yet seen it on file or kept it. */
  predicate HoldsReceipt(w: World, f: int, r: ReceiptCmd) {
    f in w.threads && (w.threads[f].phase.Persisting? || w.threads[f].phase.Keeping?) && w.threads[f].phase.receipt == r
  }

  /** A receipt is on file, on disk, dropped for a reason, or in the hands of a stage. */
  ghost predicate IsHeld(w: World, r: ReceiptCmd) {
    || w.server.receipt == Some(r) || w.kept == Some(r)
    || (exists d :: d in w.dropped && d.receipt == r)
    || (exists f :: HoldsReceipt(w, f, r))
  }

  /** The stage that holds a receipt crashes, or fails to write it to the disk. */
  predicate LosesReceipts(w: World, act: Action) {
    || (act.Crash? && act.f in w.threads && (w.threads[act.f].phase.Persisting? || w.threads[act.f].phase.Keeping?))
    || (act.GiveUp? && act.f in w.threads && w.threads[act.f].phase.Keeping?)
  }

  predicate Careful(w: World, acts: seq<Action>)
    decreases acts
  {
    acts == [] || (!LosesReceipts(w, acts[0]) && Careful(Step(w, acts[0]), acts[1..]))
  }

  lemma ThreadStepHolds(w: World, f: int, act: Action, r: ReceiptCmd)
    requires Inv(w) && f in w.threads && IsThreadAction(act, f) && !LosesReceipts(w, act)
    requires r in ThreadActs(w, f, act).confirmations && (r in w.confirmations ==> IsHeld(w, r))
    ensures IsHeld(ThreadActs(w, f, act), r)
  {
    var t := ThreadActs(w, f, act);
    assert ThreadOk(w, f, w.threads[f]);
    if r !in w.confirmations {
      assert HoldsReceipt(t, f, r);
    } else if g :| HoldsReceipt(w, g, r) {
      if g != f {
        assert HoldsReceipt(t, g, r);
      } else if act.HearReceipt? && ReceiptAnswer(r, act.reply) in w.receiptAnswers {
        assert ReceiptAnswerOk(w, ReceiptAnswer(r, act.reply));
        assert !act.reply.Accepted? ==> HoldsReceipt(t, f, r);
      } else if !act.Keep? {
        assert HoldsReceipt(t, f, r);
      }
    }
  }

  /** Threads and the disk as they were, or the kept receipt on file or dropped. */
  lemma OtherStepHolds(w: World, act: Action, r: ReceiptCmd)
    requires Inv(w) && r in w.confirmations && IsHeld(w, r)
    requires act.ServerActs? || act.Begin? || act.Reconcile? || act.HearReconcile? || act.ReconcileFails?
    ensures IsHeld(Step(w, act), r)
  {
    var t := Step(w, act);
    if act.ServerActs? && Arrives(w, act.act) {
      ServerStepGrows(w, act.act);
    }
    if act.Begin? && act.lease in w.grants {
      assert GrantOk(w, act.lease);
    }
    if w.kept == Some(r) {
      OneConfirmation(w, act);
      if act.HearReconcile? && w.reconciling.Some? && ReceiptAnswer(r, act.reply) in w.receiptAnswers {
        assert ReceiptAnswerOk(w, ReceiptAnswer(r, act.reply));
        assert DropsOn(act.reply) ==> Dropped(r, act.reply.why) in t.dropped;
      }
    }
    if f :| HoldsReceipt(w, f, r) {
      assert HoldsReceipt(t, f, r);
    }
    if d :| d in w.dropped && d.receipt == r {
      assert d in t.dropped;
    }
  }

  lemma {:induction false} ReceiptsStayHeld(w: World, acts: seq<Action>)
    requires Inv(w) && Careful(w, acts) && forall r :: r in w.confirmations ==> IsHeld(w, r)
    ensures forall r :: r in After(w, acts).confirmations ==> IsHeld(After(w, acts), r)
    decreases acts
  {
    hide Inv, Step, IsHeld, LosesReceipts;
    if acts != [] {
      StepKeepsInv(w, acts[0]);
      forall r | r in Step(w, acts[0]).confirmations
        ensures IsHeld(Step(w, acts[0]), r)
      {
        StepHolds(w, acts[0], r);
      }
      ReceiptsStayHeld(Step(w, acts[0]), acts[1..]);
    }
  }

  lemma StepHolds(w: World, act: Action, r: ReceiptCmd)
    requires Inv(w) && !LosesReceipts(w, act) && r in Step(w, act).confirmations && (r in w.confirmations ==> IsHeld(w, r))
    ensures IsHeld(Step(w, act), r)
  {
    hide Inv, IsHeld, ThreadActs, LosesReceipts;
    match act
    case SendIntent(f, _, _, _) => if f in w.threads { ThreadStepHolds(w, f, act, r); }
    case HearIntent(f, _) => if f in w.threads { ThreadStepHolds(w, f, act, r); }
    case Press(f) => if f in w.threads { ThreadStepHolds(w, f, act, r); }
    case Confirm(f, _, _, _) => if f in w.threads { ThreadStepHolds(w, f, act, r); }
    case HearReceipt(f, _) => if f in w.threads { ThreadStepHolds(w, f, act, r); }
    case Keep(f) => if f in w.threads { ThreadStepHolds(w, f, act, r); }
    case GiveUp(f) => if f in w.threads { ThreadStepHolds(w, f, act, r); }
    case Crash(f) => if f in w.threads { ThreadStepHolds(w, f, act, r); }
    case _ => OtherStepHolds(w, act, r);
  }

  /**
   * In every run, a receipt read off the employer's page is on file, on the disk, dropped, or with the stage that read
   * it, as long as no stage crashes or fails to write while it holds one.
   */
  lemma ReceiptsAreNotLost(w: World, acts: seq<Action>, r: ReceiptCmd)
    requires IsInitial(w) && Careful(w, acts) && r in After(w, acts).confirmations
    ensures IsHeld(After(w, acts), r)
  {
    hide IsHeld, Step, LosesReceipts;
    ReceiptsStayHeld(w, acts);
  }

  ghost predicate Reaches(w: World, t: World) {
    exists acts :: After(w, acts) == t
  }

  lemma ReachesItself(w: World)
    ensures Reaches(w, w)
  {
    assert After(w, []) == w;
  }

  lemma ReachesFrom(w: World, act: Action, t: World)
    requires Reaches(Step(w, act), t)
    ensures Reaches(w, t)
  {
    var rest :| After(Step(w, act), rest) == t;
    assert ([act] + rest)[1..] == rest;
    assert After(w, [act] + rest) == t;
  }

  /** A server with the application ready, and a worker with nothing on disk. */
  function Fresh(): World {
    World(Server(App(Ready, 1, 1, false, None), None, None, map[], [], 1),
          {}, map[], map[], {}, [], {}, {}, {}, None, None, {})
  }

  lemma IntentAccepted() returns (t: World)
    ensures IsInitial(Fresh()) && forall u :: Reaches(t, u) ==> Reaches(Fresh(), u)
    ensures var c := IntentCmd(9, 2, 2, 5, 7);
      && t.server == Server(App(Submitting, 3, 2, true, None), Some(c), None, map[], [], 1)
      && t.grants == {} && t.threads == map[2 := Thread(Lease(2, 2, Ready, None), Permitted(c))]
      && t.posted == {} && t.receiptAnswers == {} && t.kept.None? && t.reconciling.None? && t.dropped == {}
  {
    var c := IntentCmd(9, 2, 2, 5, 7);
    var w1 := Step(Fresh(), ServerActs(DoPoll(false, true)));
    var w2 := Step(w1, Begin(Lease(2, 2, Ready, None)));
    var w3 := Step(w2, SendIntent(2, 9, 5, 7));
    var w4 := Step(w3, ServerActs(DoIntent(c, true, true)));
    t := Step(w4, HearIntent(2, Accepted(3, Submitting)));
    forall u | Reaches(t, u)
      ensures Reaches(Fresh(), u)
    {
      ReachesFrom(w4, HearIntent(2, Accepted(3, Submitting)), u);
      ReachesFrom(w3, ServerActs(DoIntent(c, true, true)), u);
      ReachesFrom(w2, SendIntent(2, 9, 5, 7), u);
      ReachesFrom(w1, Begin(Lease(2, 2, Ready, None)), u);
      ReachesFrom(Fresh(), ServerActs(DoPoll(false, true)), u);
    }
  }

  /** The thread submits, reads a receipt dated more than the allowed skew ahead, and keeps it. */
  lemma ReceiptKept(w: World) returns (t: World)
    requires var c := IntentCmd(9, 2, 2, 5, 7);
      && w.threads == map[2 := Thread(Lease(2, 2, Ready, None), Permitted(c))] && w.posted == {}
    ensures forall u :: Reaches(t, u) ==> Reaches(w, u)
    ensures var r := ReceiptCmd(9, 5, 1, RECEIPT_SKEW_MS + 1);
      && t.server == w.server && t.grants == w.grants && t.kept == Some(r) && t.posted == {r}
      && t.receiptAnswers == w.receiptAnswers && t.reconciling == w.reconciling && t.dropped == w.dropped
  {
    var confirm := Confirm(2, 5, 1, RECEIPT_SKEW_MS + 1);
    var w1 := Step(w, Press(2));
    var w2 := Step(w1, confirm);
    var w3 := Step(w2, GiveUp(2));
    t := Step(w3, Keep(2));
    forall u | Reaches(t, u)
      ensures Reaches(w, u)
    {
      ReachesFrom(w3, Keep(2), u);
      ReachesFrom(w2, GiveUp(2), u);
      ReachesFrom(w1, confirm, u);
      ReachesFrom(w, Press(2), u);
    }
  }

  /** The next lease is for reconciling, and it sends the kept receipt. */
  lemma ReceiptSentAgain(w: World, r: ReceiptCmd) returns (t: World)
    requires w.server == Server(App(Submitting, 3, 2, true, None), Some(IntentCmd(9, 2, 2, 5, 7)), None, map[], [], 1)
    requires w.grants == {} && w.kept == Some(r) && w.posted == {r} && w.reconciling.None?
    ensures forall u :: Reaches(t, u) ==> Reaches(w, u)
    ensures t.server == w.server.(app := App(SubmissionUnknown, 5, 4, true, None))
    ensures t.reconciling == Some(r) && t.posted == {r} && t.kept == Some(r)
  {
    var lease := Lease(4, 5, SubmissionUnknown, None);
    var w1 := Step(w, ServerActs(DoPoll(true, true)));
    t := Step(w1, Reconcile(lease));
    forall u | Reaches(t, u)
      ensures Reaches(w, u)
    {
      ReachesFrom(w1, Reconcile(lease), u);
      ReachesFrom(w, ServerActs(DoPoll(true, true)), u);
    }
  }

  /** A receipt dated further ahead than the server's clock allows is dropped, and could have been taken later. */
  lemma FutureDatedReceiptIsLost() returns (t: World, d: Dropped)
    ensures IsInitial(Fresh()) && Reaches(Fresh(), t)
    ensures d in t.dropped && t.kept.None? && t.server.receipt.None? && SomeFutureAccepts(t.server, d.receipt)
  {
    var r := ReceiptCmd(9, 5, 1, RECEIPT_SKEW_MS + 1);
    var a := IntentAccepted();
    var b := ReceiptKept(a);
    var w := ReceiptSentAgain(b, r);
    var w1 := Step(w, ServerActs(DoReceipt(r, 0, true)));
    t := Step(w1, HearReconcile(Refused(InvalidReceipt)));
    d := Dropped(r, InvalidReceipt);
    ReachesItself(t);
    ReachesFrom(w1, HearReconcile(Refused(InvalidReceipt)), t);
    ReachesFrom(w, ServerActs(DoReceipt(r, 0, true)), t);
    AcceptableIff(t.server, r);
  }
}
