/** Where an undisturbed stage, an undisturbed reconciliation and a crashed stage end. */
module SubmissionProgress {
  import opened Options
  import opened Control
  import opened Submission

  lemma Then(w: World, act: Action, rest: seq<Action>)
    ensures After(w, [act] + rest) == After(Step(w, act), rest)
  {
    hide Step;
    assert ([act] + rest)[1..] == rest;
  }

  lemma Nothing(w: World)
    ensures After(w, []) == w
  {
  }

  lemma Four(w: World, a: Action, b: Action, c: Action, d: Action, rest: seq<Action>)
    ensures After(w, [a] + ([b] + ([c] + ([d] + rest)))) == After(Step(Step(Step(Step(w, a), b), c), d), rest)
  {
    hide Step;
    Then(w, a, [b] + ([c] + ([d] + rest)));
    Then(Step(w, a), b, [c] + ([d] + rest));
    Then(Step(Step(w, a), b), c, [d] + rest);
    Then(Step(Step(Step(w, a), b), c), d, rest);
  }

  lemma Three(w: World, a: Action, b: Action, c: Action)
    ensures After(w, [a] + ([b] + ([c] + []))) == Step(Step(Step(w, a), b), c)
  {
    hide Step;
    Then(w, a, [b] + ([c] + []));
    Then(Step(w, a), b, [c] + []);
    Then(Step(Step(w, a), b), c, []);
    Nothing(Step(Step(Step(w, a), b), c));
  }

  // ----------------------------------------------------------------------------------------
  // An undisturbed stage
  // ----------------------------------------------------------------------------------------

  /** The lease is the one the row holds, ready to be submitted, and nothing has been filed. */
  predicate IsReadyFor(w: World, lease: Lease) {
    && lease in w.grants && lease.state == Ready && w.server.app.state == Ready && w.server.app.leased
    && w.server.app.fence == lease.fence && w.server.app.revision == lease.revision
    && w.server.intent.None? && w.server.receipt.None?
  }

  /** What the worker's other threads and its disk have to do with it. */
  predicate SameElsewhere(w: World, t: World, f: int) {
    && t.kept == w.kept && t.reconciling == w.reconciling && t.dropped == w.dropped
    && f in t.threads && t.threads == w.threads[f := t.threads[f]]
  }

  /** From its lease to a permit: the stage sends its intent, the server files it, and the stage hears. */
  function IntentSteps(lease: Lease, c: IntentCmd, rest: seq<Action>): seq<Action> {
    [Begin(lease)] + ([SendIntent(c.fence, c.intentId, c.role, c.manifest)]
      + ([ServerActs(DoIntent(c, true, true))] + ([HearIntent(c.fence, Accepted(c.revision + 1, Submitting))] + rest)))
  }

  /** From its permit to its report: the stage submits, reads a receipt, and the server files that too. */
  function ReceiptSteps(c: IntentCmd, r: ReceiptCmd, now: int, rest: seq<Action>): seq<Action> {
    [Press(c.fence)] + ([Confirm(c.fence, r.role, r.receiptId, r.submittedAt)]
      + ([ServerActs(DoReceipt(r, now, true))] + ([HearReceipt(c.fence, Accepted(c.revision + 2, Submitted))] + rest)))
  }

  lemma IntentGetsFiled(w: World, lease: Lease, c: IntentCmd, rest: seq<Action>) returns (t: World)
    requires Inv(w) && IsReadyFor(w, lease) && c.fence == lease.fence && c.revision == lease.revision
    ensures After(w, IntentSteps(lease, c, rest)) == After(t, rest)
    ensures t.server == w.server.(intent := Some(c), app := w.server.app.(state := Submitting, revision := c.revision + 1))
    ensures SameElsewhere(w, t, c.fence) && t.threads[c.fence].phase == Permitted(c)
    ensures t.submits == w.submits && t.confirmations == w.confirmations && t.posted == w.posted && t.receiptAnswers == w.receiptAnswers
  {
    assert GrantOk(w, lease);
    var f, reply := c.fence, Accepted(c.revision + 1, Submitting);
    Four(w, Begin(lease), SendIntent(f, c.intentId, c.role, c.manifest), ServerActs(DoIntent(c, true, true)), HearIntent(f, reply), rest);
    hide Inv, After;
    var a := Step(w, Begin(lease));
    var b := Step(a, SendIntent(f, c.intentId, c.role, c.manifest));
    assert b.threads == w.threads[f := Thread(lease, Beginning(c))] && b.intents == w.intents[f := c];
    var e := IntentIsServed(b, c);
    t := Step(e, HearIntent(f, reply));
  }

  lemma IntentIsServed(w: World, c: IntentCmd) returns (t: World)
    requires c.fence in w.intents && w.intents[c.fence] == c && w.server.app.state == Ready && w.server.intent.None?
    requires HoldsLease(w.server.app, c.fence, c.revision)
    ensures t == Step(w, ServerActs(DoIntent(c, true, true)))
    ensures t == w.(server := t.server, intentAnswers := w.intentAnswers + {IntentAnswer(c, Accepted(c.revision + 1, Submitting))})
    ensures t.server == w.server.(intent := Some(c), app := w.server.app.(state := Submitting, revision := c.revision + 1))
  {
    t := Step(w, ServerActs(DoIntent(c, true, true)));
    assert w.grants + {} == w.grants && w.receiptAnswers + {} == w.receiptAnswers;
  }

  lemma ReceiptIsServed(w: World, r: ReceiptCmd, now: int) returns (t: World)
    requires r in w.posted
    ensures t == Step(w, ServerActs(DoReceipt(r, now, true)))
    ensures var out := RecordReceipt(w.server, r, now, true);
      t == w.(server := out.server, receiptAnswers := w.receiptAnswers + {ReceiptAnswer(r, out.reply)})
  {
    t := Step(w, ServerActs(DoReceipt(r, now, true)));
    assert w.grants + {} == w.grants && w.intentAnswers + {} == w.intentAnswers;
  }

  lemma ReceiptGetsFiled(w: World, c: IntentCmd, r: ReceiptCmd, now: int, rest: seq<Action>) returns (t: World)
    requires c.fence in w.threads && w.threads[c.fence].phase == Permitted(c)
    requires w.server.intent == Some(c) && w.server.receipt.None? && w.server.app.state == Submitting && w.server.app.leased
    requires w.server.app.revision == c.revision + 1
    requires r.intentId == c.intentId && r.role == c.role && r.submittedAt <= now + 300000
    ensures After(w, ReceiptSteps(c, r, now, rest)) == After(t, rest)
    ensures t.server.receipt == Some(r) && t.server.intent == Some(c) && t.server.app.state == Submitted && !t.server.app.leased
    ensures SameElsewhere(w, t, c.fence) && t.threads[c.fence].phase == Done(ReportedSubmitted(r))
    ensures t.submits == w.submits + [c.fence] && t.confirmations == w.confirmations + {r}
  {
    var f, reply := c.fence, Accepted(c.revision + 2, Submitted);
    var confirm := Confirm(f, r.role, r.receiptId, r.submittedAt);
    Four(w, Press(f), confirm, ServerActs(DoReceipt(r, now, true)), HearReceipt(f, reply), rest);
    hide After;
    var a := Step(w, Press(f));
    var b := Step(a, confirm);
    assert b.threads == w.threads[f := w.threads[f].(phase := Persisting(c, r))];
    var e := ReceiptIsServed(b, r, now);
    t := Step(e, HearReceipt(f, reply));
  }

  /**
   * A stage on a ready application that nobody disturbs files its intent, submits once, and reports that it submitted with its
   * receipt on file.
   */
  lemma StageSubmits(w: World, lease: Lease, c: IntentCmd, r: ReceiptCmd, now: int)
    requires Inv(w) && IsReadyFor(w, lease) && c.fence == lease.fence && c.revision == lease.revision
    requires r.intentId == c.intentId && r.role == c.role && r.submittedAt <= now + 300000
    ensures var t := After(w, IntentSteps(lease, c, ReceiptSteps(c, r, now, [])));
      && t.server.intent == Some(c) && t.server.receipt == Some(r) && t.server.app.state == Submitted
      && t.submits == w.submits + [c.fence] && c.fence in t.threads && t.threads[c.fence].phase == Done(ReportedSubmitted(r))
      && SameElsewhere(w, t, c.fence)
  {
    hide Inv, Step, After, IntentSteps, ReceiptSteps;
    var a := IntentGetsFiled(w, lease, c, ReceiptSteps(c, r, now, []));
    var b := ReceiptGetsFiled(a, c, r, now, []);
    Nothing(b);
  }

  // ----------------------------------------------------------------------------------------
  // An undisturbed reconciliation
  // ----------------------------------------------------------------------------------------

  function ReconcileSteps(lease: Lease, r: ReceiptCmd, now: int, reply: Reply): seq<Action> {
    [Reconcile(lease)] + ([ServerActs(DoReceipt(r, now, true))] + ([HearReconcile(reply)] + []))
  }

  /**
   * A lease to reconcile that nobody disturbs sends the kept receipt and hears: it leaves the disk, and is on file if the server
   * could still take it and its date is at most five minutes ahead. Only a lease that is no longer live keeps it there.
   */
  lemma ReceiptIsReconciled(w: World, lease: Lease, r: ReceiptCmd, now: int)
    requires Inv(w) && lease in w.grants && lease.state in {Submitting, SubmissionUnknown} && w.kept == Some(r) && w.reconciling.None?
    ensures var reply := RecordReceipt(w.server, r, now, true).reply;
      var t := After(w, ReconcileSteps(lease, r, now, reply));
      && t.reconciling.None? && t.threads == w.threads && lease !in t.grants
      && (t.kept == if reply == Refused(LeaseLost) then Some(r) else None)
      && (CanStillBeAccepted(w.server, r) && w.server.receipt.None? && w.server.app.leased && r.submittedAt <= now + 300000 ==>
            t.server.receipt == Some(r) && t.server.app.state == Submitted && t.kept.None?)
  {
    var out := RecordReceipt(w.server, r, now, true);
    Three(w, Reconcile(lease), ServerActs(DoReceipt(r, now, true)), HearReconcile(out.reply));
    hide Inv, After;
    var a := Step(w, Reconcile(lease));
    var b := ReceiptIsServed(a, r, now);
    assert b.reconciling == Some(r) && ReceiptAnswer(r, out.reply) in b.receiptAnswers && b.threads == w.threads && b.grants == w.grants - {lease};
    AnswerIs(w.server, r, now);
    hide RecordReceipt, CanStillBeAccepted;
  }

  lemma AnswerIs(s: Server, r: ReceiptCmd, now: int)
    ensures var out := RecordReceipt(s, r, now, true);
      && (out.reply.Accepted? || DropsOn(out.reply) || out.reply == Refused(LeaseLost))
      && (DropsOn(out.reply) ==> out.reply != Refused(LeaseLost) && !out.reply.Accepted?)
      && (CanStillBeAccepted(s, r) && s.receipt.None? && s.app.leased && r.submittedAt <= now + 300000 ==>
            out.reply.Accepted? && out.server.receipt == Some(r) && out.server.app.state == Submitted)
  {
  }

  /** One whose request fails, or whose worker crashes in the middle, keeps the receipt for the next lease. */
  lemma FailureKeepsReceipt(w: World, lease: Lease, crashed: bool)
    requires lease in w.grants && lease.state in {Submitting, SubmissionUnknown} && w.kept.Some? && w.reconciling.None?
    ensures var t := After(w, [Reconcile(lease)] + ([ReconcileFails(crashed)] + []));
      t.kept == w.kept && t.reconciling.None? && w.kept.value in t.posted && t.server == w.server
  {
    var a := Step(w, Reconcile(lease));
    Then(w, Reconcile(lease), [ReconcileFails(crashed)] + []);
    Then(a, ReconcileFails(crashed), []);
    Nothing(Step(a, ReconcileFails(crashed)));
  }

  // ----------------------------------------------------------------------------------------
  // A crashed stage
  // ----------------------------------------------------------------------------------------

  /** No lease under this fence is left, nor will be granted: the stage that had it is gone. */
  ghost predicate IsGone(w: World, f: int) {
    f !in w.threads && f <= w.server.app.fence && forall lease :: lease in w.grants ==> lease.fence != f
  }

  lemma GoneStaysGone(w: World, act: Action, f: int)
    requires Inv(w) && IsGone(w, f)
    ensures IsGone(Step(w, act), f) && (f in Step(w, act).submits ==> f in w.submits)
  {
    if act.ServerActs? && Arrives(w, act.act) {
      ServeKeeps(w.server, act.act);
      NewFactsWereAsked(w.server, act.act);
    }
  }

  lemma {:induction false} GoneForGood(w: World, acts: seq<Action>, f: int)
    requires Inv(w) && IsGone(w, f)
    ensures IsGone(After(w, acts), f) && (f in After(w, acts).submits ==> f in w.submits)
    decreases acts
  {
    hide Inv, Step, IsGone;
    if acts != [] {
      GoneStaysGone(w, acts[0], f);
      StepKeepsInv(w, acts[0]);
      GoneForGood(Step(w, acts[0]), acts[1..], f);
    }
  }

  /** A stage that crashes never acts again, whatever comes: if it had not submitted, it never will have. */
  lemma CrashedStageIsGone(w: World, f: int, acts: seq<Action>)
    requires Inv(w) && f in w.threads
    ensures var t := After(w, [Crash(f)] + acts); f !in t.threads && (f in t.submits ==> f in w.submits)
  {
    Then(w, Crash(f), acts);
    var u := Step(w, Crash(f));
    StepKeepsInv(w, Crash(f));
    assert ThreadOk(w, f, w.threads[f]);
    assert forall lease :: lease in w.grants ==> GrantOk(w, lease);
    assert IsGone(u, f);
    hide Inv, Step, After;
    GoneForGood(u, acts, f);
  }
}
