/**
 * Delisting postings: the ghost pass, which ages source rows (scripts/ghost.ts), the link check, which marks dead
 * links (scripts/linkcheck.ts), and what ingest may do to both tables in between (scripts/ingest.ts).
 */
module Lifecycle {
  import opened Options

  datatype Reason = Ghost | Linkcheck

  /** A posting's two delisting columns, and whether extraction kept it (`track` is not null). */
  datatype Post = Post(delistedAt: Option<int>, reason: Option<Reason>, tracked: bool)

  datatype Source = Source(posting: int, connector: string, lastRun: int, absences: int)

  /** What one ghost pass could judge: the rows of eligible connectors, and those of them their source listed. */
  datatype Pass = Pass(judged: set<int>, seen: set<int>)

  /** The tables, and the history of ghost passes. Row ids are never used again. */
  datatype Board = Board(posts: map<int, Post>, sources: map<int, Source>, nextRow: int, history: seq<Pass>)

  const THRESHOLD: int := 2

  // ----------------------------------------------------------------------------------------
  // Eligibility and the ghost pass
  // ----------------------------------------------------------------------------------------

  datatype ConnectorRun = ConnectorRun(connector: string, ok: bool, degraded: nat, fetched: nat)

  predicate GhostEligible(r: ConnectorRun) {
    r.ok && r.degraded == 0 && r.fetched > 0
  }

  function EligibleConnectors(runs: seq<ConnectorRun>): set<string> {
    set i | 0 <= i < |runs| && GhostEligible(runs[i]) :: runs[i].connector
  }

  function Aged(r: Source, run: int, ok: set<string>): Source {
    if r.connector !in ok then r
    else r.(absences := if r.lastRun == run then 0 else if r.absences + 1 < THRESHOLD then r.absences + 1 else THRESHOLD)
  }

  predicate HasSource(b: Board, p: int) {
    exists r :: r in b.sources && b.sources[r].posting == p
  }

  /** A posting whose every source has been absent for the threshold; it has one. */
  predicate IsGhost(b: Board, p: int) {
    HasSource(b, p) && forall r :: r in b.sources && b.sources[r].posting == p ==> b.sources[r].absences >= THRESHOLD
  }

  predicate HasLiveSource(b: Board, p: int) {
    exists r :: r in b.sources && b.sources[r].posting == p && b.sources[r].absences < THRESHOLD
  }

  function Delisted(b: Board, p: int, now: int): Post
    requires p in b.posts
  {
    var post := b.posts[p];
    if post.delistedAt.None? && IsGhost(b, p) then post.(delistedAt := Some(now), reason := Some(Ghost)) else post
  }

  function Restored(b: Board, p: int): Post
    requires p in b.posts
  {
    var post := b.posts[p];
    if post.reason == Some(Ghost) && HasLiveSource(b, p) then post.(delistedAt := None, reason := None) else post
  }

  function PassOf(b: Board, run: int, ok: set<string>): Pass {
    Pass(set r | r in b.sources && b.sources[r].connector in ok,
         set r | r in b.sources && b.sources[r].connector in ok && b.sources[r].lastRun == run)
  }

  function AgedBoard(b: Board, run: int, ok: set<string>): Board {
    b.(sources := map r | r in b.sources :: Aged(b.sources[r], run, ok), history := b.history + [PassOf(b, run, ok)])
  }

  function WithGhosts(b: Board, now: int): Board {
    b.(posts := map p | p in b.posts :: Delisted(b, p, now))
  }

  function WithReturned(b: Board): Board {
    b.(posts := map p | p in b.posts :: Restored(b, p))
  }

  /** Age the eligible rows, delist the new ghosts, and restore those that reappeared. */
  function GhostPass(b: Board, run: int, ok: set<string>, now: int): Board {
    if ok == {} then b else WithReturned(WithGhosts(AgedBoard(b, run, ok), now))
  }

  // ----------------------------------------------------------------------------------------
  // The link check
  // ----------------------------------------------------------------------------------------

  datatype Verdict = Live | Dead | Unverifiable

  predicate Recheckable(post: Post) {
    post.tracked && (post.delistedAt.None? || post.reason == Some(Linkcheck))
  }

  /** The reasons a check read when it chose its queue, by posting. */
  type Snapshot = map<int, Option<Reason>>

  function Queue(b: Board, chosen: set<int>): Snapshot {
    map p | p in b.posts && p in chosen && Recheckable(b.posts[p]) :: b.posts[p].reason
  }

  datatype Result = Result(id: int, verdict: Verdict)

  function MarkedDead(posts: map<int, Post>, prior: Snapshot, r: Result, now: int): map<int, Post> {
    if r.verdict.Dead? && (r.id in prior ==> prior[r.id] != Some(Linkcheck)) && r.id in posts && posts[r.id].delistedAt.None?
    then posts[r.id := posts[r.id].(delistedAt := Some(now), reason := Some(Linkcheck))]
    else posts
  }

  function RestoredLive(posts: map<int, Post>, prior: Snapshot, r: Result): map<int, Post> {
    if r.verdict.Live? && r.id in prior && prior[r.id] == Some(Linkcheck)
       && r.id in posts && posts[r.id].reason == Some(Linkcheck) && posts[r.id].delistedAt.Some?
    then posts[r.id := posts[r.id].(delistedAt := None, reason := None)]
    else posts
  }

  function AllMarked(posts: map<int, Post>, prior: Snapshot, results: seq<Result>, now: int): map<int, Post> {
    if results == [] then posts
    else MarkedDead(AllMarked(posts, prior, results[..|results| - 1], now), prior, results[|results| - 1], now)
  }

  function AllRestored(posts: map<int, Post>, prior: Snapshot, results: seq<Result>): map<int, Post> {
    if results == [] then posts
    else RestoredLive(AllRestored(posts, prior, results[..|results| - 1]), prior, results[|results| - 1])
  }

  /** The one transaction a check writes, against the reasons its snapshot read. */
  function CheckWritten(b: Board, prior: Snapshot, results: seq<Result>, now: int): Board {
    b.(posts := AllRestored(AllMarked(b.posts, prior, results, now), prior, results))
  }

  // ----------------------------------------------------------------------------------------
  // Runs
  // ----------------------------------------------------------------------------------------

  /**
   * What ingest may do between passes: insert rows and postings, move, re-attribute, sight and delete rows, and
   * retire a posting left without a source. It leaves the counters alone.
   */
  ghost predicate Ingested(b: Board, c: Board) {
    && b.nextRow <= c.nextRow && c.history == b.history
    && (forall r :: r in c.sources ==> r < c.nextRow)
    && (forall r :: r in c.sources && r in b.sources ==> c.sources[r].absences == b.sources[r].absences)
    && (forall r :: r in c.sources && r !in b.sources ==> b.nextRow <= r && c.sources[r].absences == 0)
    && (forall p :: p in b.posts ==> p in c.posts && (SameMark(b.posts[p], c.posts[p]) || IsRetired(c, p)))
    && (forall p :: p in c.posts && p !in b.posts ==> c.posts[p].delistedAt.None? && c.posts[p].reason.None?)
  }

  /**
   * What a merge of stored duplicates may do: move rows, and delete rows and postings. A posting it keeps has the
   * mark it had, and a row it keeps the counter.
   */
  ghost predicate Merged(b: Board, c: Board) {
    && c.nextRow == b.nextRow && c.history == b.history
    && (forall r :: r in c.sources ==> r in b.sources && c.sources[r] == b.sources[r].(posting := c.sources[r].posting))
    && (forall p :: p in c.posts ==> p in b.posts && c.posts[p] == b.posts[p])
  }

  predicate IsRetired(b: Board, p: int)
    requires p in b.posts
  {
    !HasSource(b, p) && b.posts[p].delistedAt.Some? && b.posts[p].reason == Some(Ghost)
  }

  predicate SameMark(p: Post, q: Post) {
    p.delistedAt == q.delistedAt && p.reason == q.reason
  }

  /** The tables, and the link checks that have read their queues and not yet written. */
  datatype State = State(board: Board, checks: map<int, Snapshot>)

  /** An ingest run's ghost pass takes the outcomes of its connectors; a check writes results of its own queue. */
  datatype Event =
    | Ingest(after: Board)
    | Merge(after: Board)
    | RunGhosts(run: int, runs: seq<ConnectorRun>, at: int)
    | ReadQueue(check: int, chosen: set<int>)
    | WriteCheck(check: int, results: seq<Result>, now: int)

  predicate OfQueue(prior: Snapshot, results: seq<Result>) {
    forall i :: 0 <= i < |results| ==> results[i].id in prior
  }

  ghost function Step(s: State, e: Event): State {
    match e
    case Ingest(c) => if Ingested(s.board, c) then s.(board := c) else s
    case Merge(c) => if Merged(s.board, c) then s.(board := c) else s
    case RunGhosts(run, runs, at) => s.(board := GhostPass(s.board, run, EligibleConnectors(runs), at))
    case ReadQueue(check, chosen) => s.(checks := s.checks[check := Queue(s.board, chosen)])
    case WriteCheck(check, results, now) =>
      if check in s.checks && OfQueue(s.checks[check], results) then
        State(CheckWritten(s.board, s.checks[check], results, now), s.checks - {check})
      else s
  }

  ghost function After(s: State, events: seq<Event>): State
    decreases events
  {
    if events == [] then s else After(Step(s, events[0]), events[1..])
  }

  const Empty := State(Board(map[], map[], 1, []), map[])

  // ----------------------------------------------------------------------------------------
  // The ghost rule over whole histories
  // ----------------------------------------------------------------------------------------

  /** How many of the latest passes that could judge a row, since one last listed it, found it missing: no clamp. */
  function Missed(history: seq<Pass>, r: int): nat {
    if history == [] then 0
    else
      var last := history[|history| - 1];
      if r !in last.judged then Missed(history[..|history| - 1], r)
      else if r in last.seen then 0
      else Missed(history[..|history| - 1], r) + 1
  }

  function Clamped(n: nat): int {
    if n < THRESHOLD then n else THRESHOLD
  }

  /** The stored counter is the unbounded one, clamped; and a mark has a date exactly when it has a reason. */
  ghost predicate Inv(b: Board) {
    && (forall r :: r in b.sources ==> r < b.nextRow && b.sources[r].absences == Clamped(Missed(b.history, r)))
    && (forall r :: b.nextRow <= r ==> Missed(b.history, r) == 0)
    && (forall p :: p in b.posts ==> (b.posts[p].delistedAt.Some? <==> b.posts[p].reason.Some?))
  }

  lemma MissedAfter(history: seq<Pass>, pass: Pass, r: int)
    ensures Missed(history + [pass], r) ==
            if r !in pass.judged then Missed(history, r) else if r in pass.seen then 0 else Missed(history, r) + 1
  {
    assert (history + [pass])[..|history + [pass]| - 1] == history;
  }

  lemma GhostsKeepInv(b: Board, run: int, ok: set<string>, now: int)
    requires Inv(b)
    ensures Inv(GhostPass(b, run, ok, now))
  {
    if ok != {} {
      var c := GhostPass(b, run, ok, now);
      var pass := PassOf(b, run, ok);
      forall r
        ensures r in c.sources ==> r < c.nextRow && c.sources[r].absences == Clamped(Missed(c.history, r))
        ensures c.nextRow <= r ==> Missed(c.history, r) == 0
      {
        MissedAfter(b.history, pass, r);
      }
    }
  }

  lemma {:induction false} MarkingKeepsReasons(posts: map<int, Post>, prior: Snapshot, results: seq<Result>, now: int)
    requires forall p :: p in posts ==> (posts[p].delistedAt.Some? <==> posts[p].reason.Some?)
    ensures var q := AllMarked(posts, prior, results, now);
      && (forall p :: p in posts <==> p in q)
      && (forall p :: p in q ==> (q[p].delistedAt.Some? <==> q[p].reason.Some?))
      && (forall p :: p in q ==> SameMark(q[p], posts[p]) || (posts[p].delistedAt.None? && q[p].reason == Some(Linkcheck)))
  {
    if results != [] {
      MarkingKeepsReasons(posts, prior, results[..|results| - 1], now);
    }
  }

  /** A link-check mark that the check read in its snapshot, on a link it found live. */
  predicate MayClear(post: Post, prior: Snapshot, results: seq<Result>, p: int) {
    post.reason == Some(Linkcheck) && p in prior && prior[p] == Some(Linkcheck) && Result(p, Live) in results
  }

  lemma {:induction false} RestoringKeepsReasons(posts: map<int, Post>, prior: Snapshot, results: seq<Result>)
    requires forall p :: p in posts ==> (posts[p].delistedAt.Some? <==> posts[p].reason.Some?)
    ensures var q := AllRestored(posts, prior, results);
      && (forall p :: p in posts <==> p in q)
      && (forall p :: p in q ==> (q[p].delistedAt.Some? <==> q[p].reason.Some?))
      && (forall p :: p in q ==> SameMark(q[p], posts[p]) || (q[p].reason.None? && MayClear(posts[p], prior, results, p)))
  {
    if results != [] {
      RestoringKeepsReasons(posts, prior, results[..|results| - 1]);
      assert forall r :: r in results[..|results| - 1] ==> r in results;
    }
  }

  lemma CheckKeepsInv(b: Board, prior: Snapshot, results: seq<Result>, now: int)
    requires Inv(b)
    ensures Inv(CheckWritten(b, prior, results, now))
  {
    MarkingKeepsReasons(b.posts, prior, results, now);
    RestoringKeepsReasons(AllMarked(b.posts, prior, results, now), prior, results);
  }

  lemma StepKeepsInv(s: State, e: Event)
    requires Inv(s.board)
    ensures Inv(Step(s, e).board)
  {
    hide GhostPass, CheckWritten, Queue, EligibleConnectors;
    match e
    case RunGhosts(run, runs, at) => GhostsKeepInv(s.board, run, EligibleConnectors(runs), at);
    case WriteCheck(check, results, now) =>
      if check in s.checks {
        CheckKeepsInv(s.board, s.checks[check], results, now);
      }
    case _ =>
  }

  lemma {:induction false} RunKeepsInv(s: State, events: seq<Event>)
    requires Inv(s.board)
    ensures Inv(After(s, events).board)
    decreases events
  {
    hide Step, Inv;
    if events != [] {
      StepKeepsInv(s, events[0]);
      RunKeepsInv(Step(s, events[0]), events[1..]);
    }
  }

  /** The rule without counters: every source of the posting was missing from its last two judging passes, or more. */
  predicate LongMissing(b: Board, p: int) {
    HasSource(b, p) && forall r :: r in b.sources && b.sources[r].posting == p ==> Missed(b.history, r) >= 2
  }

  /** A connector that ran without an error, gave all it has, and had something. */
  predicate Answered(r: ConnectorRun) {
    r.ok && r.degraded == 0 && 1 <= r.fetched
  }

  /**
   * After any history, a pass in which a connector answered leaves a posting that has sources and no link-check mark
   * delisted exactly when every one of its sources was missing from at least its last two judging passes: as a ghost of now,
   * or of whenever it was delisted.
   */
  lemma GhostRule(events: seq<Event>, run: int, runs: seq<ConnectorRun>, now: int, p: int)
    requires exists i :: 0 <= i < |runs| && Answered(runs[i])
    requires var b := After(Empty, events).board; p in b.posts && HasSource(b, p) && b.posts[p].reason != Some(Linkcheck)
    ensures var c := Step(After(Empty, events), RunGhosts(run, runs, now)).board;
      && p in c.posts && (c.posts[p].delistedAt.Some? <==> LongMissing(c, p))
      && (c.posts[p].delistedAt.Some? ==>
            var was := After(Empty, events).board.posts[p].delistedAt;
            c.posts[p].reason == Some(Ghost) && c.posts[p].delistedAt == if was.Some? then was else Some(now))
  {
    var b, ok := After(Empty, events).board, EligibleConnectors(runs);
    var i :| 0 <= i < |runs| && Answered(runs[i]);
    assert runs[i].connector in ok;
    RunKeepsInv(Empty, events);
    GhostsKeepInv(b, run, ok, now);
    PassDecides(b, run, ok, now, p);
  }

  /** The rule reads the source rows alone. */
  lemma SameSources(b: Board, c: Board, p: int)
    requires b.sources == c.sources
    ensures (IsGhost(b, p) <==> IsGhost(c, p)) && (HasLiveSource(b, p) <==> HasLiveSource(c, p))
    ensures HasSource(b, p) ==> (HasLiveSource(b, p) <==> !IsGhost(b, p))
  {
  }

  lemma PassDecides(b: Board, run: int, ok: set<string>, now: int, p: int)
    requires ok != {} && Inv(b) && p in b.posts && HasSource(b, p) && b.posts[p].reason != Some(Linkcheck)
    requires Inv(GhostPass(b, run, ok, now))
    ensures var c := GhostPass(b, run, ok, now);
      && p in c.posts && (c.posts[p].delistedAt.Some? <==> LongMissing(c, p))
      && (c.posts[p].delistedAt.Some? ==>
            c.posts[p].reason == Some(Ghost) && c.posts[p].delistedAt == if b.posts[p].delistedAt.Some? then b.posts[p].delistedAt else Some(now))
  {
    var aged := AgedBoard(b, run, ok);
    var marked := WithGhosts(aged, now);
    var c := WithReturned(marked);
    var r :| r in b.sources && b.sources[r].posting == p;
    assert r in aged.sources && aged.sources[r].posting == p;
    assert HasSource(aged, p) && aged.posts == b.posts;
    SameSources(aged, marked, p);
    SameSources(marked, c, p);
    hide IsGhost, HasLiveSource, HasSource, AgedBoard;
    assert b.posts[p].reason.Some? ==> b.posts[p].reason.value.Ghost?;
    assert marked.posts[p] == Delisted(aged, p, now);
    assert c.posts[p] == Restored(marked, p);
    CountersDecide(c, p);
  }

  lemma CountersDecide(c: Board, p: int)
    requires Inv(c)
    ensures IsGhost(c, p) <==> LongMissing(c, p)
  {
  }

  predicate IsJudged(runs: seq<ConnectorRun>, connector: string) {
    exists i :: 0 <= i < |runs| && Answered(runs[i]) && runs[i].connector == connector
  }

  /**
   * A pass judges exactly the rows of the connectors that answered: one that was sighted in the run counts from zero again, and
   * any other has been missed once more, up to twice. It changes no posting without a source, and nothing if none answered.
   */
  lemma PassJudges(b: Board, run: int, runs: seq<ConnectorRun>, now: int, r: int)
    requires Inv(b) && r in b.sources
    ensures var c := GhostPass(b, run, EligibleConnectors(runs), now);
      && c.sources.Keys == b.sources.Keys && c.posts.Keys == b.posts.Keys
      && c.sources[r] == b.sources[r].(absences :=
           if !IsJudged(runs, b.sources[r].connector) then b.sources[r].absences
           else if b.sources[r].lastRun == run then 0 else if b.sources[r].absences == 0 then 1 else 2)
      && (forall p :: p in b.posts && !HasSource(b, p) ==> c.posts[p] == b.posts[p])
      && ((forall i :: 0 <= i < |runs| ==> !Answered(runs[i])) ==> c == b)
  {
    var ok := EligibleConnectors(runs);
    assert forall i :: 0 <= i < |runs| && Answered(runs[i]) ==> runs[i].connector in ok;
    assert forall k :: k in ok ==> exists i :: 0 <= i < |runs| && Answered(runs[i]) && runs[i].connector == k;
    var aged := AgedBoard(b, run, ok);
    forall p | p in b.posts && !HasSource(b, p)
      ensures !HasSource(aged, p)
    {
    }
  }

  /** A connector that is not eligible ages nothing: its rows keep their counters and their history. */
  lemma IneligibleRowsAreUntouched(b: Board, run: int, ok: set<string>, now: int, r: int)
    requires r in b.sources && b.sources[r].connector !in ok
    ensures var c := GhostPass(b, run, ok, now);
      r in c.sources && c.sources[r] == b.sources[r] && Missed(c.history, r) == Missed(b.history, r)
  {
    if ok != {} {
      MissedAfter(b.history, PassOf(b, run, ok), r);
    }
  }

  // ----------------------------------------------------------------------------------------
  // Who owns a mark
  // ----------------------------------------------------------------------------------------

  /** A ghost pass leaves a link-check mark as it is, and clears a ghost mark only when a source is back. */
  lemma GhostPassOwnsGhosts(b: Board, run: int, ok: set<string>, now: int, p: int)
    requires Inv(b) && p in b.posts
    ensures var c := GhostPass(b, run, ok, now);
      && p in c.posts
      && (b.posts[p].reason == Some(Linkcheck) ==> c.posts[p] == b.posts[p])
      && (b.posts[p].reason == Some(Ghost) && c.posts[p] != b.posts[p] ==> c.posts[p].reason.None? && HasLiveSource(c, p))
      && (c.posts[p].reason == Some(Linkcheck) ==> b.posts[p].reason == Some(Linkcheck))
  {
    if ok != {} {
      var aged := AgedBoard(b, run, ok);
      var marked := WithGhosts(aged, now);
      SameSources(marked, WithReturned(marked), p);
    }
  }

  /**
   * A link check, whatever ran since its snapshot, leaves a ghost mark as it is; it keeps the date of a link-check
   * mark, or clears it when it found the link live and had read the mark in its snapshot; and it marks only rows
   * that nobody has delisted.
   */
  lemma LinkCheckOwnsItsMarks(b: Board, prior: Snapshot, results: seq<Result>, now: int, p: int)
    requires Inv(b) && p in b.posts
    ensures var c := CheckWritten(b, prior, results, now);
      && p in c.posts
      && (b.posts[p].reason == Some(Ghost) ==> SameMark(c.posts[p], b.posts[p]))
      && (b.posts[p].reason == Some(Linkcheck) && !SameMark(c.posts[p], b.posts[p]) ==>
            c.posts[p].delistedAt.None? && p in prior && prior[p] == Some(Linkcheck) && Result(p, Live) in results)
      && (c.posts[p].reason == Some(Ghost) ==> b.posts[p].reason == Some(Ghost))
  {
    MarkingKeepsReasons(b.posts, prior, results, now);
    RestoringKeepsReasons(AllMarked(b.posts, prior, results, now), prior, results);
  }

  lemma {:induction false} MarkedAt(posts: map<int, Post>, prior: Snapshot, results: seq<Result>, now: int, p: int)
    requires p in posts
    ensures var q := AllMarked(posts, prior, results, now);
      && p in q
      && q[p] == if posts[p].delistedAt.None? && Result(p, Dead) in results && !(p in prior && prior[p] == Some(Linkcheck))
                 then posts[p].(delistedAt := Some(now), reason := Some(Linkcheck)) else posts[p]
  {
    if results != [] {
      var front, last := results[..|results| - 1], results[|results| - 1];
      assert results == front + [last];
      MarkedAt(posts, prior, front, now, p);
    }
  }

  lemma {:induction false} RestoredAt(posts: map<int, Post>, prior: Snapshot, results: seq<Result>, p: int)
    requires p in posts
    ensures var q := AllRestored(posts, prior, results);
      && p in q
      && q[p] == if posts[p].reason == Some(Linkcheck) && posts[p].delistedAt.Some? && Result(p, Live) in results
                    && p in prior && prior[p] == Some(Linkcheck)
                 then posts[p].(delistedAt := None, reason := None) else posts[p]
  {
    if results != [] {
      var front, last := results[..|results| - 1], results[|results| - 1];
      assert results == front + [last];
      RestoredAt(posts, prior, front, p);
    }
  }

  /**
   * What a check writes: a posting that was listed is delisted, as of now, exactly when the check found its link dead and
   * had not read a link-check mark; a link-check mark is cleared exactly when it had read one and found the link live;
   * and every other posting stays as it was.
   */
  lemma CheckMarksIff(b: Board, prior: Snapshot, results: seq<Result>, now: int, p: int)
    requires Inv(b) && p in b.posts
    ensures var c := CheckWritten(b, prior, results, now);
      var read := p in prior && prior[p] == Some(Linkcheck);
      && c.posts.Keys == b.posts.Keys && c.sources == b.sources
      && (b.posts[p].delistedAt.None? ==>
            if Result(p, Dead) in results && !read
            then c.posts[p] == b.posts[p].(delistedAt := Some(now), reason := Some(Linkcheck)) else c.posts[p] == b.posts[p])
      && (b.posts[p].reason == Some(Linkcheck) ==>
            if Result(p, Live) in results && read
            then c.posts[p] == b.posts[p].(delistedAt := None, reason := None) else c.posts[p] == b.posts[p])
      && (b.posts[p].reason == Some(Ghost) ==> c.posts[p] == b.posts[p])
  {
    MarkingKeepsReasons(b.posts, prior, results, now);
    RestoringKeepsReasons(AllMarked(b.posts, prior, results, now), prior, results);
    MarkedAt(b.posts, prior, results, now, p);
    RestoredAt(AllMarked(b.posts, prior, results, now), prior, results, p);
    var c := CheckWritten(b, prior, results, now);
    assert forall q :: q in b.posts <==> q in c.posts;
    hide AllMarked, AllRestored, SameMark;
  }

  lemma ChangedWasRead(b: Board, prior: Snapshot, results: seq<Result>, now: int, p: int)
    requires Inv(b) && p in b.posts && OfQueue(prior, results)
    ensures p in CheckWritten(b, prior, results, now).posts
    ensures CheckWritten(b, prior, results, now).posts[p] != b.posts[p] ==> p in prior
  {
    CheckMarksIff(b, prior, results, now, p);
    forall v | Result(p, v) in results
      ensures p in prior
    {
      var i :| 0 <= i < |results| && results[i] == Result(p, v);
      assert results[i].id in prior;
    }
    assert Result(p, Dead) in results || Result(p, Live) in results ==> p in prior;
    assert b.posts[p].reason.Some? ==> b.posts[p].reason.value.Ghost? || b.posts[p].reason.value.Linkcheck?;
    hide CheckWritten;
  }

  /** Writing these results changes the posting's row. */
  ghost predicate Changes(s: State, check: int, results: seq<Result>, now: int, p: int) {
    var u := Step(s, WriteCheck(check, results, now));
    p in s.board.posts && (p in u.board.posts ==> u.board.posts[p] != s.board.posts[p])
  }

  /** A posting is open to a check when extraction kept it and it is not delisted as a ghost. */
  predicate OpenToChecks(b: Board, p: int) {
    p in b.posts && b.posts[p].tracked && b.posts[p].reason != Some(Ghost)
  }

  /** After any history, a check changes only postings that it was to look at and that were open when it read its queue. */
  lemma OnlyOpenAreChecked(events: seq<Event>, check: int, chosen: set<int>, later: seq<Event>, results: seq<Result>, now: int, p: int)
    requires forall i :: 0 <= i < |later| ==> !(later[i].ReadQueue? && later[i].check == check)
    ensures var s := After(Empty, events);
      Changes(After(Step(s, ReadQueue(check, chosen)), later), check, results, now, p) ==> p in chosen && OpenToChecks(s.board, p)
  {
    var s := After(Empty, events);
    var r := Step(s, ReadQueue(check, chosen));
    var t := After(r, later);
    RunKeepsInv(Empty, events);
    RunKeepsInv(r, later);
    SnapshotStays(r, later, check);
    QueueIsOpen(s.board, chosen, p);
    hide After, Inv, CheckWritten, Queue, OpenToChecks;
    if check in t.checks && OfQueue(t.checks[check], results) && p in t.board.posts {
      ChangedWasRead(t.board, t.checks[check], results, now, p);
    }
  }

  lemma QueueIsOpen(b: Board, chosen: set<int>, p: int)
    requires Inv(b)
    ensures p in Queue(b, chosen) <==> p in chosen && OpenToChecks(b, p)
    ensures p in Queue(b, chosen) ==> Queue(b, chosen)[p] == b.posts[p].reason
  {
    assert p in b.posts && b.posts[p].reason.Some? ==> b.posts[p].reason.value.Ghost? || b.posts[p].reason.value.Linkcheck?;
  }

  /** And it can change each of those: a dead link delists a listed posting, a live one lists a dead one again. */
  lemma AllOpenAreChecked(events: seq<Event>, check: int, chosen: set<int>, now: int, p: int)
    requires p in chosen && OpenToChecks(After(Empty, events).board, p)
    ensures var s := Step(After(Empty, events), ReadQueue(check, chosen));
      Changes(s, check, [Result(p, if s.board.posts[p].delistedAt.None? then Dead else Live)], now, p)
  {
    var b := After(Empty, events).board;
    var v := if b.posts[p].delistedAt.None? then Dead else Live;
    RunKeepsInv(Empty, events);
    QueueIsOpen(b, chosen, p);
    CheckMarksIff(b, Queue(b, chosen), [Result(p, v)], now, p);
    assert b.posts[p].reason.Some? ==> b.posts[p].reason.value.Ghost? || b.posts[p].reason.value.Linkcheck?;
    hide After, CheckWritten, Queue;
  }

  /** A check's snapshot is the one that it read, until it writes. */
  lemma {:induction false} SnapshotStays(s: State, events: seq<Event>, check: int)
    requires forall i :: 0 <= i < |events| ==> !(events[i].ReadQueue? && events[i].check == check)
    ensures check in After(s, events).checks ==> check in s.checks && After(s, events).checks[check] == s.checks[check]
    decreases events
  {
    if events != [] {
      assert !(events[0].ReadQueue? && events[0].check == check);
      assert forall i :: 0 <= i < |events[1..]| ==> events[1..][i] == events[i + 1];
      SnapshotStays(Step(s, events[0]), events[1..], check);
    }
  }

  /** In every run a posting is delisted exactly when it has a reason. */
  lemma DelistedIffReason(events: seq<Event>, p: int)
    requires p in After(Empty, events).board.posts
    ensures var post := After(Empty, events).board.posts[p]; post.delistedAt.Some? <==> post.reason.Some?
  {
    RunKeepsInv(Empty, events);
  }

  // ----------------------------------------------------------------------------------------
  // The passes on the tables
  // ----------------------------------------------------------------------------------------

  datatype Stats = Stats(polled: nat, absent: nat, delisted: nat, restored: nat)

  class Tables {
    var posts: map<int, Post>
    var sources: map<int, Source>
    ghost var history: seq<Pass>
    ghost var nextRow: int

    ghost function View(): Board
      reads this
    {
      Board(posts, sources, nextRow, history)
    }

    method Age(run: int, ok: set<string>)
      modifies this`sources, this`history
      ensures View() == AgedBoard(old(View()), run, ok)
    {
      history := history + [PassOf(View(), run, ok)];
      sources := map r | r in sources :: Aged(sources[r], run, ok);
    }

    method DelistGhosts(now: int) returns (changes: nat)
      modifies this`posts
      ensures View() == WithGhosts(old(View()), now)
      ensures changes == |set p | p in posts && posts[p] != old(posts)[p]|
    {
      var ghosts := set p | p in posts && (exists r :: r in sources && sources[r].posting == p)
                            && forall r :: r in sources && sources[r].posting == p ==> sources[r].absences >= THRESHOLD;
      assert forall p :: p in posts ==> (p in ghosts <==> IsGhost(View(), p));
      hide IsGhost;
      var before := posts;
      posts := map p | p in posts ::
        if posts[p].delistedAt.None? && p in ghosts then posts[p].(delistedAt := Some(now), reason := Some(Ghost)) else posts[p];
      changes := |set p | p in posts && posts[p] != before[p]|;
    }

    method RestoreReturned() returns (changes: nat)
      modifies this`posts
      ensures View() == WithReturned(old(View()))
      ensures changes == |set p | p in posts && posts[p] != old(posts)[p]|
    {
      var living := set p | p in posts && exists r :: r in sources && sources[r].posting == p && sources[r].absences < THRESHOLD;
      assert forall p :: p in posts ==> (p in living <==> HasLiveSource(View(), p));
      hide HasLiveSource;
      var before := posts;
      posts := map p | p in posts ::
        if posts[p].reason == Some(Ghost) && p in living then posts[p].(delistedAt := None, reason := None) else posts[p];
      changes := |set p | p in posts && posts[p] != before[p]|;
    }

    /** The four statements of the pass, each over the whole table. */
    method RunGhostPass(run: int, ok: set<string>, now: int) returns (stats: Stats)
      modifies this
      ensures View() == GhostPass(old(View()), run, ok, now)
      ensures ok != {} ==> stats.polled == |PassOf(old(View()), run, ok).judged|
      ensures ok != {} ==> stats.absent == |PassOf(old(View()), run, ok).judged - PassOf(old(View()), run, ok).seen|
    {
      stats := Stats(0, 0, 0, 0);
      if ok == {} {
        return;
      }
      var mine := set r | r in sources && sources[r].connector in ok;
      var absent := set r | r in mine && sources[r].lastRun != run;
      assert absent == PassOf(View(), run, ok).judged - PassOf(View(), run, ok).seen;
      hide AgedBoard, WithGhosts, WithReturned;
      Age(run, ok);
      var delisted := DelistGhosts(now);
      var restored := RestoreReturned();
      stats := Stats(|mine|, |absent|, delisted, restored);
    }

    /** The link check's transaction: one loop marks the dead, another restores its own marks. */
    method WriteCheck(prior: Snapshot, results: seq<Result>, now: int) returns (marked: nat, restored: nat)
      modifies this`posts
      ensures View() == CheckWritten(old(View()), prior, results, now)
    {
      marked, restored := 0, 0;
      for n := 0 to |results|
        invariant posts == AllMarked(old(posts), prior, results[..n], now)
      {
        var r := results[n];
        assert results[..n + 1][..n] == results[..n];
        if r.verdict.Dead? && !(r.id in prior && prior[r.id] == Some(Linkcheck)) {
          if r.id in posts && posts[r.id].delistedAt.None? {
            posts := posts[r.id := posts[r.id].(delistedAt := Some(now), reason := Some(Linkcheck))];
            marked := marked + 1;
          }
        }
      }
      assert results[..|results|] == results;
      ghost var dead := posts;
      for n := 0 to |results|
        invariant posts == AllRestored(dead, prior, results[..n])
      {
        var r := results[n];
        assert results[..n + 1][..n] == results[..n];
        if r.verdict.Live? && r.id in prior && prior[r.id] == Some(Linkcheck) {
          if r.id in posts && posts[r.id].reason == Some(Linkcheck) && posts[r.id].delistedAt.Some? {
            posts := posts[r.id := posts[r.id].(delistedAt := None, reason := None)];
            restored := restored + 1;
          }
        }
      }
    }
  }
}
