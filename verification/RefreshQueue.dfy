/**
 * The refresh queue shared by the site and its one writer (lib/refresh-queue.ts). Every statement is one step;
 * clients run on arbitrary clocks, interleave freely and may go away between any two statements. A partial
 * unique index allows one uncompleted request.
 */
module RefreshQueue {
  import opened Options

  const CLAIM_TIMEOUT_MS: int := 130 * 60 * 1000

  datatype Request = Request(requestedAt: int, claimedAt: Option<int>, completedAt: Option<int>)

  /** A visitor asking: about to insert, about to select the active request, or answered. */
  datatype Asker = Inserting | Selecting | Answered(id: int, queued: bool)

  /** A runner: free, having read a waiting request at its own time, or holding a claim. */
  datatype Runner = Free | Saw(id: int, seen: Option<int>, now: int) | Holding(id: int, claimedAt: int)

  datatype World = World(
    rows: map<int, Request>, next: int, askers: map<int, Asker>, runners: map<int, Runner>, completions: seq<int>)

  datatype Action =
    | Ask(a: int) | Insert(a: int, now: int) | Select(a: int)
    | Read(r: int, now: int, id: int) | Write(r: int) | Finish(r: int, now: int) | GoAway(r: int)

  predicate IsActive(rows: map<int, Request>, id: int) {
    id in rows && rows[id].completedAt.None?
  }

  predicate HasActive(rows: map<int, Request>) {
    exists id :: id in rows && IsActive(rows, id)
  }

  /** Nobody is acting on it: unclaimed, or claimed longer ago than the timeout, by this clock. */
  predicate IsWaiting(rows: map<int, Request>, id: int, now: int) {
    IsActive(rows, id) && (rows[id].claimedAt.None? || rows[id].claimedAt.value < now - CLAIM_TIMEOUT_MS)
  }

  /** `insert … on conflict do nothing`: the index refuses a second active request. */
  function Inserted(rows: map<int, Request>, id: int, now: int): map<int, Request> {
    if HasActive(rows) then rows else rows[id := Request(now, None, None)]
  }

  /** The conditional update of a claim: the row still uncompleted, and claimed as it was read. */
  function Claimed(rows: map<int, Request>, id: int, seen: Option<int>, now: int): map<int, Request> {
    if IsActive(rows, id) && rows[id].claimedAt == seen then rows[id := rows[id].(claimedAt := Some(now))] else rows
  }

  /** The conditional update of a completion: only for the claim the row still carries. */
  function Completed(rows: map<int, Request>, id: int, claimedAt: int, now: int): map<int, Request> {
    if IsActive(rows, id) && rows[id].claimedAt == Some(claimedAt) then rows[id := rows[id].(completedAt := Some(now))] else rows
  }

  /** One step; an action that cannot happen changes nothing. A select returns the active request `id`, if there is one. */
  function Step(w: World, act: Action): World {
    match act
    case Ask(a) => if a in w.askers then w else w.(askers := w.askers[a := Inserting])
    case Insert(a, now) =>
      if a !in w.askers || !w.askers[a].Inserting? then w
      else if HasActive(w.rows) then w.(askers := w.askers[a := Selecting])
      else w.(rows := Inserted(w.rows, w.next, now), next := w.next + 1, askers := w.askers[a := Answered(w.next, true)])
    case Select(a) =>
      if a !in w.askers || !w.askers[a].Selecting? then w
      else w.(askers := w.askers[a := if HasActive(w.rows) then Answered(ActiveId(w.rows), false) else Inserting])
    case Read(r, now, id) =>
      if (r in w.runners && !w.runners[r].Free?) || !IsWaiting(w.rows, id, now) then w
      else w.(runners := w.runners[r := Saw(id, w.rows[id].claimedAt, now)])
    case Write(r) =>
      if r !in w.runners || !w.runners[r].Saw? then w
      else
        var s := w.runners[r];
        var rows := Claimed(w.rows, s.id, s.seen, s.now);
        w.(rows := rows,
           runners := w.runners[r := if IsActive(w.rows, s.id) && w.rows[s.id].claimedAt == s.seen then Holding(s.id, s.now) else Free])
    case Finish(r, now) =>
      if r !in w.runners || !w.runners[r].Holding? then w
      else
        var h := w.runners[r];
        var rows := Completed(w.rows, h.id, h.claimedAt, now);
        w.(rows := rows, runners := w.runners[r := Free],
           completions := if rows != w.rows then w.completions + [h.id] else w.completions)
    case GoAway(r) => w.(runners := w.runners - {r})
  }

  function ActiveId(rows: map<int, Request>): (id: int)
    requires HasActive(rows)
  {
    LeastActive(rows, rows.Keys)
  }

  function LeastActive(rows: map<int, Request>, ids: set<int>): (id: int)
    requires ids <= rows.Keys && exists id :: id in ids && IsActive(rows, id)
    ensures IsActive(rows, id) && forall x :: x in ids && IsActive(rows, x) ==> id <= x
  {
    LeastExists(rows, ids);
    var id :| id in ids && IsActive(rows, id) && forall x :: x in ids && IsActive(rows, x) ==> id <= x;
    id
  }

  lemma {:induction false} LeastExists(rows: map<int, Request>, ids: set<int>)
    requires exists id :: id in ids && IsActive(rows, id)
    ensures exists id :: id in ids && IsActive(rows, id) && forall x :: x in ids && IsActive(rows, x) ==> id <= x
  {
    var a :| a in ids && IsActive(rows, a);
    var rest := ids - {a};
    if exists id :: id in rest && IsActive(rows, id) {
      LeastExists(rows, rest);
      var b :| b in rest && IsActive(rows, b) && forall x :: x in rest && IsActive(rows, x) ==> b <= x;
      var least := if a <= b then a else b;
      assert least in ids && IsActive(rows, least) && forall x :: x in ids && IsActive(rows, x) ==> least <= x;
    } else {
      assert forall x :: x in ids && IsActive(rows, x) ==> x in rest || x == a;
    }
  }

  function After(w: World, acts: seq<Action>): World
    decreases acts
  {
    if acts == [] then w else After(Step(w, acts[0]), acts[1..])
  }

  const Empty := World(map[], 1, map[], map[], [])

  // ----------------------------------------------------------------------------------------
  // Safety
  // ----------------------------------------------------------------------------------------

  ghost predicate OneActive(rows: map<int, Request>) {
    forall i, j :: IsActive(rows, i) && IsActive(rows, j) ==> i == j
  }

  /** A later claim, by more than the timeout when there was one before. */
  predicate ClaimsLater(a: Option<int>, b: Option<int>) {
    b.Some? && (a.Some? ==> a.value + CLAIM_TIMEOUT_MS < b.value)
  }

  predicate RunnerOk(rows: map<int, Request>, r: Runner) {
    match r
    case Free => true
    case Saw(id, seen, now) =>
      id in rows && (seen.Some? ==> seen.value < now - CLAIM_TIMEOUT_MS)
      && (rows[id].claimedAt == seen || ClaimsLater(seen, rows[id].claimedAt))
    case Holding(id, at) => id in rows && rows[id].claimedAt.Some? && at <= rows[id].claimedAt.value
  }

  ghost predicate Inv(w: World) {
    && OneActive(w.rows) && 1 <= w.next
    && (forall id :: id in w.rows <==> 1 <= id < w.next)
    && (forall id :: id in w.rows && w.rows[id].completedAt.Some? ==> w.rows[id].claimedAt.Some? && id in w.completions)
    && (forall r :: r in w.runners ==> RunnerOk(w.rows, w.runners[r]))
    && (forall r, s :: r in w.runners && s in w.runners && w.runners[r].Holding? && w.runners[r] == w.runners[s] ==> r == s)
    && (forall i :: 0 <= i < |w.completions| ==> w.completions[i] in w.rows && w.rows[w.completions[i]].completedAt.Some?)
    && (forall i, j :: 0 <= i < j < |w.completions| ==> w.completions[i] != w.completions[j])
  }

  lemma WriteKeepsInv(w: World, r: int)
    requires Inv(w)
    ensures Inv(Step(w, Write(r)))
  {
    if r in w.runners && w.runners[r].Saw? {
      var s := w.runners[r];
      assert RunnerOk(w.rows, s);
      var rows := Claimed(w.rows, s.id, s.seen, s.now);
      forall i | IsActive(rows, i)
        ensures IsActive(w.rows, i)
      {
      }
      forall q | q in w.runners && q != r
        ensures RunnerOk(rows, w.runners[q])
        ensures w.runners[q].Holding? && rows != w.rows ==> w.runners[q] != Holding(s.id, s.now)
      {
        assert RunnerOk(w.rows, w.runners[q]);
      }
    }
  }

  lemma FinishKeepsInv(w: World, r: int, now: int)
    requires Inv(w)
    ensures Inv(Step(w, Finish(r, now)))
  {
    if r in w.runners && w.runners[r].Holding? {
      var t := Step(w, Finish(r, now));
      forall i | IsActive(t.rows, i)
        ensures IsActive(w.rows, i)
      {
      }
      forall q | q in t.runners
        ensures RunnerOk(t.rows, t.runners[q])
      {
        assert RunnerOk(w.rows, w.runners[q]);
      }
    }
  }

  lemma InsertKeepsInv(w: World, a: int, now: int)
    requires Inv(w)
    ensures Inv(Step(w, Insert(a, now)))
  {
    var t := Step(w, Insert(a, now));
    forall q | q in t.runners
      ensures RunnerOk(t.rows, t.runners[q])
    {
      assert RunnerOk(w.rows, w.runners[q]);
    }
  }

  lemma StepKeepsInv(w: World, act: Action)
    requires Inv(w)
    ensures Inv(Step(w, act))
  {
    match act
    case Write(r) => WriteKeepsInv(w, r);
    case Finish(r, now) => FinishKeepsInv(w, r, now);
    case Insert(a, now) => InsertKeepsInv(w, a, now);
    case _ =>
  }

  lemma {:induction false} RunKeepsInv(w: World, acts: seq<Action>)
    requires Inv(w)
    ensures Inv(After(w, acts))
    decreases acts
  {
    if acts != [] {
      StepKeepsInv(w, acts[0]);
      RunKeepsInv(Step(w, acts[0]), acts[1..]);
    }
  }

  /**
   * In every run: at most one request is uncompleted, the others have completed exactly once, ids are given in order, and
   * no claim is held twice.
   */
  lemma QueueIsSafe(acts: seq<Action>)
    ensures var w := After(Empty, acts);
      && OneActive(w.rows) && (forall id :: id in w.rows <==> 1 <= id < w.next)
      && (forall id :: id in w.completions <==> id in w.rows && w.rows[id].completedAt.Some?)
      && (forall i, j :: 0 <= i < j < |w.completions| ==> w.completions[i] != w.completions[j])
      && (forall r, s :: r in w.runners && s in w.runners && w.runners[r].Holding? && w.runners[r] == w.runners[s] ==> r == s)
  {
    RunKeepsInv(Empty, acts);
  }

  /**
   * What one step of a run may do to a request: nothing, to a completed one; else a claim later than the last by
   * more than the timeout, or a completion. None is deleted.
   */
  lemma RequestsOnlyAdvance(w: World, act: Action, id: int)
    requires Inv(w) && id in w.rows
    ensures var a, t := w.rows[id], Step(w, act);
      && id in t.rows
      && (a.completedAt.Some? ==> t.rows[id] == a)
      && (t.rows[id] == a
          || (t.rows[id].completedAt.None? && ClaimsLater(a.claimedAt, t.rows[id].claimedAt))
          || (t.rows[id].completedAt.Some? && t.rows[id].claimedAt == a.claimedAt && a.claimedAt.Some?))
  {
    if act.Write? && act.r in w.runners {
      assert RunnerOk(w.rows, w.runners[act.r]);
    }
  }

  /** A runner whose claim was taken over finishes nothing, and one finish of a claim is the only one that counts. */
  lemma SupersededFinishIsIgnored(w: World, r: int, now: int)
    requires Inv(w) && r in w.runners && w.runners[r].Holding?
    ensures var h := w.runners[r];
      (Step(w, Finish(r, now)).rows != w.rows <==> IsActive(w.rows, h.id) && w.rows[h.id].claimedAt == Some(h.claimedAt))
    ensures Step(w, Finish(r, now)).rows != w.rows ==>
              forall s :: s in w.runners && s != r && w.runners[s].Holding? && w.runners[s].id == w.runners[r].id ==>
                w.runners[s].claimedAt < w.runners[r].claimedAt
  {
    var h := w.runners[r];
    if IsActive(w.rows, h.id) && w.rows[h.id].claimedAt == Some(h.claimedAt) {
      assert Step(w, Finish(r, now)).rows[h.id].completedAt.Some?;
      forall s | s in w.runners && s != r && w.runners[s].Holding? && w.runners[s].id == h.id
        ensures w.runners[s].claimedAt < h.claimedAt
      {
        assert RunnerOk(w.rows, w.runners[s]);
        assert w.runners[s] != w.runners[r];
      }
    }
  }

  /** Whoever asks is answered with the request that was active then: a new one exactly when none was. */
  lemma AskersShareTheActiveRequest(w: World, act: Action, a: int)
    requires Inv(w) && a in w.askers && !w.askers[a].Answered? && Step(w, act).askers[a].Answered?
    ensures var t := Step(w, act);
      && IsActive(t.rows, t.askers[a].id)
      && (t.askers[a].queued <==> !HasActive(w.rows))
      && (forall id :: IsActive(t.rows, id) ==> id == t.askers[a].id)
  {
    StepKeepsInv(w, act);
  }

  /** A step changes the asker or runner whose step it is and no other; a runner that goes away leaves the rows as they are. */
  lemma StepIsLocal(w: World, act: Action)
    ensures var t := Step(w, act);
      && (forall a :: a in w.askers && act != Ask(a) && !(act.Insert? && act.a == a) && act != Select(a) ==>
            a in t.askers && t.askers[a] == w.askers[a])
      && (forall r :: r in w.runners && !((act.Read? || act.Write? || act.Finish? || act.GoAway?) && act.r == r) ==>
            r in t.runners && t.runners[r] == w.runners[r])
      && (act.GoAway? ==> act.r !in t.runners && t == w.(runners := t.runners))
  {
  }

  /**
   * An asker that nobody disturbs is answered: with a new request when none is active, else with the active one. Should that
   * one complete before it is read, the asker's next insert answers.
   */
  lemma AskerAloneIsAnswered(w: World, a: int, now: int)
    requires Inv(w)
    ensures a !in w.askers ==>
      var t := After(w, [Ask(a), Insert(a, now), Select(a)]);
      && a in t.askers && t.askers[a].Answered? && IsActive(t.rows, t.askers[a].id)
      && (t.askers[a].queued <==> !HasActive(w.rows))
      && t.rows == if t.askers[a].queued then w.rows[w.next := Request(now, None, None)] else w.rows
    ensures a in w.askers && w.askers[a].Selecting? ==>
      var t := After(w, [Select(a), Insert(a, now)]);
      a in t.askers && t.askers[a].Answered? && IsActive(t.rows, t.askers[a].id)
  {
    Three(w, Ask(a), Insert(a, now), Select(a));
    Two(w, Select(a), Insert(a, now));
  }

  lemma Two(w: World, x: Action, y: Action)
    ensures After(w, [x, y]) == Step(Step(w, x), y)
  {
    hide Step;
    assert [x, y][1..] == [y] && [y][1..] == [];
    assert After(Step(w, x), [y]) == Step(Step(w, x), y);
  }

  lemma Three(w: World, x: Action, y: Action, z: Action)
    ensures After(w, [x, y, z]) == Step(Step(Step(w, x), y), z)
  {
    hide Step;
    assert [x, y, z][1..] == [y, z];
    Two(Step(w, x), y, z);
  }

  /** Uncompleted, and either unclaimed or claimed more than 130 minutes ago. */
  predicate Waits(w: World, id: int, now: int) {
    && id in w.rows && w.rows[id].completedAt.None?
    && (w.rows[id].claimedAt.Some? ==> w.rows[id].claimedAt.value + 7800000 < now)
  }

  predicate IsIdle(w: World, r: int) {
    r in w.runners ==> w.runners[r].Free?
  }

  /** A runner that nobody disturbs claims and completes a request exactly when it waits; else it does nothing. */
  lemma WaitingIsServedIff(w: World, r: int, id: int, now: int, later: int)
    requires Inv(w) && IsIdle(w, r)
    ensures var s, t := After(w, [Read(r, now, id), Write(r)]), After(w, [Read(r, now, id), Write(r), Finish(r, later)]);
      if Waits(w, id, now) then
        && r in s.runners && s.runners[r] == Holding(id, now)
        && r in t.runners && t.runners[r].Free? && t.completions == w.completions + [id]
        && t.rows == w.rows[id := Request(w.rows[id].requestedAt, Some(now), Some(later))]
      else s == w && t == w
  {
    Two(w, Read(r, now, id), Write(r));
    Three(w, Read(r, now, id), Write(r), Finish(r, later));
  }

  /** Of two runners that read the same waiting request, the first to write has it, and the other none. */
  lemma FirstWriterClaims(w: World, r: int, s: int, id: int, now: int, other: int)
    requires Inv(w) && r != s && IsIdle(w, r) && IsIdle(w, s) && Waits(w, id, now) && Waits(w, id, other)
    ensures var read := After(w, [Read(r, now, id), Read(s, other, id)]);
      var t := After(read, [Write(r), Write(s)]);
      && r in t.runners && t.runners[r] == Holding(id, now) && s in t.runners && t.runners[s].Free?
      && t.rows == w.rows[id := w.rows[id].(claimedAt := Some(now))]
  {
    Two(w, Read(r, now, id), Read(s, other, id));
    Two(After(w, [Read(r, now, id), Read(s, other, id)]), Write(r), Write(s));
  }

  /** The table, updated by one conditional statement at a time. */
  class Table {
    var rows: map<int, Request>
    var next: int

    method RequestRefresh(now: int) returns (id: int, queued: bool)
      modifies this
      ensures rows == Inserted(old(rows), old(next), now) && next == old(next) + (if queued then 1 else 0)
      ensures queued <==> !HasActive(old(rows))
      ensures IsActive(rows, id)
    {
      if HasActive(rows) {
        return ActiveId(rows), false;
      }
      rows := rows[next := Request(now, None, None)];
      next := next + 1;
      return next - 1, true;
    }

    /** A claim read and written without interruption. */
    method ClaimRequest(now: int) returns (claim: Option<int>)
      modifies this`rows
      ensures claim.Some? <==> HasActive(old(rows)) && IsWaiting(old(rows), ActiveId(old(rows)), now)
      ensures claim.Some? ==> claim.value in old(rows)
      ensures rows == if claim.Some? then Claimed(old(rows), claim.value, old(rows[claim.value].claimedAt), now) else old(rows)
      ensures claim.Some? ==> claim.value in rows && rows[claim.value].claimedAt == Some(now)
    {
      claim := None;
      if HasActive(rows) {
        var id := ActiveId(rows);
        if IsWaiting(rows, id, now) {
          rows := rows[id := rows[id].(claimedAt := Some(now))];
          claim := Some(id);
        }
      }
    }

    method FinishRequest(id: int, claimedAt: int, now: int)
      modifies this`rows
      ensures rows == Completed(old(rows), id, claimedAt, now)
    {
      if id in rows && rows[id].completedAt.None? && rows[id].claimedAt == Some(claimedAt) {
        rows := rows[id := rows[id].(completedAt := Some(now))];
      }
    }
  }
}
