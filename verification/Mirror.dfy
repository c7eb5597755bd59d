/**
 * Mirroring the local corpus to the hosted database by content hash, and pulling it back
 * (scripts/push-remote.ts, scripts/pull-remote.ts). A push is a list of statements, and may be
 * interrupted between any two of them. Rows come out of a table in any order.
 *
 * A hash is the tuple that is hashed. The remote's unique indexes are not modelled; its foreign key is.
 */
module Mirror {
  import opened Options

  datatype Table = Postings | Sources | Runs

  /** `content` stands for the columns that count, `volatile` for those that do not; `parent` is a source's posting. */
  datatype Row = Row(content: int, volatile: int, parent: int)

  type Rows = map<int, Row>

  datatype Db = Db(postings: Rows, sources: Rows, runs: Rows)

  datatype Hash = Hash(content: int, parent: int)

  /** The two databases and `mirror_state`: the hash of each row last recorded as pushed. */
  datatype World = World(local: Db, remote: Db, recorded: map<(Table, int), Hash>)

  function Get(db: Db, t: Table): Rows {
    match t
    case Postings => db.postings
    case Sources => db.sources
    case Runs => db.runs
  }

  function Put(db: Db, t: Table, rows: Rows): Db {
    match t
    case Postings => db.(postings := rows)
    case Sources => db.(sources := rows)
    case Runs => db.(runs := rows)
  }

  function HashOf(r: Row): Hash {
    Hash(r.content, r.parent)
  }

  // ----------------------------------------------------------------------------------------
  // A push, statement by statement
  // ----------------------------------------------------------------------------------------

  datatype Stmt =
    | Delete(t: Table, ids: seq<int>)
    | Upsert(t: Table, ids: seq<int>)
    | Record(t: Table, id: int)
    | Forget(t: Table, id: int)

  const BATCH: nat := 100

  /** A delete takes the remote's source rows of a deleted posting with it. */
  function Erased(db: Db, t: Table, ids: set<int>): Db {
    if t.Postings? then
      db.(postings := db.postings - ids,
          sources := map id | id in db.sources && db.sources[id].parent !in ids :: db.sources[id])
    else Put(db, t, Get(db, t) - ids)
  }

  function Copied(rows: Rows, from: Rows, ids: set<int>): Rows {
    map id | id in rows.Keys + (ids * from.Keys) :: if id in ids && id in from then from[id] else rows[id]
  }

  function Elements(ids: seq<int>): set<int> {
    set i | 0 <= i < |ids| :: ids[i]
  }

  function Exec(w: World, s: Stmt): World {
    match s
    case Delete(t, ids) => w.(remote := Erased(w.remote, t, Elements(ids)))
    case Upsert(t, ids) => w.(remote := Put(w.remote, t, Copied(Get(w.remote, t), Get(w.local, t), Elements(ids))))
    case Record(t, id) =>
      if id in Get(w.local, t) then w.(recorded := w.recorded[(t, id) := HashOf(Get(w.local, t)[id])]) else w
    case Forget(t, id) => w.(recorded := w.recorded - {(t, id)})
  }

  /** An upsert of a source whose posting the remote lacks violates its foreign key, and the push fails. */
  predicate Fails(w: World, s: Stmt) {
    s.Upsert? && s.t.Sources? &&
    exists i :: 0 <= i < |s.ids| && s.ids[i] in w.local.sources && w.local.sources[s.ids[i]].parent !in w.remote.postings
  }

  function Run(w: World, stmts: seq<Stmt>): World
    decreases |stmts|
  {
    if stmts == [] || Fails(w, stmts[0]) then w else Run(Exec(w, stmts[0]), stmts[1..])
  }

  function Slice(ids: seq<int>): seq<int> {
    if |ids| <= BATCH then ids else ids[..BATCH]
  }

  function Deletes(t: Table, ids: seq<int>): seq<Stmt>
    decreases |ids|
  {
    if ids == [] then [] else [Delete(t, Slice(ids))] + Deletes(t, ids[|Slice(ids)|..])
  }

  function Records(t: Table, ids: seq<int>): seq<Stmt> {
    if ids == [] then [] else [Record(t, ids[0])] + Records(t, ids[1..])
  }

  function Upserts(t: Table, ids: seq<int>): seq<Stmt>
    decreases |ids|
  {
    if ids == [] then [] else [Upsert(t, Slice(ids))] + Records(t, Slice(ids)) + Upserts(t, ids[|Slice(ids)|..])
  }

  function Forgets(t: Table, ids: seq<int>): seq<Stmt> {
    if ids == [] then [] else [Forget(t, ids[0])] + Forgets(t, ids[1..])
  }

  /** What a push finds in one table: remote rows without a local one, changed local rows, and records of gone rows. */
  datatype Part = Part(strays: seq<int>, changed: seq<int>, gone: seq<int>)

  datatype Plan = Plan(postings: Part, sources: Part, runs: Part)

  predicate IsChanged(w: World, t: Table, id: int) {
    id in Get(w.local, t) && ((t, id) in w.recorded ==> w.recorded[(t, id)] != HashOf(Get(w.local, t)[id]))
  }

  ghost predicate PartFor(w: World, t: Table, p: Part) {
    && (forall id :: id in Elements(p.strays) <==> id in Get(w.remote, t) && id !in Get(w.local, t))
    && (forall id :: id in Elements(p.changed) <==> IsChanged(w, t, id))
    && (forall id :: id in Elements(p.gone) <==> (t, id) in w.recorded && id !in Get(w.local, t))
  }

  ghost predicate PlanFor(w: World, plan: Plan) {
    PartFor(w, Postings, plan.postings) && PartFor(w, Sources, plan.sources) && PartFor(w, Runs, plan.runs)
  }

  function Mirroring(t: Table, p: Part): seq<Stmt> {
    Upserts(t, p.changed) + Forgets(t, p.gone)
  }

  /** Strays go children first; changed rows are sent parents first. */
  function Program(plan: Plan): seq<Stmt> {
    Deletes(Runs, plan.runs.strays) + Deletes(Sources, plan.sources.strays) + Deletes(Postings, plan.postings.strays)
    + Mirroring(Postings, plan.postings) + Mirroring(Sources, plan.sources) + Mirroring(Runs, plan.runs)
  }

  // ----------------------------------------------------------------------------------------
  // Convergence
  // ----------------------------------------------------------------------------------------

  /** The remote has the row with the columns that count. */
  predicate Matches(w: World, t: Table, id: int) {
    id in Get(w.local, t) && id in Get(w.remote, t) && HashOf(Get(w.remote, t)[id]) == HashOf(Get(w.local, t)[id])
  }

  /** Every local row that looks pushed is on the remote. */
  ghost predicate Good(w: World) {
    forall t, id :: id in Get(w.local, t) && !IsChanged(w, t, id) ==> Matches(w, t, id)
  }

  /** The remote has exactly the local rows, and each is recorded as pushed. */
  ghost predicate Synced(w: World) {
    && (forall t, id :: id in Get(w.local, t) <==> id in Get(w.remote, t))
    && (forall t, id :: id in Get(w.local, t) ==> Matches(w, t, id))
    && (forall t, id :: id in Get(w.local, t) <==> (t, id) in w.recorded)
    && (forall t, id :: id in Get(w.local, t) ==> w.recorded[(t, id)] == HashOf(Get(w.local, t)[id]))
  }

  /** Every source has its posting. */
  ghost predicate NoOrphans(db: Db) {
    forall id :: id in db.sources ==> db.sources[id].parent in db.postings
  }

  /** A statement a push may issue when it issues it: nothing local is deleted, and a record follows its row. */
  ghost predicate Sound(w: World, s: Stmt) {
    match s
    case Delete(t, ids) => forall id :: id in Elements(ids) ==> id !in Get(w.local, t)
    case Upsert(t, ids) => true
    case Record(t, id) => Matches(w, t, id)
    case Forget(t, id) => id !in Get(w.local, t)
  }

  /** Every statement is sound, and succeeds, in the state it runs in. */
  ghost predicate AllSound(w: World, stmts: seq<Stmt>)
    decreases |stmts|
  {
    stmts == [] || (Sound(w, stmts[0]) && !Fails(w, stmts[0]) && AllSound(Exec(w, stmts[0]), stmts[1..]))
  }

  lemma SoundKeepsGood(w: World, s: Stmt)
    requires Good(w) && NoOrphans(w.local) && Sound(w, s)
    ensures Good(Exec(w, s)) && Exec(w, s).local == w.local
  {
    var u := Exec(w, s);
    forall t, id | id in Get(u.local, t) && !IsChanged(u, t, id)
      ensures Matches(u, t, id)
    {
      if s == Record(t, id) {
      } else {
        assert !IsChanged(w, t, id);
        assert Matches(w, t, id);
      }
    }
  }

  lemma {:induction false} RunConcat(w: World, a: seq<Stmt>, b: seq<Stmt>)
    requires AllSound(w, a)
    ensures Run(w, a + b) == Run(Run(w, a), b)
    ensures AllSound(Run(w, a), b) ==> AllSound(w, a + b)
    decreases |a|
  {
    if a == [] {
      assert a + b == b;
    } else {
      assert (a + b)[1..] == a[1..] + b;
      RunConcat(Exec(w, a[0]), a[1..], b);
    }
  }

  /** However far a sound program runs, what looks pushed is on the remote. */
  lemma {:induction false} PrefixKeepsGood(w: World, stmts: seq<Stmt>, k: nat)
    requires Good(w) && NoOrphans(w.local) && AllSound(w, stmts) && k <= |stmts|
    ensures Good(Run(w, stmts[..k])) && Run(w, stmts[..k]).local == w.local
    decreases k
  {
    if k > 0 {
      SoundKeepsGood(w, stmts[0]);
      assert stmts[..k][1..] == stmts[1..][..k - 1];
      PrefixKeepsGood(Exec(w, stmts[0]), stmts[1..], k - 1);
    }
  }

  // ----------------------------------------------------------------------------------------
  // What each part of a push does
  // ----------------------------------------------------------------------------------------

  lemma ElementsSplit(ids: seq<int>, n: nat)
    requires n <= |ids|
    ensures Elements(ids) == Elements(ids[..n]) + Elements(ids[n..])
  {
    forall id | id in Elements(ids)
      ensures id in Elements(ids[..n]) + Elements(ids[n..])
    {
      var i :| 0 <= i < |ids| && ids[i] == id;
      if i < n {
        assert ids[..n][i] == id;
      } else {
        assert ids[n..][i - n] == id;
      }
    }
  }

  lemma ErasedTwice(db: Db, t: Table, a: set<int>, b: set<int>)
    ensures Erased(Erased(db, t, a), t, b) == Erased(db, t, a + b)
  {
  }

  lemma CopiedTwice(rows: Rows, from: Rows, a: set<int>, b: set<int>)
    ensures Copied(Copied(rows, from, a), from, b) == Copied(rows, from, a + b)
  {
  }

  lemma {:induction false} DeletesRun(w: World, t: Table, ids: seq<int>)
    requires forall id :: id in Elements(ids) ==> id !in Get(w.local, t)
    ensures AllSound(w, Deletes(t, ids))
    ensures Run(w, Deletes(t, ids)) == w.(remote := Erased(w.remote, t, Elements(ids)))
    decreases |ids|
  {
    if ids != [] {
      var n := |Slice(ids)|;
      ElementsSplit(ids, n);
      assert Slice(ids) == ids[..n];
      var u := Exec(w, Delete(t, Slice(ids)));
      DeletesRun(u, t, ids[n..]);
      ErasedTwice(w.remote, t, Elements(ids[..n]), Elements(ids[n..]));
      assert Deletes(t, ids)[1..] == Deletes(t, ids[n..]);
    } else {
      assert Elements(ids) == {};
      assert Erased(w.remote, t, {}) == w.remote;
    }
  }

  function Noted(recorded: map<(Table, int), Hash>, t: Table, rows: Rows, ids: set<int>): map<(Table, int), Hash> {
    map k | k in recorded.Keys + (set id | id in ids && id in rows :: (t, id)) ::
      if k.0 == t && k.1 in ids && k.1 in rows then HashOf(rows[k.1]) else recorded[k]
  }

  lemma NotedTwice(recorded: map<(Table, int), Hash>, t: Table, rows: Rows, a: set<int>, b: set<int>)
    ensures Noted(Noted(recorded, t, rows, a), t, rows, b) == Noted(recorded, t, rows, a + b)
  {
  }

  lemma NotedOne(recorded: map<(Table, int), Hash>, t: Table, rows: Rows, id: int)
    requires id in rows
    ensures Noted(recorded, t, rows, {id}) == recorded[(t, id) := HashOf(rows[id])]
  {
  }

  lemma {:induction false} RecordsRun(w: World, t: Table, ids: seq<int>)
    requires forall id :: id in Elements(ids) ==> Matches(w, t, id)
    ensures AllSound(w, Records(t, ids))
    ensures Run(w, Records(t, ids)) == w.(recorded := Noted(w.recorded, t, Get(w.local, t), Elements(ids)))
    decreases |ids|
  {
    if ids != [] {
      ElementsSplit(ids, 1);
      assert Elements(ids[..1]) == {ids[0]};
      assert ids[0] in Elements(ids);
      var u := Exec(w, Record(t, ids[0]));
      NotedOne(w.recorded, t, Get(w.local, t), ids[0]);
      forall id | id in Elements(ids[1..])
        ensures Matches(u, t, id)
      {
        assert Matches(w, t, id);
      }
      RecordsRun(u, t, ids[1..]);
      NotedTwice(w.recorded, t, Get(w.local, t), {ids[0]}, Elements(ids[1..]));
      assert Records(t, ids)[1..] == Records(t, ids[1..]);
    } else {
      assert Elements(ids) == {};
      assert Noted(w.recorded, t, Get(w.local, t), {}) == w.recorded;
    }
  }

  /** A table's changed rows copied to the remote and recorded. */
  function Sent(w: World, t: Table, ids: set<int>): World {
    w.(remote := Put(w.remote, t, Copied(Get(w.remote, t), Get(w.local, t), ids)),
       recorded := Noted(w.recorded, t, Get(w.local, t), ids))
  }

  /** Rows that can be sent: local, and for sources with their postings on the remote. */
  predicate CanSend(w: World, t: Table, ids: set<int>) {
    forall id :: id in ids ==>
      id in Get(w.local, t) && (t.Sources? ==> Get(w.local, t)[id].parent in w.remote.postings)
  }

  lemma SliceRun(w: World, t: Table, ids: seq<int>)
    requires CanSend(w, t, Elements(ids))
    ensures var stmts := [Upsert(t, ids)] + Records(t, ids);
      AllSound(w, stmts) && Run(w, stmts) == Sent(w, t, Elements(ids))
  {
    var u := Exec(w, Upsert(t, ids));
    if t.Sources? {
      forall i | 0 <= i < |ids|
        ensures ids[i] in w.local.sources && w.local.sources[ids[i]].parent in w.remote.postings
      {
        var id := ids[i];
        assert id in Elements(ids);
        assert id in Get(w.local, Sources) && Get(w.local, Sources)[id].parent in w.remote.postings;
      }
    }
    forall id | id in Elements(ids)
      ensures Matches(u, t, id)
    {
      assert id in Get(w.local, t);
    }
    RecordsRun(u, t, ids);
    assert ([Upsert(t, ids)] + Records(t, ids))[1..] == Records(t, ids);
  }

  lemma SentTwice(w: World, t: Table, a: set<int>, b: set<int>)
    ensures Sent(Sent(w, t, a), t, b) == Sent(w, t, a + b)
  {
    CopiedTwice(Get(w.remote, t), Get(w.local, t), a, b);
    NotedTwice(w.recorded, t, Get(w.local, t), a, b);
  }

  lemma {:induction false} UpsertsRun(w: World, t: Table, ids: seq<int>)
    requires CanSend(w, t, Elements(ids))
    ensures AllSound(w, Upserts(t, ids)) && Run(w, Upserts(t, ids)) == Sent(w, t, Elements(ids))
    decreases |ids|
  {
    if ids != [] {
      var n := |Slice(ids)|;
      ElementsSplit(ids, n);
      assert Slice(ids) == ids[..n];
      var first := [Upsert(t, ids[..n])] + Records(t, ids[..n]);
      SliceRun(w, t, ids[..n]);
      var u := Sent(w, t, Elements(ids[..n]));
      SentCanSend(w, t, Elements(ids[..n]), Elements(ids[n..]));
      UpsertsRun(u, t, ids[n..]);
      SentTwice(w, t, Elements(ids[..n]), Elements(ids[n..]));
      RunConcat(w, first, Upserts(t, ids[n..]));
      assert Upserts(t, ids) == first + Upserts(t, ids[n..]);
    } else {
      assert Elements(ids) == {};
      assert Sent(w, t, {}) == w;
    }
  }

  lemma SentCanSend(w: World, t: Table, a: set<int>, b: set<int>)
    requires CanSend(w, t, a + b)
    ensures CanSend(Sent(w, t, a), t, b)
  {
  }

  function Forgotten(recorded: map<(Table, int), Hash>, t: Table, ids: set<int>): map<(Table, int), Hash> {
    map k | k in recorded && !(k.0 == t && k.1 in ids) :: recorded[k]
  }

  lemma {:induction false} ForgetsRun(w: World, t: Table, ids: seq<int>)
    requires forall id :: id in Elements(ids) ==> id !in Get(w.local, t)
    ensures AllSound(w, Forgets(t, ids))
    ensures Run(w, Forgets(t, ids)) == w.(recorded := Forgotten(w.recorded, t, Elements(ids)))
    decreases |ids|
  {
    if ids != [] {
      ElementsSplit(ids, 1);
      assert Elements(ids[..1]) == {ids[0]};
      assert ids[0] in Elements(ids);
      var u := Exec(w, Forget(t, ids[0]));
      ForgetsRun(u, t, ids[1..]);
      assert Forgotten(Forgotten(w.recorded, t, {ids[0]}), t, Elements(ids[1..])) == Forgotten(w.recorded, t, Elements(ids));
      assert u.recorded == Forgotten(w.recorded, t, {ids[0]});
      assert Forgets(t, ids)[1..] == Forgets(t, ids[1..]);
    } else {
      assert Elements(ids) == {};
      assert Forgotten(w.recorded, t, {}) == w.recorded;
    }
  }

  // ----------------------------------------------------------------------------------------
  // A whole push
  // ----------------------------------------------------------------------------------------

  /** One table mirrored: its changed rows sent and the records of gone rows forgotten. */
  function Mirrored(w: World, t: Table, p: Part): World {
    var u := Sent(w, t, Elements(p.changed));
    u.(recorded := Forgotten(u.recorded, t, Elements(p.gone)))
  }

  lemma MirroringRun(w: World, t: Table, p: Part)
    requires CanSend(w, t, Elements(p.changed))
    requires forall id :: id in Elements(p.gone) ==> id !in Get(w.local, t)
    ensures AllSound(w, Mirroring(t, p)) && Run(w, Mirroring(t, p)) == Mirrored(w, t, p)
  {
    UpsertsRun(w, t, p.changed);
    ForgetsRun(Sent(w, t, Elements(p.changed)), t, p.gone);
    RunConcat(w, Upserts(t, p.changed), Forgets(t, p.gone));
  }

  /** The remote once its strays are gone. */
  function Cleared(w: World, plan: Plan): World {
    w.(remote := Erased(Erased(Erased(w.remote, Runs, Elements(plan.runs.strays)),
                               Sources, Elements(plan.sources.strays)), Postings, Elements(plan.postings.strays)))
  }

  lemma ClearingRun(w: World, plan: Plan)
    requires PlanFor(w, plan)
    ensures var stmts := Deletes(Runs, plan.runs.strays) + Deletes(Sources, plan.sources.strays) + Deletes(Postings, plan.postings.strays);
      AllSound(w, stmts) && Run(w, stmts) == Cleared(w, plan)
  {
    var a, b, c := Deletes(Runs, plan.runs.strays), Deletes(Sources, plan.sources.strays), Deletes(Postings, plan.postings.strays);
    DeletesRun(w, Runs, plan.runs.strays);
    var u := Run(w, a);
    DeletesRun(u, Sources, plan.sources.strays);
    var v := Run(u, b);
    DeletesRun(v, Postings, plan.postings.strays);
    RunConcat(w, a, b);
    RunConcat(w, a + b, c);
  }

  function Pushed(w: World, plan: Plan): World {
    Mirrored(Mirrored(Mirrored(Cleared(w, plan), Postings, plan.postings), Sources, plan.sources), Runs, plan.runs)
  }

  lemma SoundRunKeepsGood(w: World, stmts: seq<Stmt>)
    requires Good(w) && NoOrphans(w.local) && AllSound(w, stmts)
    ensures Good(Run(w, stmts)) && Run(w, stmts).local == w.local
  {
    assert stmts[..|stmts|] == stmts;
    PrefixKeepsGood(w, stmts, |stmts|);
  }

  /** After the postings are mirrored, each local posting is on the remote. */
  lemma PostingsArrive(w: World, plan: Plan)
    requires Good(w) && NoOrphans(w.local) && PlanFor(w, plan)
    ensures var u := Mirrored(Cleared(w, plan), Postings, plan.postings);
      (forall id :: id in w.local.postings ==> id in u.remote.postings) && CanSend(u, Sources, Elements(plan.sources.changed))
  {
    var u := Mirrored(Cleared(w, plan), Postings, plan.postings);
    forall id | id in w.local.postings
      ensures id in u.remote.postings
    {
      if !IsChanged(w, Postings, id) {
        assert Matches(w, Postings, id);
      }
    }
  }

  /** From a good state a whole push runs to its end. */
  lemma ProgramRun(w: World, plan: Plan)
    requires Good(w) && NoOrphans(w.local) && PlanFor(w, plan)
    ensures AllSound(w, Program(plan)) && Run(w, Program(plan)) == Pushed(w, plan)
  {
    var clear := Deletes(Runs, plan.runs.strays) + Deletes(Sources, plan.sources.strays) + Deletes(Postings, plan.postings.strays);
    ClearingRun(w, plan);
    var w0 := Cleared(w, plan);
    MirroringRun(w0, Postings, plan.postings);
    var w1 := Mirrored(w0, Postings, plan.postings);
    PostingsArrive(w, plan);
    MirroringRun(w1, Sources, plan.sources);
    var w2 := Mirrored(w1, Sources, plan.sources);
    MirroringRun(w2, Runs, plan.runs);
    RunConcat(w, clear, Mirroring(Postings, plan.postings));
    RunConcat(w, clear + Mirroring(Postings, plan.postings), Mirroring(Sources, plan.sources));
    RunConcat(w, clear + Mirroring(Postings, plan.postings) + Mirroring(Sources, plan.sources), Mirroring(Runs, plan.runs));
  }

  /** A push interrupted anywhere leaves the state good. */
  lemma InterruptedPushKeepsGood(w: World, plan: Plan, k: nat)
    requires Good(w) && NoOrphans(w.local) && PlanFor(w, plan) && k <= |Program(plan)|
    ensures Good(Run(w, Program(plan)[..k])) && Run(w, Program(plan)[..k]).local == w.local
  {
    ProgramRun(w, plan);
    PrefixKeepsGood(w, Program(plan), k);
  }

  /** A whole push from a good state leaves exactly the local rows, each recorded. */
  lemma WholePushSyncs(w: World, plan: Plan)
    requires Good(w) && NoOrphans(w.local) && PlanFor(w, plan)
    ensures Synced(Run(w, Program(plan))) && Run(w, Program(plan)).local == w.local
  {
    ProgramRun(w, plan);
    var u := Pushed(w, plan);
    SoundRunKeepsGood(w, Program(plan));
    forall t, id
      ensures id in Get(u.local, t) <==> (t, id) in u.recorded
      ensures id in Get(u.local, t) ==> u.recorded[(t, id)] == HashOf(Get(u.local, t)[id])
      ensures id in Get(u.remote, t) ==> id in Get(u.local, t)
    {
      RowPushed(w, plan, t, id);
    }
    forall t, id | id in Get(u.local, t)
      ensures Matches(u, t, id)
    {
      assert !IsChanged(u, t, id);
    }
  }

  lemma RowPushed(w: World, plan: Plan, t: Table, id: int)
    requires PlanFor(w, plan)
    ensures var u := Pushed(w, plan);
      && (id in Get(u.local, t) <==> (t, id) in u.recorded)
      && (id in Get(u.local, t) ==> u.recorded[(t, id)] == HashOf(Get(u.local, t)[id]))
      && (id in Get(u.remote, t) ==> id in Get(u.local, t))
  {
    RowRecorded(w, plan, t, id);
    RowKept(w, plan, t, id);
  }

  /** The records of one table are right: each local row's and no other. */
  predicate RecordsOk(w: World, t: Table, id: int) {
    && (id in Get(w.local, t) <==> (t, id) in w.recorded)
    && (id in Get(w.local, t) ==> w.recorded[(t, id)] == HashOf(Get(w.local, t)[id]))
  }

  ghost predicate SameRecords(w: World, v: World, t: Table) {
    v.local == w.local &&
    forall id: int :: ((t, id) in v.recorded <==> (t, id) in w.recorded)
                      && ((t, id) in v.recorded ==> v.recorded[(t, id)] == w.recorded[(t, id)])
  }

  lemma MirroredRecords(w: World, v: World, t: Table, p: Part, id: int)
    requires PartFor(w, t, p) && SameRecords(w, v, t)
    ensures RecordsOk(Mirrored(v, t, p), t, id)
  {
    hide Copied, Put;
    assert id in Elements(p.changed) <==> IsChanged(v, t, id);
  }

  lemma MirroredLeaves(w: World, t: Table, p: Part, u: Table)
    requires u != t
    ensures SameRecords(w, Mirrored(w, t, p), u)
  {
    hide Copied, Put;
  }

  lemma SameRecordsStay(w: World, v: World, u: World, t: Table)
    requires SameRecords(w, v, t) && SameRecords(v, u, t)
    ensures SameRecords(w, u, t)
    ensures forall id: int :: RecordsOk(v, t, id) ==> RecordsOk(u, t, id)
  {
  }

  lemma RowRecorded(w: World, plan: Plan, t: Table, id: int)
    requires PlanFor(w, plan)
    ensures RecordsOk(Pushed(w, plan), t, id)
  {
    var a := Cleared(w, plan);
    var b := Mirrored(a, Postings, plan.postings);
    var c := Mirrored(b, Sources, plan.sources);
    var d := Mirrored(c, Runs, plan.runs);
    assert SameRecords(w, a, Postings) && SameRecords(w, a, Sources) && SameRecords(w, a, Runs);
    MirroredLeaves(a, Postings, plan.postings, Sources);
    MirroredLeaves(a, Postings, plan.postings, Runs);
    MirroredLeaves(b, Sources, plan.sources, Postings);
    MirroredLeaves(b, Sources, plan.sources, Runs);
    MirroredLeaves(c, Runs, plan.runs, Postings);
    MirroredLeaves(c, Runs, plan.runs, Sources);
    hide Mirrored, Cleared, SameRecords, RecordsOk;
    match t
    case Postings =>
      MirroredRecords(w, a, Postings, plan.postings, id);
      SameRecordsStay(b, b, c, Postings);
      SameRecordsStay(b, c, d, Postings);
    case Sources =>
      SameRecordsStay(w, a, b, Sources);
      MirroredRecords(w, b, Sources, plan.sources, id);
      SameRecordsStay(c, c, d, Sources);
    case Runs =>
      SameRecordsStay(w, a, b, Runs);
      SameRecordsStay(w, b, c, Runs);
      MirroredRecords(w, c, Runs, plan.runs, id);
  }

  lemma RowKept(w: World, plan: Plan, t: Table, id: int)
    requires PlanFor(w, plan)
    ensures id in Get(Pushed(w, plan).remote, t) ==> id in Get(w.local, t)
  {
    hide Noted, Forgotten;
    match t
    case Postings => assert PartFor(w, Postings, plan.postings);
    case Sources => assert PartFor(w, Sources, plan.sources);
    case Runs => assert PartFor(w, Runs, plan.runs);
  }

  /** A statement of a push leaves a local row that looks pushed, or is deleted with its posting, as it is. */
  predicate LeavesAlone(s: Stmt, t: Table, id: int) {
    s.Upsert? && s.t == t ==> id !in Elements(s.ids)
  }

  predicate Mismatched(w: World, t: Table, id: int) {
    id in Get(w.local, t) && !Matches(w, t, id)
  }

  lemma {:induction false} MismatchStays(w: World, stmts: seq<Stmt>, t: Table, id: int)
    requires Mismatched(w, t, id) && forall i :: 0 <= i < |stmts| ==> LeavesAlone(stmts[i], t, id)
    ensures Mismatched(Run(w, stmts), t, id)
    decreases |stmts|
  {
    if stmts != [] && !Fails(w, stmts[0]) {
      assert forall i :: 0 <= i < |stmts[1..]| ==> stmts[1..][i] == stmts[i + 1];
      assert LeavesAlone(stmts[0], t, id);
      MismatchStays(Exec(w, stmts[0]), stmts[1..], t, id);
    }
  }

  lemma {:induction false} UpsertsLeaveAlone(u: Table, ids: seq<int>, t: Table, id: int)
    requires u == t ==> id !in Elements(ids)
    ensures forall i :: 0 <= i < |Upserts(u, ids)| ==> LeavesAlone(Upserts(u, ids)[i], t, id)
    decreases |ids|
  {
    if ids != [] {
      var n := |Slice(ids)|;
      ElementsSplit(ids, n);
      assert Slice(ids) == ids[..n];
      UpsertsLeaveAlone(u, ids[n..], t, id);
      OnlyRecords(u, Slice(ids));
    }
  }

  lemma {:induction false} OnlyRecords(t: Table, ids: seq<int>)
    ensures forall i :: 0 <= i < |Records(t, ids)| ==> Records(t, ids)[i].Record?
    decreases |ids|
  {
    if ids != [] {
      OnlyRecords(t, ids[1..]);
    }
  }

  lemma {:induction false} OnlyForgets(t: Table, ids: seq<int>)
    ensures forall i :: 0 <= i < |Forgets(t, ids)| ==> Forgets(t, ids)[i].Forget?
    decreases |ids|
  {
    if ids != [] {
      OnlyForgets(t, ids[1..]);
    }
  }

  lemma {:induction false} OnlyDeletes(t: Table, ids: seq<int>)
    ensures forall i :: 0 <= i < |Deletes(t, ids)| ==> Deletes(t, ids)[i].Delete?
    decreases |ids|
  {
    if ids != [] {
      OnlyDeletes(t, ids[|Slice(ids)|..]);
    }
  }

  /** No push sends a row that looks pushed. */
  lemma ProgramLeavesAlone(w: World, plan: Plan, t: Table, id: int)
    requires PlanFor(w, plan) && !IsChanged(w, t, id)
    ensures forall i :: 0 <= i < |Program(plan)| ==> LeavesAlone(Program(plan)[i], t, id)
  {
    OnlyDeletes(Runs, plan.runs.strays);
    OnlyDeletes(Sources, plan.sources.strays);
    OnlyDeletes(Postings, plan.postings.strays);
    UpsertsLeaveAlone(Postings, plan.postings.changed, t, id);
    UpsertsLeaveAlone(Sources, plan.sources.changed, t, id);
    UpsertsLeaveAlone(Runs, plan.runs.changed, t, id);
    OnlyForgets(Postings, plan.postings.gone);
    OnlyForgets(Sources, plan.sources.gone);
    OnlyForgets(Runs, plan.runs.gone);
  }

  /** A whole push leaves the remote equal to the corpus exactly when every row that looks pushed was there. */
  lemma WholePushSyncsIff(w: World, plan: Plan)
    requires NoOrphans(w.local) && PlanFor(w, plan)
    ensures Synced(Run(w, Program(plan))) <==> Good(w)
  {
    if Good(w) {
      WholePushSyncs(w, plan);
    } else {
      var t, id :| id in Get(w.local, t) && !IsChanged(w, t, id) && !Matches(w, t, id);
      ProgramLeavesAlone(w, plan, t, id);
      MismatchStays(w, Program(plan), t, id);
      assert Mismatched(Run(w, Program(plan)), t, id);
    }
  }

  // ----------------------------------------------------------------------------------------
  // Pushes over time
  // ----------------------------------------------------------------------------------------

  /** A push cut off after `steps` statements. */
  datatype Push = Push(plan: Plan, steps: nat)

  function Pushes(w: World, pushes: seq<Push>): World
    decreases |pushes|
  {
    if pushes == [] then w
    else
      var program := Program(pushes[0].plan);
      Pushes(Run(w, program[..if pushes[0].steps < |program| then pushes[0].steps else |program|]), pushes[1..])
  }

  /** Each push works from the state it finds. */
  ghost predicate Planned(w: World, pushes: seq<Push>)
    decreases |pushes|
  {
    pushes == [] ||
    (PlanFor(w, pushes[0].plan) && Planned(Pushes(w, pushes[..1]), pushes[1..]))
  }

  lemma {:induction false} PushesKeepGood(w: World, pushes: seq<Push>)
    requires Good(w) && NoOrphans(w.local) && Planned(w, pushes)
    ensures Good(Pushes(w, pushes)) && Pushes(w, pushes).local == w.local
    decreases |pushes|
  {
    if pushes != [] {
      var program := Program(pushes[0].plan);
      var k := if pushes[0].steps < |program| then pushes[0].steps else |program|;
      InterruptedPushKeepsGood(w, pushes[0].plan, k);
      assert pushes[..1][0] == pushes[0] && pushes[..1][1..] == [];
      assert Pushes(w, pushes[..1]) == Run(w, program[..k]);
      PushesKeepGood(Run(w, program[..k]), pushes[1..]);
    }
  }

  /** Interrupted pushes of one corpus, any number of them, and a whole one: the remote is the corpus. */
  lemma PushesConverge(w: World, pushes: seq<Push>, last: Plan)
    requires Good(w) && NoOrphans(w.local) && Planned(w, pushes) && PlanFor(Pushes(w, pushes), last)
    ensures var u := Run(Pushes(w, pushes), Program(last)); Synced(u) && u.local == w.local
  {
    PushesKeepGood(w, pushes);
    WholePushSyncs(Pushes(w, pushes), last);
  }

  /** Once synced, a push of the same corpus has nothing to say. */
  lemma SyncedPushIsEmpty(w: World, plan: Plan)
    requires Synced(w) && PlanFor(w, plan)
    ensures Program(plan) == []
  {
    NothingFound(w, Postings, plan.postings);
    NothingFound(w, Sources, plan.sources);
    NothingFound(w, Runs, plan.runs);
  }

  lemma NothingFound(w: World, t: Table, p: Part)
    requires Synced(w) && PartFor(w, t, p)
    ensures |p.strays| == 0 && |p.changed| == 0 && |p.gone| == 0
  {
    assert forall id :: !IsChanged(w, t, id);
    if |p.strays| > 0 {
      var id := SomeElement(p.strays);
    }
    if |p.changed| > 0 {
      var id := SomeElement(p.changed);
    }
    if |p.gone| > 0 {
      var id := SomeElement(p.gone);
    }
  }

  lemma SomeElement(ids: seq<int>) returns (id: int)
    requires |ids| > 0
    ensures id in Elements(ids)
  {
    id := ids[0];
  }

  lemma OneElement(x: int)
    ensures forall id: int :: id in Elements([x]) <==> id == x
    ensures forall id: int :: id !in Elements([])
  {
    assert [x][0] == x;
  }

  /** Any edit of a synced corpus is safe to push: from a fresh target, or after a whole push. */
  lemma EditsAfterSyncAreGood(w: World, local: Db)
    requires Synced(w)
    ensures Good(w.(local := local))
  {
    var u := w.(local := local);
    forall t, id | id in Get(u.local, t) && !IsChanged(u, t, id)
      ensures Matches(u, t, id)
    {
      assert (t, id) in w.recorded && id in Get(w.local, t);
      assert Matches(w, t, id);
    }
  }

  lemma FreshTargetIsGood(w: World)
    requires w.recorded == map[]
    ensures Good(w)
  {
  }

  /** One run row, as it was pushed and as it was edited. */
  function OneRun(content: int): Db {
    Db(map[], map[], map[7 := Row(content, 0, 0)])
  }

  /** The plan of a push that finds only the edited run. */
  function EditPlan(): Plan {
    Plan(Part([], [], []), Part([], [], []), Part([], [7], []))
  }

  lemma EditProgram()
    ensures Program(EditPlan()) == [Upsert(Runs, [7]), Record(Runs, 7)]
  {
    assert [7][1..] == [];
    assert Records(Runs, [7]) == [Record(Runs, 7)];
    assert Upserts(Runs, [7]) == [Upsert(Runs, [7]), Record(Runs, 7)];
  }

  lemma EditIsPlanned(w: World)
    requires w == World(OneRun(2), OneRun(1), map[(Runs, 7) := Hash(1, 0)])
    ensures PlanFor(w, EditPlan())
    ensures Run(w, [Upsert(Runs, [7])]) == World(OneRun(2), OneRun(2), w.recorded)
  {
    OneElement(7);
    var sent := Exec(w, Upsert(Runs, [7]));
    assert sent.remote == OneRun(2);
    assert [Upsert(Runs, [7])][1..] == [];
    assert Run(w, [Upsert(Runs, [7])]) == Run(sent, []);
  }

  function SyncedRun(): World {
    World(OneRun(1), OneRun(1), map[(Runs, 7) := Hash(1, 0)])
  }

  lemma SyncedRunIsSynced()
    ensures Synced(SyncedRun())
  {
  }

  /**
   * A corpus that changes between interrupted pushes can be missed for good: the edit reaches the remote, the push
   * stops before recording it, the edit is undone, and the row now looks pushed.
   */
  lemma UndoneEditIsMissed(plan: Plan)
    ensures Synced(SyncedRun()) && SyncedRun().local == OneRun(1)
    ensures PlanFor(SyncedRun().(local := OneRun(2)), EditPlan()) && |Program(EditPlan())| == 2
    ensures var reverted := Run(SyncedRun().(local := OneRun(2)), Program(EditPlan())[..1]).(local := OneRun(1));
      PlanFor(reverted, plan) ==> !Synced(Run(reverted, Program(plan)))
  {
    SyncedRunIsSynced();
    EditProgram();
    hide Synced, PlanFor, Good;
    assert Program(EditPlan())[..1] == [Upsert(Runs, [7])];
    EditIsPlanned(SyncedRun().(local := OneRun(2)));
    var reverted := World(OneRun(1), OneRun(2), SyncedRun().recorded);
    RevertedIsBad(reverted);
    if PlanFor(reverted, plan) {
      WholePushSyncsIff(reverted, plan);
    }
  }

  lemma RevertedIsBad(w: World)
    requires w == World(OneRun(1), OneRun(2), map[(Runs, 7) := Hash(1, 0)])
    ensures !Good(w) && NoOrphans(w.local)
  {
    assert 7 in Get(w.local, Runs) && !IsChanged(w, Runs, 7) && !Matches(w, Runs, 7);
  }

  // ----------------------------------------------------------------------------------------
  // The push itself
  // ----------------------------------------------------------------------------------------

  /** No statement fails. */
  predicate Completes(w: World, stmts: seq<Stmt>)
    decreases |stmts|
  {
    stmts == [] || (!Fails(w, stmts[0]) && Completes(Exec(w, stmts[0]), stmts[1..]))
  }

  lemma RunFirst(w: World, s: Stmt, rest: seq<Stmt>)
    ensures Run(w, [s] + rest) == if Fails(w, s) then w else Run(Exec(w, s), rest)
    ensures Completes(w, [s] + rest) <==> !Fails(w, s) && Completes(Exec(w, s), rest)
  {
    assert ([s] + rest)[1..] == rest;
  }

  /** What fails in the first part leaves the second unrun. */
  lemma {:induction false} RunInTurn(w: World, a: seq<Stmt>, b: seq<Stmt>)
    ensures Run(w, a + b) == if Completes(w, a) then Run(Run(w, a), b) else Run(w, a)
    ensures Completes(w, a + b) <==> Completes(w, a) && Completes(Run(w, a), b)
    decreases |a|
  {
    if a == [] {
      assert a + b == b;
    } else {
      assert a + b == [a[0]] + (a[1..] + b) && a == [a[0]] + a[1..];
      RunFirst(w, a[0], a[1..] + b);
      RunFirst(w, a[0], a[1..]);
      if !Fails(w, a[0]) {
        RunInTurn(Exec(w, a[0]), a[1..], b);
      }
    }
  }

  /** What is left to do from here ends as the whole does from the start. */
  ghost predicate Remaining(was: World, all: seq<Stmt>, w: World, rest: seq<Stmt>) {
    Run(w, rest) == Run(was, all) && (Completes(w, rest) <==> Completes(was, all))
  }

  lemma RemainingAfter(was: World, all: seq<Stmt>, w: World, s: Stmt, rest: seq<Stmt>)
    requires Remaining(was, all, w, [s] + rest)
    ensures Fails(w, s) ==> Run(was, all) == w && !Completes(was, all)
    ensures !Fails(w, s) ==> Remaining(was, all, Exec(w, s), rest)
  {
    RunFirst(w, s, rest);
  }

  lemma BatchDone(was: World, all: seq<Stmt>, w: World, t: Table, ids: seq<int>, slice: seq<int>, rest: seq<int>)
    requires Remaining(was, all, w, Upserts(t, ids))
    requires ids != [] && slice == Slice(ids) && ids == slice + rest
    ensures Fails(w, Upsert(t, slice)) ==> Run(was, all) == w && !Completes(was, all)
    ensures !Fails(w, Upsert(t, slice)) ==>
              var u := Exec(w, Upsert(t, slice));
              Completes(u, Records(t, slice)) ==> Remaining(was, all, Run(u, Records(t, slice)), Upserts(t, rest))
  {
    assert ids[|slice|..] == rest;
    assert Upserts(t, ids) == [Upsert(t, slice)] + (Records(t, slice) + Upserts(t, rest));
    hide Run, Completes, Fails, Exec, Upserts, Records;
    RemainingAfter(was, all, w, Upsert(t, slice), Records(t, slice) + Upserts(t, rest));
    RunInTurn(Exec(w, Upsert(t, slice)), Records(t, slice), Upserts(t, rest));
  }

  /**
   * A push that nothing interrupts; a failed statement ends it. `plan` lists what its reads of the tables find, in
   * the order they come.
   */
  class Pusher {
    const local: Db
    var remote: Db
    var recorded: map<(Table, int), Hash>

    constructor (w: World)
      ensures View() == w
    {
      local, remote, recorded := w.local, w.remote, w.recorded;
    }

    function View(): World
      reads this
    {
      World(local, remote, recorded)
    }

    method DeleteStrays(t: Table, strays: seq<int>)
      modifies this`remote
      ensures View() == Run(old(View()), Deletes(t, strays)) && Completes(old(View()), Deletes(t, strays))
    {
      ghost var all := Deletes(t, strays);
      var start := 0;
      assert strays[0..] == strays;
      while start < |strays|
        invariant 0 <= start <= |strays|
        invariant Remaining(old(View()), all, View(), Deletes(t, strays[start..]))
      {
        var slice := if start + BATCH < |strays| then strays[start..start + BATCH] else strays[start..];
        assert slice == Slice(strays[start..]) && strays[start..][|slice|..] == strays[start + |slice|..];
        RemainingAfter(old(View()), all, View(), Delete(t, slice), Deletes(t, strays[start + |slice|..]));
        remote := Erased(remote, t, Elements(slice));
        start := start + |slice|;
      }
    }

    method Note(t: Table, ids: seq<int>)
      requires forall id :: id in ids ==> id in Get(local, t)
      modifies this`recorded
      ensures View() == Run(old(View()), Records(t, ids)) && Completes(old(View()), Records(t, ids))
    {
      ghost var all := Records(t, ids);
      assert ids[0..] == ids;
      for n := 0 to |ids|
        invariant Remaining(old(View()), all, View(), Records(t, ids[n..]))
      {
        assert ids[n..][1..] == ids[n + 1..];
        RemainingAfter(old(View()), all, View(), Record(t, ids[n]), Records(t, ids[n + 1..]));
        recorded := recorded[(t, ids[n]) := HashOf(Get(local, t)[ids[n]])];
      }
    }

    /** A batch is recorded only after the remote accepted it. */
    method SendBatch(t: Table, slice: seq<int>) returns (ok: bool)
      requires forall id :: id in slice ==> id in Get(local, t)
      modifies this
      ensures ok <==> !Fails(old(View()), Upsert(t, slice))
      ensures !ok ==> View() == old(View())
      ensures ok ==> var w := Exec(old(View()), Upsert(t, slice)); View() == Run(w, Records(t, slice)) && Completes(w, Records(t, slice))
    {
      if Fails(View(), Upsert(t, slice)) {
        return false;
      }
      remote := Put(remote, t, Copied(Get(remote, t), Get(local, t), Elements(slice)));
      Note(t, slice);
      ok := true;
    }

    method Send(t: Table, changed: seq<int>) returns (ok: bool)
      requires forall id :: id in changed ==> id in Get(local, t)
      modifies this
      ensures View() == Run(old(View()), Upserts(t, changed)) && (ok <==> Completes(old(View()), Upserts(t, changed)))
    {
      ghost var all := Upserts(t, changed);
      var start := 0;
      assert changed[0..] == changed;
      while start < |changed|
        invariant 0 <= start <= |changed|
        invariant Remaining(old(View()), all, View(), Upserts(t, changed[start..]))
      {
        var slice := if start + BATCH < |changed| then changed[start..start + BATCH] else changed[start..];
        BatchDone(old(View()), all, View(), t, changed[start..], slice, changed[start + |slice|..]);
        hide Fails, Exec, Elements, Records, Upserts, Run, Completes, Remaining;
        ok := SendBatch(t, slice);
        if !ok {
          return;
        }
        start := start + |slice|;
      }
      ok := true;
    }

    method ForgetGone(t: Table, gone: seq<int>)
      modifies this`recorded
      ensures View() == Run(old(View()), Forgets(t, gone)) && Completes(old(View()), Forgets(t, gone))
    {
      ghost var all := Forgets(t, gone);
      assert gone[0..] == gone;
      for n := 0 to |gone|
        invariant Remaining(old(View()), all, View(), Forgets(t, gone[n..]))
      {
        assert gone[n..][1..] == gone[n + 1..];
        RemainingAfter(old(View()), all, View(), Forget(t, gone[n]), Forgets(t, gone[n + 1..]));
        recorded := recorded - {(t, gone[n])};
      }
    }

    method MirrorTable(t: Table, p: Part) returns (ok: bool)
      requires forall id :: id in p.changed ==> id in Get(local, t)
      modifies this
      ensures View() == Run(old(View()), Mirroring(t, p)) && (ok <==> Completes(old(View()), Mirroring(t, p)))
    {
      RunInTurn(View(), Upserts(t, p.changed), Forgets(t, p.gone));
      ok := Send(t, p.changed);
      if ok {
        ForgetGone(t, p.gone);
      }
    }

    /** The push runs its statements in order, and leaves the remote equal to the corpus exactly from a good state. */
    method Push(plan: Plan) returns (ok: bool)
      requires PlanFor(View(), plan)
      modifies this
      ensures View() == Run(old(View()), Program(plan)) && (ok <==> Completes(old(View()), Program(plan)))
      ensures NoOrphans(local) ==> (Synced(View()) <==> Good(old(View())))
    {
      ghost var w := View();
      if NoOrphans(local) {
        WholePushSyncsIff(w, plan);
      }
      ChangedAreLocal(w, plan);
      ghost var clear := Deletes(Runs, plan.runs.strays) + Deletes(Sources, plan.sources.strays) + Deletes(Postings, plan.postings.strays);
      ghost var first := clear + Mirroring(Postings, plan.postings);
      ghost var second := first + Mirroring(Sources, plan.sources);
      RunInTurn(w, Deletes(Runs, plan.runs.strays), Deletes(Sources, plan.sources.strays));
      RunInTurn(w, Deletes(Runs, plan.runs.strays) + Deletes(Sources, plan.sources.strays), Deletes(Postings, plan.postings.strays));
      RunInTurn(w, clear, Mirroring(Postings, plan.postings));
      RunInTurn(w, first, Mirroring(Sources, plan.sources));
      RunInTurn(w, second, Mirroring(Runs, plan.runs));
      hide Run, Completes, Good, Synced, NoOrphans, PlanFor, Deletes, Mirroring;
      DeleteStrays(Runs, plan.runs.strays);
      DeleteStrays(Sources, plan.sources.strays);
      DeleteStrays(Postings, plan.postings.strays);
      ok := MirrorTable(Postings, plan.postings);
      if ok {
        ok := MirrorTable(Sources, plan.sources);
      }
      if ok {
        ok := MirrorTable(Runs, plan.runs);
      }
    }
  }

  lemma ChangedAreLocal(w: World, plan: Plan)
    requires PlanFor(w, plan)
    ensures forall id :: id in plan.postings.changed ==> id in w.local.postings
    ensures forall id :: id in plan.sources.changed ==> id in w.local.sources
    ensures forall id :: id in plan.runs.changed ==> id in w.local.runs
  {
    forall id | id in plan.postings.changed || id in plan.sources.changed || id in plan.runs.changed
      ensures id in plan.postings.changed ==> id in Elements(plan.postings.changed)
      ensures id in plan.sources.changed ==> id in Elements(plan.sources.changed)
      ensures id in plan.runs.changed ==> id in Elements(plan.runs.changed)
    {
    }
  }

  // ----------------------------------------------------------------------------------------
  // What a push writes
  // ----------------------------------------------------------------------------------------

  /** Whatever statements run, and wherever they stop, the remote's foreign key holds: a posting takes its sources with it. */
  lemma {:induction false} RunKeepsForeignKey(w: World, stmts: seq<Stmt>)
    requires NoOrphans(w.remote)
    ensures NoOrphans(Run(w, stmts).remote)
    decreases |stmts|
  {
    if stmts != [] && !Fails(w, stmts[0]) {
      StatementKeepsForeignKey(w, stmts[0]);
      RunKeepsForeignKey(Exec(w, stmts[0]), stmts[1..]);
    }
  }

  lemma StatementKeepsForeignKey(w: World, s: Stmt)
    requires NoOrphans(w.remote) && !Fails(w, s)
    ensures NoOrphans(Exec(w, s).remote)
  {
    if s.Upsert? && s.t.Sources? {
      forall id | id in Elements(s.ids) && id in w.local.sources
        ensures w.local.sources[id].parent in w.remote.postings
      {
        var i :| 0 <= i < |s.ids| && s.ids[i] == id;
      }
    }
  }

  predicate IsSent(stmts: seq<Stmt>, t: Table, id: int) {
    exists i :: 0 <= i < |stmts| && stmts[i].Upsert? && stmts[i].t == t && id in stmts[i].ids
  }

  predicate IsDeleted(stmts: seq<Stmt>, t: Table, id: int) {
    exists i :: 0 <= i < |stmts| && stmts[i].Delete? && stmts[i].t == t && id in stmts[i].ids
  }

  /** Every statement for the remote is about one row at least, and a hundred at most. */
  predicate InBatches(stmts: seq<Stmt>) {
    forall i :: 0 <= i < |stmts| && (stmts[i].Upsert? || stmts[i].Delete?) ==> 1 <= |stmts[i].ids| <= 100
  }

  lemma SentOf(a: seq<Stmt>, b: seq<Stmt>, t: Table, id: int)
    ensures IsSent(a + b, t, id) <==> IsSent(a, t, id) || IsSent(b, t, id)
    ensures IsDeleted(a + b, t, id) <==> IsDeleted(a, t, id) || IsDeleted(b, t, id)
    ensures InBatches(a + b) <==> InBatches(a) && InBatches(b)
  {
    var all := a + b;
    assert forall i :: 0 <= i < |a| ==> all[i] == a[i];
    assert forall i :: 0 <= i < |b| ==> all[|a| + i] == b[i];
    assert forall i :: |a| <= i < |all| ==> all[i] == b[i - |a|];
  }

  lemma SentByOne(s: Stmt, t: Table, id: int)
    ensures IsSent([s], t, id) <==> s.Upsert? && s.t == t && id in s.ids
    ensures IsDeleted([s], t, id) <==> s.Delete? && s.t == t && id in s.ids
    ensures InBatches([s]) <==> (s.Upsert? || s.Delete? ==> 1 <= |s.ids| <= 100)
  {
    assert [s][0] == s;
  }

  lemma {:induction false} DeletesSend(of: Table, ids: seq<int>, t: Table, id: int)
    ensures InBatches(Deletes(of, ids)) && !IsSent(Deletes(of, ids), t, id)
    ensures IsDeleted(Deletes(of, ids), t, id) <==> t == of && id in ids
    decreases |ids|
  {
    if ids != [] {
      var slice := Slice(ids);
      var rest := ids[|slice|..];
      DeletesSend(of, rest, t, id);
      SentByOne(Delete(of, slice), t, id);
      SentOf([Delete(of, slice)], Deletes(of, rest), t, id);
      assert ids == slice + rest;
    }
  }

  lemma {:induction false} RecordsSend(of: Table, ids: seq<int>, t: Table, id: int)
    ensures InBatches(Records(of, ids)) && !IsSent(Records(of, ids), t, id) && !IsDeleted(Records(of, ids), t, id)
    ensures InBatches(Forgets(of, ids)) && !IsSent(Forgets(of, ids), t, id) && !IsDeleted(Forgets(of, ids), t, id)
    decreases |ids|
  {
    if ids != [] {
      RecordsSend(of, ids[1..], t, id);
      SentByOne(Record(of, ids[0]), t, id);
      SentOf([Record(of, ids[0])], Records(of, ids[1..]), t, id);
      SentByOne(Forget(of, ids[0]), t, id);
      SentOf([Forget(of, ids[0])], Forgets(of, ids[1..]), t, id);
    }
  }

  lemma {:induction false} UpsertsSend(of: Table, ids: seq<int>, t: Table, id: int)
    ensures InBatches(Upserts(of, ids)) && !IsDeleted(Upserts(of, ids), t, id)
    ensures IsSent(Upserts(of, ids), t, id) <==> t == of && id in ids
    decreases |ids|
  {
    if ids != [] {
      var slice := Slice(ids);
      var rest := ids[|slice|..];
      UpsertsSend(of, rest, t, id);
      SentByOne(Upsert(of, slice), t, id);
      RecordsSend(of, slice, t, id);
      SentOf([Upsert(of, slice)], Records(of, slice), t, id);
      SentOf([Upsert(of, slice)] + Records(of, slice), Upserts(of, rest), t, id);
      assert ids == slice + rest;
    }
  }

  lemma MirroringSends(of: Table, p: Part, t: Table, id: int)
    ensures InBatches(Mirroring(of, p)) && !IsDeleted(Mirroring(of, p), t, id)
    ensures IsSent(Mirroring(of, p), t, id) <==> t == of && id in p.changed
  {
    UpsertsSend(of, p.changed, t, id);
    RecordsSend(of, p.gone, t, id);
    SentOf(Upserts(of, p.changed), Forgets(of, p.gone), t, id);
  }

  lemma ElementIff(ids: seq<int>, id: int)
    ensures id in Elements(ids) <==> id in ids
  {
  }

  /** A push sends exactly the rows that changed and deletes exactly those that are gone, at most a hundred at a time. */
  lemma PushSendsChanges(w: World, plan: Plan, t: Table, id: int)
    requires PlanFor(w, plan)
    ensures InBatches(Program(plan))
    ensures IsSent(Program(plan), t, id) <==>
      id in Get(w.local, t) && ((t, id) in w.recorded ==> w.recorded[(t, id)] != HashOf(Get(w.local, t)[id]))
    ensures IsDeleted(Program(plan), t, id) <==> id in Get(w.remote, t) && id !in Get(w.local, t)
  {
    var part := match t case Postings => plan.postings case Sources => plan.sources case Runs => plan.runs;
    ElementIff(part.changed, id);
    ElementIff(part.strays, id);
    var a, b, c := Deletes(Runs, plan.runs.strays), Deletes(Sources, plan.sources.strays), Deletes(Postings, plan.postings.strays);
    var d, e, f := Mirroring(Postings, plan.postings), Mirroring(Sources, plan.sources), Mirroring(Runs, plan.runs);
    DeletesSend(Runs, plan.runs.strays, t, id);
    DeletesSend(Sources, plan.sources.strays, t, id);
    DeletesSend(Postings, plan.postings.strays, t, id);
    MirroringSends(Postings, plan.postings, t, id);
    MirroringSends(Sources, plan.sources, t, id);
    MirroringSends(Runs, plan.runs, t, id);
    SentOf(a, b, t, id);
    SentOf(a + b, c, t, id);
    SentOf(a + b + c, d, t, id);
    SentOf(a + b + c + d, e, t, id);
    SentOf(a + b + c + d + e, f, t, id);
    hide IsSent, IsDeleted, InBatches, Deletes, Mirroring;
  }

  // ----------------------------------------------------------------------------------------
  // Pulling
  // ----------------------------------------------------------------------------------------

  const PAGE: nat := 200

  datatype Entry = Entry(id: int, row: Row)

  /** A table as it reads in the order of its ids. */
  ghost predicate Ascending(table: seq<Entry>) {
    forall i, j :: 0 <= i < j < |table| ==> table[i].id < table[j].id
  }

  function Above(table: seq<Entry>, last: int): (s: seq<Entry>)
    ensures |s| <= |table|
  {
    if table == [] || table[0].id > last then table else Above(table[1..], last)
  }

  /** The rows above `last`, in order, up to a page of them. */
  function SelectPage(table: seq<Entry>, last: int): (page: seq<Entry>)
    ensures page == [] <==> Above(table, last) == []
  {
    var rest := Above(table, last);
    if |rest| <= PAGE then rest else rest[..PAGE]
  }

  function RowsOf(table: seq<Entry>): Rows {
    if table == [] then map[] else RowsOf(table[..|table| - 1])[table[|table| - 1].id := table[|table| - 1].row]
  }

  lemma {:induction false} RowsConcat(a: seq<Entry>, b: seq<Entry>)
    ensures RowsOf(a + b) == RowsOf(a) + RowsOf(b)
    decreases |b|
  {
    if b == [] {
      assert a + b == a;
    } else {
      assert (a + b)[..|a + b| - 1] == a + b[..|b| - 1];
      RowsConcat(a, b[..|b| - 1]);
    }
  }

  lemma {:induction false} AboveIsSuffix(table: seq<Entry>, last: int) returns (n: nat)
    requires Ascending(table)
    ensures n <= |table| && Above(table, last) == table[n..]
    ensures forall i :: 0 <= i < |table| ==> (table[i].id > last <==> n <= i)
    decreases |table|
  {
    if table == [] || table[0].id > last {
      n := 0;
    } else {
      assert forall i :: 0 <= i < |table[1..]| ==> table[1..][i] == table[i + 1];
      var m := AboveIsSuffix(table[1..], last);
      n := m + 1;
      assert table[1..][m..] == table[n..];
      forall i | 0 <= i < |table|
        ensures table[i].id > last <==> n <= i
      {
        if i > 0 {
          assert table[1..][i - 1] == table[i];
        }
      }
    }
  }

  /** A page holds 200 rows, or all that are left; after it, what is above its last id is what follows the page. */
  lemma NextPage(table: seq<Entry>, n: nat, last: int)
    requires Ascending(table) && n < |table| && Above(table, last) == table[n..]
    ensures var page := SelectPage(table, last);
      |page| > 0 && n + |page| <= |table| && page == table[n..n + |page|] && |page| <= 200 && (|page| < 200 ==> n + |page| == |table|)
      && Above(table, page[|page| - 1].id) == table[n + |page|..]
  {
    var page := SelectPage(table, last);
    assert page == table[n..n + |page|];
    assert page[|page| - 1] == table[n + |page| - 1];
    var end := n + |page|;
    var m := AboveIsSuffix(table, page[|page| - 1].id);
    assert !(table[end - 1].id > page[|page| - 1].id);
    assert end < |table| ==> table[end].id > page[|page| - 1].id;
  }

  lemma PageAppends(table: seq<Entry>, start: nat, n: nat, page: seq<Entry>)
    requires start <= n && n + |page| <= |table| && page == table[n..n + |page|]
    ensures RowsOf(table[start..n]) + RowsOf(page) == RowsOf(table[start..n + |page|])
  {
    hide RowsOf;
    RowsConcat(table[start..n], page);
    assert table[start..n] + page == table[start..n + |page|];
  }

  /** The rows from `start` to `n` are read, and those from `n` on are above `last`. */
  ghost predicate Pulled(table: seq<Entry>, start: nat, n: nat, last: int, local: Rows) {
    start <= n <= |table| && Above(table, last) == table[n..] && local == RowsOf(table[start..n])
  }

  lemma PagePulled(table: seq<Entry>, start: nat, n: nat, last: int, local: Rows)
    requires Ascending(table) && Pulled(table, start, n, last, local) && |SelectPage(table, last)| > 0
    ensures var page := SelectPage(table, last);
      n + |page| <= |table| && Pulled(table, start, n + |page|, page[|page| - 1].id, local + RowsOf(page))
  {
    NextPage(table, n, last);
    PageAppends(table, start, n, SelectPage(table, last));
  }

  lemma AllPulled(table: seq<Entry>, start: nat, n: nat, last: int, local: Rows)
    requires Pulled(table, start, n, last, local) && |SelectPage(table, last)| == 0
    ensures n == |table| && local == RowsOf(table[start..])
  {
    assert table[start..|table|] == table[start..];
  }

  /** Keyset pagination reads every row with a positive id exactly once. */
  method PullTable(table: seq<Entry>) returns (local: Rows, total: nat)
    requires Ascending(table)
    ensures local == RowsOf(Above(table, 0)) && total == |Above(table, 0)|
  {
    var last := 0;
    local, total := map[], 0;
    ghost var start := AboveIsSuffix(table, 0);
    ghost var n := start;
    var page := SelectPage(table, last);
    assert Pulled(table, start, n, last, local);
    hide Pulled, SelectPage, RowsOf, Ascending;
    while |page| != 0
      invariant start <= n <= |table| && page == SelectPage(table, last) && total == n - start
      invariant Pulled(table, start, n, last, local)
      decreases |table| - n
    {
      PagePulled(table, start, n, last, local);
      local := local + RowsOf(page);
      last := page[|page| - 1].id;
      total := total + |page|;
      n := n + |page|;
      page := SelectPage(table, last);
    }
    AllPulled(table, start, n, last, local);
  }

  /** So pulling gives back the whole table exactly when no id is zero or negative. */
  lemma PullIsWholeIff(table: seq<Entry>)
    requires Ascending(table)
    ensures Above(table, 0) == table <==> forall i :: 0 <= i < |table| ==> table[i].id > 0
  {
    var n := AboveIsSuffix(table, 0);
    if n == 0 {
      assert table[0..] == table;
    } else {
      assert table[0].id <= 0;
      assert |table[n..]| < |table|;
    }
  }

  lemma {:induction false} EntryIsARow(table: seq<Entry>, i: nat)
    requires i < |table|
    ensures table[i].id in RowsOf(table)
  {
    if i < |table| - 1 {
      EntryIsARow(table[..|table| - 1], i);
    }
  }

  /** `table` is how the remote's table reads in the order of its ids. */
  ghost predicate ReadsAs(remote: Rows, table: seq<Entry>) {
    Ascending(table) && RowsOf(table) == remote
  }

  /** Pulling from a remote in step with a corpus of positive ids gives the corpus: its ids, and the columns that count. */
  lemma PullRestores(w: World, t: Table, table: seq<Entry>)
    requires Synced(w) && ReadsAs(Get(w.remote, t), table)
    requires forall id :: id in Get(w.local, t) ==> id > 0
    ensures var pulled := RowsOf(Above(table, 0));
      && (forall id :: id in pulled <==> id in Get(w.local, t))
      && (forall id :: id in pulled ==> HashOf(pulled[id]) == HashOf(Get(w.local, t)[id]))
  {
    forall i | 0 <= i < |table|
      ensures table[i].id > 0
    {
      EntryIsARow(table, i);
      assert table[i].id in Get(w.remote, t);
    }
    PullIsWholeIff(table);
    assert forall id :: id in Get(w.local, t) ==> Matches(w, t, id);
  }

  /** Interrupted pushes of one corpus, a whole one, and a pull: every table comes back. */
  lemma PushedCorpusIsPulledBack(w: World, pushes: seq<Push>, last: Plan, t: Table, table: seq<Entry>)
    requires Good(w) && NoOrphans(w.local) && Planned(w, pushes) && PlanFor(Pushes(w, pushes), last)
    requires ReadsAs(Get(Run(Pushes(w, pushes), Program(last)).remote, t), table)
    requires forall id :: id in Get(w.local, t) ==> id > 0
    ensures var pulled := RowsOf(Above(table, 0));
      && (forall id :: id in pulled <==> id in Get(w.local, t))
      && (forall id :: id in pulled ==> HashOf(pulled[id]) == HashOf(Get(w.local, t)[id]))
  {
    PushesConverge(w, pushes, last);
    hide Good, NoOrphans, Planned, PlanFor, Pushes, Run, Program, Synced;
    PullRestores(Run(Pushes(w, pushes), Program(last)), t, table);
  }
}
