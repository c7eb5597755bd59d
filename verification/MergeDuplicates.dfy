/**
 * Collapsing posting rows that are one job (scripts/merge-duplicates.ts): rows with the same normalized company,
 * title and location are merged onto the best of them, unless two publisher ids of one source are among them.
 */
module MergeDuplicates {
  import opened Options
  import opened Rows

  datatype Norm = Norm(company: string, title: string, place: string)

  /** An empty description and a missing one are alike. */
  datatype Post = Post(
    norm: Norm, delistedAt: Option<int>, postedAt: int, description: string, fields: Option<int>, enrichedAt: Option<int>)

  /** `identity` is what `publisherIdOf` makes of the row. */
  datatype Source = Source(posting: int, source: string, url: string, identity: Option<string>)

  datatype Db = Db(posts: map<int, Post>, sources: map<int, Source>, nextPost: int, nextSource: int)

  // ----------------------------------------------------------------------------------------
  // Groups and their survivors
  // ----------------------------------------------------------------------------------------

  predicate InGroup(db: Db, norm: Norm, id: int) {
    id in db.posts && db.posts[id].norm == norm
  }

  function GroupOf(db: Db, norm: Norm, ids: seq<int>): (g: seq<int>)
    ensures forall i :: 0 <= i < |g| ==> InGroup(db, norm, g[i])
    ensures forall id :: id in ids && InGroup(db, norm, id) ==> id in g
  {
    if ids == [] then []
    else
      var rest := GroupOf(db, norm, ids[..|ids| - 1]);
      if InGroup(db, norm, ids[|ids| - 1]) then rest + [ids[|ids| - 1]] else rest
  }

  function Group(db: Db, norm: Norm): seq<int> {
    GroupOf(db, norm, Ids(db.posts, db.nextPost))
  }

  /** Two rows of the group carry different publisher ids from one source. */
  predicate Conflicting(db: Db, norm: Norm) {
    exists r, q :: r in db.sources && q in db.sources && Contradict(db, norm, db.sources[r], db.sources[q])
  }

  predicate Contradict(db: Db, norm: Norm, a: Source, b: Source) {
    InGroup(db, norm, a.posting) && InGroup(db, norm, b.posting)
    && a.source == b.source && a.identity.Some? && b.identity.Some? && a.identity != b.identity
  }

  predicate Mergeable(db: Db, norm: Norm) {
    |Group(db, norm)| >= 2 && !Conflicting(db, norm)
  }

  function SourceCount(db: Db, id: int): nat {
    |set r | r in db.sources && db.sources[r].posting == id|
  }

  /** `better(a, b) < 0`: live over delisted, then more sources, then the longer description, then the lower id. */
  predicate Worse(db: Db, a: int, b: int)
    requires a in db.posts && b in db.posts
  {
    var liveA, liveB := db.posts[a].delistedAt.None?, db.posts[b].delistedAt.None?;
    if liveA != liveB then liveB
    else if SourceCount(db, a) != SourceCount(db, b) then SourceCount(db, a) < SourceCount(db, b)
    else if |db.posts[a].description| != |db.posts[b].description| then |db.posts[a].description| < |db.posts[b].description|
    else a > b
  }

  predicate ArePosts(db: Db, ids: seq<int>) {
    forall i :: 0 <= i < |ids| ==> ids[i] in db.posts
  }

  function RankInsert(db: Db, ranked: seq<int>, id: int): (r: seq<int>)
    requires ArePosts(db, ranked) && id in db.posts
    ensures ArePosts(db, r) && r != [] && (forall x :: x in r <==> x in ranked || x == id)
  {
    if ranked == [] then [id]
    else if Worse(db, id, ranked[|ranked| - 1]) then
      var rest := RankInsert(db, ranked[..|ranked| - 1], id);
      assert ranked == ranked[..|ranked| - 1] + [ranked[|ranked| - 1]];
      rest + [ranked[|ranked| - 1]]
    else ranked + [id]
  }

  /** The group sorted from worst to best. */
  function Ranked(db: Db, ids: seq<int>): (r: seq<int>)
    requires ArePosts(db, ids)
    ensures ArePosts(db, r) && (forall x :: x in r <==> x in ids) && (ids != [] ==> r != [])
  {
    if ids == [] then []
    else
      assert ids == ids[..|ids| - 1] + [ids[|ids| - 1]];
      RankInsert(db, Ranked(db, ids[..|ids| - 1]), ids[|ids| - 1])
  }

  function Survivor(db: Db, group: seq<int>): int
    requires ArePosts(db, group) && group != []
  {
    var ranked := Ranked(db, group);
    ranked[|ranked| - 1]
  }

  function Losers(db: Db, group: seq<int>): seq<int>
    requires ArePosts(db, group) && group != []
  {
    var ranked := Ranked(db, group);
    ranked[..|ranked| - 1]
  }

  // ----------------------------------------------------------------------------------------
  // Merging one group
  // ----------------------------------------------------------------------------------------

  /** The source rows so far, and the URLs the survivor holds. */
  datatype Moving = Moving(sources: map<int, Source>, held: set<string>)

  function MovedRow(m: Moving, r: int, to: int): Moving {
    if r !in m.sources || m.sources[r].url in m.held then m
    else Moving(m.sources[r := m.sources[r].(posting := to)], m.held + {m.sources[r].url})
  }

  function MovedRows(m: Moving, rows: seq<int>, to: int): Moving {
    if rows == [] then m else MovedRow(MovedRows(m, rows[..|rows| - 1], to), rows[|rows| - 1], to)
  }

  function RowsAmong(db: Db, id: int, ids: seq<int>): (rows: seq<int>)
    ensures forall r :: r in rows <==> r in ids && r in db.sources && db.sources[r].posting == id
  {
    if ids == [] then []
    else
      assert ids == ids[..|ids| - 1] + [ids[|ids| - 1]];
      var rest := RowsAmong(db, id, ids[..|ids| - 1]);
      var r := ids[|ids| - 1];
      if r in db.sources && db.sources[r].posting == id then rest + [r] else rest
  }

  function RowsOf(db: Db, id: int): seq<int> {
    RowsAmong(db, id, Ids(db.sources, db.nextSource))
  }

  function RowsOfAll(db: Db, ids: seq<int>): (rows: seq<int>)
    ensures forall r :: r in rows ==> r in db.sources && db.sources[r].posting in ids
  {
    if ids == [] then []
    else
      assert ids == ids[..|ids| - 1] + [ids[|ids| - 1]];
      RowsOfAll(db, ids[..|ids| - 1]) + RowsOf(db, ids[|ids| - 1])
  }

  function UrlsAt(sources: map<int, Source>, id: int): set<string> {
    set r | r in sources && sources[r].posting == id :: sources[r].url
  }

  function Earliest(db: Db, ids: seq<int>): int
    requires ArePosts(db, ids) && ids != []
  {
    var date := db.posts[ids[|ids| - 1]].postedAt;
    if |ids| == 1 then date
    else
      var rest := Earliest(db, ids[..|ids| - 1]);
      if date < rest then date else rest
  }

  function FirstDescription(db: Db, ids: seq<int>): string
    requires ArePosts(db, ids)
  {
    if ids == [] then "" else if db.posts[ids[0]].description != "" then db.posts[ids[0]].description
    else FirstDescription(db, ids[1..])
  }

  function FirstFields(db: Db, ids: seq<int>): Option<int>
    requires ArePosts(db, ids)
  {
    if ids == [] then None else if db.posts[ids[0]].fields.Some? then db.posts[ids[0]].fields else FirstFields(db, ids[1..])
  }

  function FirstEnriched(db: Db, ids: seq<int>): Option<int>
    requires ArePosts(db, ids)
  {
    if ids == [] then None else if db.posts[ids[0]].enrichedAt.Some? then db.posts[ids[0]].enrichedAt else FirstEnriched(db, ids[1..])
  }

  /** The survivor takes the group's earliest date, and from the losers what it lacks itself. */
  function Recovered(db: Db, group: seq<int>): Post
    requires ArePosts(db, group) && group != []
  {
    var p, losers := db.posts[Survivor(db, group)], Losers(db, group);
    var earliest := Earliest(db, group);
    Post(p.norm, p.delistedAt, if earliest < p.postedAt then earliest else p.postedAt,
         if p.description == "" then FirstDescription(db, losers) else p.description,
         if p.fields.None? then FirstFields(db, losers) else p.fields,
         if p.enrichedAt.None? then FirstEnriched(db, losers) else p.enrichedAt)
  }

  function MergedGroup(db: Db, group: seq<int>): Db
    requires ArePosts(db, group) && group != []
  {
    var to, losers := Survivor(db, group), Losers(db, group);
    var moved := MovedRows(Moving(db.sources, UrlsAt(db.sources, to)), RowsOfAll(db, losers), to).sources;
    db.(posts := map id | id in db.posts && id !in losers :: if id == to then Recovered(db, group) else db.posts[id],
        sources := map r | r in moved && moved[r].posting !in losers :: moved[r])
  }

  // ----------------------------------------------------------------------------------------
  // Merging them all
  // ----------------------------------------------------------------------------------------

  function NormsAmong(db: Db, ids: seq<int>): (norms: seq<Norm>)
    requires ArePosts(db, ids)
    ensures forall i :: 0 <= i < |ids| ==> db.posts[ids[i]].norm in norms
  {
    if ids == [] then []
    else
      var rest := NormsAmong(db, ids[..|ids| - 1]);
      var norm := db.posts[ids[|ids| - 1]].norm;
      if norm in rest then rest else rest + [norm]
  }

  /** The groups to merge, in the order of their first rows. */
  function MergeableAmong(db: Db, norms: seq<Norm>): (ms: seq<Norm>)
    ensures forall n :: n in ms <==> n in norms && Mergeable(db, n)
  {
    if norms == [] then []
    else
      assert norms == norms[..|norms| - 1] + [norms[|norms| - 1]];
      var rest := MergeableAmong(db, norms[..|norms| - 1]);
      var n := norms[|norms| - 1];
      if Mergeable(db, n) then rest + [n] else rest
  }

  function DuplicateGroups(db: Db): seq<Norm> {
    MergeableAmong(db, NormsAmong(db, Ids(db.posts, db.nextPost)))
  }

  function MergedNorm(db: Db, norm: Norm): Db {
    var group := Group(db, norm);
    if group == [] then db else MergedGroup(db, group)
  }

  function MergedNorms(db: Db, norms: seq<Norm>): Db {
    if norms == [] then db else MergedNorm(MergedNorms(db, norms[..|norms| - 1]), norms[|norms| - 1])
  }

  /** The groups are found once, before any is merged. */
  function Merged(db: Db): Db {
    MergedNorms(db, DuplicateGroups(db))
  }

  // ----------------------------------------------------------------------------------------
  // The run
  // ----------------------------------------------------------------------------------------

  datatype Stats = Stats(groups: nat, merged: nat, sourcesMoved: nat, sourcesAlreadyHeld: nat)

  class Corpus {
    var posts: map<int, Post>
    var sources: map<int, Source>
    const nextPost: int
    const nextSource: int

    constructor (db: Db)
      ensures View() == db
    {
      posts, sources, nextPost, nextSource := db.posts, db.sources, db.nextPost, db.nextSource;
    }

    function View(): Db
      reads this
    {
      Db(posts, sources, nextPost, nextSource)
    }

    /** The groups, each a bucket of a map by normalized identity, in the order of their first rows. */
    method FindDuplicateGroups() returns (found: seq<Norm>)
      ensures found == DuplicateGroups(View())
    {
      var ids := Ids(posts, nextPost);
      var norms: seq<Norm> := [];
      for n := 0 to |ids|
        invariant norms == NormsAmong(View(), ids[..n])
      {
        assert ids[..n + 1][..n] == ids[..n];
        if posts[ids[n]].norm !in norms {
          norms := norms + [posts[ids[n]].norm];
        }
      }
      assert ids[..|ids|] == ids;
      found := [];
      for n := 0 to |norms|
        invariant found == MergeableAmong(View(), norms[..n])
      {
        hide Mergeable;
        assert norms[..n + 1][..n] == norms[..n];
        if Mergeable(View(), norms[n]) {
          found := found + [norms[n]];
        }
      }
      assert norms[..|norms|] == norms;
    }

    /** Each row goes to the survivor unless it already holds the row's URL. */
    method MoveSources(rows: seq<int>, to: int) returns (moved: nat, alreadyHeld: nat)
      requires forall r :: r in rows ==> r in sources
      modifies this`sources
      ensures sources == MovedRows(Moving(old(sources), UrlsAt(old(sources), to)), rows, to).sources
      ensures moved + alreadyHeld == |rows|
    {
      ghost var start := Moving(sources, UrlsAt(sources, to));
      var held := UrlsAt(sources, to);
      moved, alreadyHeld := 0, 0;
      for n := 0 to |rows|
        invariant Moving(sources, held) == MovedRows(start, rows[..n], to)
        invariant sources.Keys == old(sources.Keys) && moved + alreadyHeld == n
      {
        var r := rows[n];
        assert rows[..n + 1][..n] == rows[..n] && r in rows;
        if sources[r].url in held {
          alreadyHeld := alreadyHeld + 1;
        } else {
          held := held + {sources[r].url};
          moved := moved + 1;
          sources := sources[r := sources[r].(posting := to)];
        }
      }
      assert rows[..|rows|] == rows;
    }

    /** The rows of the losers go to the survivor, each URL once; the losers and what they still hold are deleted. */
    method MergeGroup(group: seq<int>) returns (moved: nat, alreadyHeld: nat)
      requires ArePosts(View(), group) && group != []
      modifies this
      ensures View() == MergedGroup(old(View()), group)
      ensures moved + alreadyHeld == |RowsOfAll(old(View()), Losers(old(View()), group))|
    {
      var was := View();
      var to, losers := Survivor(was, group), Losers(was, group);
      var survivor := Recovered(was, group);
      var rows := RowsOfAll(was, losers);
      hide Survivor, Losers, Recovered, RowsOfAll, MovedRows, UrlsAt;
      moved, alreadyHeld := MoveSources(rows, to);
      sources := map r | r in sources && sources[r].posting !in losers :: sources[r];
      posts := map id | id in posts && id !in losers :: if id == to then survivor else posts[id];
    }

    method MergeNorm(norm: Norm) returns (merged: nat, moved: nat, held: nat)
      modifies this
      ensures View() == MergedNorm(old(View()), norm)
    {
      hide MergedGroup, Losers, RowsOfAll;
      merged, moved, held := 0, 0, 0;
      var group := Group(View(), norm);
      if group != [] {
        moved, held := MergeGroup(group);
        merged := |group| - 1;
      }
    }

    method RunMerge() returns (stats: Stats)
      modifies this
      ensures View() == Merged(old(View()))
      ensures stats.groups == |DuplicateGroups(old(View()))|
    {
      var was := View();
      var groups := FindDuplicateGroups();
      stats := Stats(0, 0, 0, 0);
      hide MergedNorm, DuplicateGroups;
      for n := 0 to |groups|
        invariant View() == MergedNorms(was, groups[..n]) && stats.groups == n
      {
        assert groups[..n + 1][..n] == groups[..n];
        var merged, moved, held := MergeNorm(groups[n]);
        stats := Stats(n + 1, stats.merged + merged, stats.sourcesMoved + moved, stats.sourcesAlreadyHeld + held);
      }
      assert groups[..|groups|] == groups;
    }
  }
}
