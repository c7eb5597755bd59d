/** What merging duplicates keeps, and why a second run finds nothing. */
module MergeLaws {
  import opened Options
  import opened Rows
  import opened MergeDuplicates

  ghost predicate Valid(db: Db) {
    && (forall id :: id in db.posts ==> 1 <= id < db.nextPost)
    && (forall r :: r in db.sources ==> 1 <= r < db.nextSource && db.sources[r].posting in db.posts)
    && (forall r, q :: r in db.sources && q in db.sources && SamePlace(db.sources[r], db.sources[q]) ==> r == q)
  }

  predicate SamePlace(a: Source, b: Source) {
    a.posting == b.posting && a.url == b.url
  }

  // ----------------------------------------------------------------------------------------
  // The survivor
  // ----------------------------------------------------------------------------------------

  ghost predicate NoRepeats(ids: seq<int>) {
    forall i, j :: 0 <= i < j < |ids| ==> ids[i] != ids[j]
  }

  lemma {:induction false} IdsAscend<T>(rows: map<int, T>, n: int)
    ensures forall i :: 0 <= i < |Ids(rows, n)| ==> Ids(rows, n)[i] < n
    ensures NoRepeats(Ids(rows, n))
    decreases n
  {
    if n > 1 {
      IdsAscend(rows, n - 1);
    }
  }

  lemma {:induction false} GroupOfIsPart(db: Db, norm: Norm, ids: seq<int>)
    requires NoRepeats(ids)
    ensures NoRepeats(GroupOf(db, norm, ids)) && forall x :: x in GroupOf(db, norm, ids) ==> x in ids
  {
    if ids != [] {
      var last := |ids| - 1;
      GroupOfIsPart(db, norm, ids[..last]);
      assert forall x :: x in ids[..last] ==> x in ids;
    }
  }

  lemma GroupFacts(db: Db, norm: Norm)
    requires Valid(db)
    ensures NoRepeats(Group(db, norm)) && ArePosts(db, Group(db, norm))
    ensures forall id :: id in Group(db, norm) <==> InGroup(db, norm, id)
  {
    IdsAscend(db.posts, db.nextPost);
    GroupOfIsPart(db, norm, Ids(db.posts, db.nextPost));
  }

  lemma WorseIsTotal(db: Db, a: int, b: int)
    requires a in db.posts && b in db.posts && a != b
    ensures Worse(db, a, b) <==> !Worse(db, b, a)
  {
  }

  lemma WorseIsTransitive(db: Db, a: int, b: int, c: int)
    requires a in db.posts && b in db.posts && c in db.posts && Worse(db, a, b) && Worse(db, b, c)
    ensures Worse(db, a, c)
  {
  }

  /** `best` is at least as good as every row of `ids`. */
  ghost predicate IsBest(db: Db, ids: seq<int>, best: int) {
    ArePosts(db, ids) && best in db.posts && forall i :: 0 <= i < |ids| ==> ids[i] == best || Worse(db, ids[i], best)
  }

  lemma {:induction false} InsertKeepsBest(db: Db, ranked: seq<int>, id: int)
    requires ArePosts(db, ranked) && id in db.posts && id !in ranked && NoRepeats(ranked)
    requires ranked != [] ==> IsBest(db, ranked, ranked[|ranked| - 1])
    ensures var r := RankInsert(db, ranked, id); IsBest(db, r, r[|r| - 1]) && NoRepeats(r)
  {
    var r := RankInsert(db, ranked, id);
    InsertKeepsSet(db, ranked, id);
    if ranked != [] {
      var last := ranked[|ranked| - 1];
      assert forall x :: x in r <==> x in ranked || x == id;
      if Worse(db, id, last) {
        forall i | 0 <= i < |r|
          ensures r[i] == last || Worse(db, r[i], last)
        {
          if r[i] != id {
            assert r[i] in ranked;
          }
        }
      } else {
        WorseIsTotal(db, id, last);
        forall i | 0 <= i < |r|
          ensures r[i] == id || Worse(db, r[i], id)
        {
          if i < |ranked| && r[i] != last {
            WorseIsTransitive(db, r[i], last, id);
          }
        }
      }
    }
  }

  lemma {:induction false} InsertKeepsSet(db: Db, ranked: seq<int>, id: int)
    requires ArePosts(db, ranked) && id in db.posts && id !in ranked && NoRepeats(ranked)
    ensures NoRepeats(RankInsert(db, ranked, id)) && |RankInsert(db, ranked, id)| == |ranked| + 1
  {
    if ranked != [] && Worse(db, id, ranked[|ranked| - 1]) {
      var last := |ranked| - 1;
      InsertKeepsSet(db, ranked[..last], id);
      var rest := RankInsert(db, ranked[..last], id);
      forall i | 0 <= i < |rest|
        ensures rest[i] != ranked[last]
      {
        assert rest[i] in ranked[..last] || rest[i] == id;
      }
    }
  }

  lemma {:induction false} RankedFacts(db: Db, ids: seq<int>)
    requires ArePosts(db, ids) && NoRepeats(ids)
    ensures var r := Ranked(db, ids);
      NoRepeats(r) && |r| == |ids| && (r != [] ==> IsBest(db, r, r[|r| - 1]))
  {
    if ids != [] {
      var last := |ids| - 1;
      RankedFacts(db, ids[..last]);
      var rest := Ranked(db, ids[..last]);
      assert ids[last] !in ids[..last];
      InsertKeepsBest(db, rest, ids[last]);
      InsertKeepsSet(db, rest, ids[last]);
    }
  }

  /** The survivor is the best of its group, and the losers are the others. */
  lemma SurvivorFacts(db: Db, group: seq<int>)
    requires ArePosts(db, group) && NoRepeats(group) && group != []
    ensures Survivor(db, group) in group && IsBest(db, group, Survivor(db, group))
    ensures forall id :: id in Losers(db, group) <==> id in group && id != Survivor(db, group)
    ensures NoRepeats(Losers(db, group))
  {
    RankedFacts(db, group);
    var ranked := Ranked(db, group);
    var last := |ranked| - 1;
    assert ranked == ranked[..last] + [ranked[last]];
    forall i | 0 <= i < |group|
      ensures group[i] == ranked[last] || Worse(db, group[i], ranked[last])
    {
      assert group[i] in ranked;
    }
    forall id | id in ranked[..last]
      ensures id != ranked[last]
    {
    }
  }

  // ----------------------------------------------------------------------------------------
  // Moving source rows
  // ----------------------------------------------------------------------------------------

  /**
   * Rows only move to `to`, one for each URL it did not hold; of the first rows considered, each one's URL is held.
   */
  ghost predicate MovesOk(start: map<int, Source>, m: Moving, rows: seq<int>, to: int) {
    && (forall r :: r in start <==> r in m.sources)
    && (forall r :: r in start ==> m.sources[r] == start[r] || (m.sources[r] == start[r].(posting := to) && r in rows))
    && m.held == UrlsAt(m.sources, to)
    && (forall r, q :: r in m.sources && q in m.sources && m.sources[r].posting == to && SamePlace(m.sources[r], m.sources[q]) ==> r == q)
    && (forall i :: 0 <= i < |rows| && rows[i] in start ==> start[rows[i]].url in m.held)
    && (forall u :: u in m.held ==> u in UrlsAt(start, to) || exists i :: 0 <= i < |rows| && rows[i] in start && start[rows[i]].url == u)
  }

  lemma {:induction false} MovesFacts(start: map<int, Source>, rows: seq<int>, to: int)
    requires forall r, q :: r in start && q in start && SamePlace(start[r], start[q]) ==> r == q
    ensures MovesOk(start, MovedRows(Moving(start, UrlsAt(start, to)), rows, to), rows, to)
  {
    if rows != [] {
      var last := |rows| - 1;
      MovesFacts(start, rows[..last], to);
      assert rows == rows[..last] + [rows[last]];
      MoveFacts(start, MovedRows(Moving(start, UrlsAt(start, to)), rows[..last], to), rows[..last], rows[last], to);
    }
  }

  lemma MoveFacts(start: map<int, Source>, m: Moving, rows: seq<int>, r: int, to: int)
    requires MovesOk(start, m, rows, to)
    ensures MovesOk(start, MovedRow(m, r, to), rows + [r], to)
  {
    var n, longer := MovedRow(m, r, to), rows + [r];
    assert longer[|rows|] == r && forall i :: 0 <= i < |rows| ==> longer[i] == rows[i];
    assert forall x :: x in rows ==> x in longer;
    if n != m {
      HeldGrows(m, r, to);
    }
    HeldAreCarried(start, m, rows, r, to);
    hide UrlsAt;
  }

  lemma HeldAreCarried(start: map<int, Source>, m: Moving, rows: seq<int>, r: int, to: int)
    requires MovesOk(start, m, rows, to)
    ensures var n, longer := MovedRow(m, r, to), rows + [r];
      forall u :: u in n.held ==> u in UrlsAt(start, to) || exists i :: 0 <= i < |longer| && longer[i] in start && start[longer[i]].url == u
  {
    hide UrlsAt;
    var n, longer := MovedRow(m, r, to), rows + [r];
    assert longer[|rows|] == r && forall i :: 0 <= i < |rows| ==> longer[i] == rows[i];
    forall u | u in n.held
      ensures u in UrlsAt(start, to) || exists i :: 0 <= i < |longer| && longer[i] in start && start[longer[i]].url == u
    {
      if u in m.held {
        if u !in UrlsAt(start, to) {
          var i :| 0 <= i < |rows| && rows[i] in start && start[rows[i]].url == u;
          assert longer[i] in start && start[longer[i]].url == u;
        }
      } else {
        assert longer[|rows|] in start && start[longer[|rows|]].url == u;
      }
    }
  }

  lemma HeldGrows(m: Moving, r: int, to: int)
    requires r in m.sources && m.sources[r].url !in m.held && m.held == UrlsAt(m.sources, to)
    ensures UrlsAt(MovedRow(m, r, to).sources, to) == m.held + {m.sources[r].url}
  {
    var after, before := MovedRow(m, r, to).sources, m.sources;
    forall u
      ensures u in UrlsAt(after, to) <==> u in m.held + {m.sources[r].url}
    {
      if u in UrlsAt(after, to) {
        var q :| q in after && after[q].posting == to && after[q].url == u;
        assert q != r ==> q in before && before[q].posting == to && before[q].url == u;
      }
      if u in m.held {
        var q :| q in before && before[q].posting == to && before[q].url == u;
        assert q in after && after[q].posting == to && after[q].url == u;
      }
      if u == m.sources[r].url {
        assert r in after && after[r].posting == to && after[r].url == u;
      }
    }
  }

  // ----------------------------------------------------------------------------------------
  // One group merged
  // ----------------------------------------------------------------------------------------

  lemma {:induction false} RowsOfAllIsComplete(db: Db, ids: seq<int>, r: int)
    requires Valid(db) && r in db.sources && db.sources[r].posting in ids
    ensures r in RowsOfAll(db, ids)
  {
    var last := |ids| - 1;
    assert ids == ids[..last] + [ids[last]];
    if db.sources[r].posting == ids[last] {
      assert r in Ids(db.sources, db.nextSource);
      assert r in RowsOf(db, ids[last]);
    } else {
      RowsOfAllIsComplete(db, ids[..last], r);
    }
  }

  lemma {:induction false} EarliestFacts(db: Db, ids: seq<int>)
    requires ArePosts(db, ids) && ids != []
    ensures exists i :: 0 <= i < |ids| && db.posts[ids[i]].postedAt == Earliest(db, ids)
    ensures forall i :: 0 <= i < |ids| ==> Earliest(db, ids) <= db.posts[ids[i]].postedAt
  {
    var last := |ids| - 1;
    if last > 0 {
      EarliestFacts(db, ids[..last]);
      var i :| 0 <= i < |ids[..last]| && db.posts[ids[..last][i]].postedAt == Earliest(db, ids[..last]);
      assert ids[i] == ids[..last][i];
      assert forall j :: 0 <= j < last ==> ids[..last][j] == ids[j];
    } else {
      assert db.posts[ids[0]].postedAt == Earliest(db, ids);
    }
  }

  /** Some row of a posting of the group has this URL. */
  predicate GroupHasUrl(db: Db, norm: Norm, url: string) {
    exists r :: r in db.sources && InGroup(db, norm, db.sources[r].posting) && db.sources[r].url == url
  }

  predicate GroupIsLive(db: Db, norm: Norm) {
    exists id :: id in db.posts && InGroup(db, norm, id) && db.posts[id].delistedAt.None?
  }

  function RowIds(db: Db, id: int): set<int> {
    set r | r in db.sources && db.sources[r].posting == id
  }

  /** Which of two postings is kept: a live one, then the one with more rows, the longer description, the lower id. */
  predicate Beats(db: Db, a: int, b: int)
    requires a in db.posts && b in db.posts
  {
    var p, q := db.posts[a], db.posts[b];
    if p.delistedAt.None? != q.delistedAt.None? then p.delistedAt.None?
    else if |RowIds(db, a)| != |RowIds(db, b)| then |RowIds(db, a)| > |RowIds(db, b)|
    else if |p.description| != |q.description| then |p.description| > |q.description|
    else a < b
  }

  /** The posting of the group that beats every other. */
  ghost predicate IsKept(db: Db, norm: Norm, id: int) {
    InGroup(db, norm, id) && forall x :: InGroup(db, norm, x) && x != id ==> Beats(db, id, x)
  }

  predicate HasText(p: Post) {
    p.description != ""
  }

  predicate HasFields(p: Post) {
    p.fields.Some?
  }

  predicate IsEnriched(p: Post) {
    p.enrichedAt.Some?
  }

  /** Of the other postings of the group with something the kept one lacks, the one that all the others beat. */
  ghost predicate IsDonor(db: Db, norm: Norm, id: int, has: Post -> bool, x: int) {
    && InGroup(db, norm, x) && x != id && has(db.posts[x])
    && forall y :: InGroup(db, norm, y) && y != id && y != x && has(db.posts[y]) ==> Beats(db, y, x)
  }

  ghost predicate NoneHas(db: Db, norm: Norm, has: Post -> bool) {
    forall x :: InGroup(db, norm, x) ==> !has(db.posts[x])
  }

  /** The kept posting has what it had, and what it lacked from its donor. */
  ghost predicate Recovers(db: Db, e: Db, norm: Norm, id: int) {
    && id in db.posts && id in e.posts && e.posts[id].norm == db.posts[id].norm && e.posts[id].delistedAt == db.posts[id].delistedAt
    && (if HasText(db.posts[id]) then e.posts[id].description == db.posts[id].description
        else (NoneHas(db, norm, HasText) && e.posts[id].description == "")
             || exists x :: IsDonor(db, norm, id, HasText, x) && e.posts[id].description == db.posts[x].description)
    && (if HasFields(db.posts[id]) then e.posts[id].fields == db.posts[id].fields
        else (NoneHas(db, norm, HasFields) && e.posts[id].fields.None?)
             || exists x :: IsDonor(db, norm, id, HasFields, x) && e.posts[id].fields == db.posts[x].fields)
    && (if IsEnriched(db.posts[id]) then e.posts[id].enrichedAt == db.posts[id].enrichedAt
        else (NoneHas(db, norm, IsEnriched) && e.posts[id].enrichedAt.None?)
             || exists x :: IsDonor(db, norm, id, IsEnriched, x) && e.posts[id].enrichedAt == db.posts[x].enrichedAt)
  }

  /**
   * The one row left of a merged group: the one that beats all others, with the group's URLs, live if any was, its date the
   * earliest, and with what it lacked from the others.
   */
  ghost predicate Survives(db: Db, e: Db, norm: Norm, id: int) {
    && IsKept(db, norm, id) && InGroup(e, norm, id) && Recovers(db, e, norm, id)
    && (forall x :: InGroup(e, norm, x) ==> x == id)
    && (forall url :: url in UrlsAt(e.sources, id) <==> GroupHasUrl(db, norm, url))
    && (e.posts[id].delistedAt.None? <==> GroupIsLive(db, norm))
    && (forall x :: InGroup(db, norm, x) ==> e.posts[id].postedAt <= db.posts[x].postedAt)
    && (exists x :: InGroup(db, norm, x) && e.posts[id].postedAt == db.posts[x].postedAt)
  }

  /** Another group is as it was. */
  ghost predicate SameGroup(db: Db, e: Db, norm: Norm) {
    && (forall id :: InGroup(db, norm, id) <==> InGroup(e, norm, id))
    && (forall id :: InGroup(db, norm, id) ==> e.posts[id] == db.posts[id])
    && (forall r :: r in db.sources && InGroup(db, norm, db.sources[r].posting) ==> r in e.sources && e.sources[r] == db.sources[r])
    && (forall r :: r in e.sources && InGroup(e, norm, e.sources[r].posting) ==> r in db.sources && e.sources[r] == db.sources[r])
  }

  lemma MergeMoves(db: Db, norm: Norm) returns (m: Moving)
    requires Valid(db) && Group(db, norm) != [] && ArePosts(db, Group(db, norm))
    ensures var to, losers := Survivor(db, Group(db, norm)), Losers(db, Group(db, norm));
      && MovesOk(db.sources, m, RowsOfAll(db, losers), to)
      && MergedNorm(db, norm).sources == (map r | r in m.sources && m.sources[r].posting !in losers :: m.sources[r])
  {
    var group := Group(db, norm);
    var to, losers := Survivor(db, group), Losers(db, group);
    MovesFacts(db.sources, RowsOfAll(db, losers), to);
    m := MovedRows(Moving(db.sources, UrlsAt(db.sources, to)), RowsOfAll(db, losers), to);
  }

  lemma MergeKeepsValid(db: Db, norm: Norm)
    requires Valid(db)
    ensures Valid(MergedNorm(db, norm))
  {
    var group := Group(db, norm);
    GroupFacts(db, norm);
    if group != [] {
      SurvivorFacts(db, group);
      var m := MergeMoves(db, norm);
      var to, losers := Survivor(db, group), Losers(db, group);
      var e := MergedNorm(db, norm);
      assert e.nextPost == db.nextPost && e.nextSource == db.nextSource;
      assert forall id :: id in e.posts <==> id in db.posts && id !in losers;
      hide MergedNorm, Survivor, Losers, RowsOfAll, Group;
      MovedIsValid(db, m, e, RowsOfAll(db, losers), losers, to);
    }
  }

  lemma MovedIsValid(db: Db, m: Moving, e: Db, rows: seq<int>, losers: seq<int>, to: int)
    requires Valid(db) && MovesOk(db.sources, m, rows, to) && to in db.posts && to !in losers
    requires e.nextPost == db.nextPost && e.nextSource == db.nextSource
    requires forall id :: id in e.posts <==> id in db.posts && id !in losers
    requires e.sources == map r | r in m.sources && m.sources[r].posting !in losers :: m.sources[r]
    ensures Valid(e)
  {
    forall r, q | r in e.sources && q in e.sources && SamePlace(e.sources[r], e.sources[q])
      ensures r == q
    {
      assert m.sources[r] == e.sources[r] && m.sources[q] == e.sources[q];
      if m.sources[r].posting != to {
        assert SamePlace(db.sources[r], db.sources[q]);
      }
    }
  }

  lemma MergeLeavesOthers(db: Db, norm: Norm, other: Norm)
    requires Valid(db) && other != norm
    ensures SameGroup(db, MergedNorm(db, norm), other)
  {
    var group := Group(db, norm);
    GroupFacts(db, norm);
    if group != [] {
      SurvivorFacts(db, group);
      var m := MergeMoves(db, norm);
      assert forall id :: id in Losers(db, group) ==> InGroup(db, norm, id);
      assert InGroup(db, norm, Survivor(db, group));
      OtherRowsStay(db, m, RowsOfAll(db, Losers(db, group)), MergedNorm(db, norm), norm, other);
    }
  }

  lemma OtherRowsStay(db: Db, m: Moving, rows: seq<int>, e: Db, norm: Norm, other: Norm)
    requires other != norm && Group(db, norm) != [] && ArePosts(db, Group(db, norm)) && e == MergedNorm(db, norm)
    requires var to, losers := Survivor(db, Group(db, norm)), Losers(db, Group(db, norm));
      && MovesOk(db.sources, m, rows, to) && InGroup(db, norm, to) && (forall id :: id in losers ==> InGroup(db, norm, id))
      && rows == RowsOfAll(db, losers) && e.sources == map r | r in m.sources && m.sources[r].posting !in losers :: m.sources[r]
    ensures SameGroup(db, e, other)
  {
    hide RowsOfAll, Survivor, Losers, Group, UrlsAt, Earliest;
    assert forall r :: r in e.sources ==> r in db.sources && e.sources[r] == m.sources[r];
  }

  lemma MergeKeepsUrls(db: Db, norm: Norm, url: string)
    requires Valid(db) && Group(db, norm) != [] && ArePosts(db, Group(db, norm))
    ensures url in UrlsAt(MergedNorm(db, norm).sources, Survivor(db, Group(db, norm))) <==> GroupHasUrl(db, norm, url)
  {
    var group := Group(db, norm);
    var to, losers := Survivor(db, group), Losers(db, group);
    GroupFacts(db, norm);
    SurvivorFacts(db, group);
    var m := MergeMoves(db, norm);
    var e := MergedNorm(db, norm);
    var rows := RowsOfAll(db, losers);
    assert forall id :: id in losers ==> InGroup(db, norm, id);
    hide RowsOfAll, Survivor, Losers, Group, MergedNorm, Valid, IsBest;
    if url in UrlsAt(e.sources, to) {
      var r :| r in e.sources && e.sources[r].posting == to && e.sources[r].url == url;
      assert InGroup(db, norm, db.sources[r].posting) && db.sources[r].url == url;
    }
    if GroupHasUrl(db, norm, url) {
      var r :| r in db.sources && InGroup(db, norm, db.sources[r].posting) && db.sources[r].url == url;
      if db.sources[r].posting == to {
        assert url in m.held;
      } else {
        RowsOfAllIsComplete(db, losers, r);
        var i :| 0 <= i < |rows| && rows[i] == r;
        assert url in m.held;
      }
      var q :| q in m.sources && m.sources[q].posting == to && m.sources[q].url == url;
      assert q in e.sources && e.sources[q].posting == to && e.sources[q].url == url;
    }
  }

  lemma SurvivorIsLiveIfAny(db: Db, norm: Norm)
    requires Valid(db) && Group(db, norm) != [] && ArePosts(db, Group(db, norm))
    ensures db.posts[Survivor(db, Group(db, norm))].delistedAt.None? <==> GroupIsLive(db, norm)
  {
    var group := Group(db, norm);
    GroupFacts(db, norm);
    SurvivorFacts(db, group);
    var to := Survivor(db, group);
    if GroupIsLive(db, norm) {
      var id :| id in db.posts && InGroup(db, norm, id) && db.posts[id].delistedAt.None?;
      var i :| 0 <= i < |group| && group[i] == id;
      assert group[i] == to || Worse(db, group[i], to);
    } else {
      assert InGroup(db, norm, to);
    }
  }

  /** Merging a group leaves its best row, with everything the others had. */
  lemma MergeLeavesSurvivor(db: Db, norm: Norm)
    requires Valid(db) && Group(db, norm) != [] && ArePosts(db, Group(db, norm))
    ensures Survives(db, MergedNorm(db, norm), norm, Survivor(db, Group(db, norm)))
  {
    var group := Group(db, norm);
    var to, e := Survivor(db, group), MergedNorm(db, norm);
    GroupFacts(db, norm);
    SurvivorFacts(db, group);
    EarliestFacts(db, group);
    SurvivorIsLiveIfAny(db, norm);
    forall url
      ensures url in UrlsAt(e.sources, to) <==> GroupHasUrl(db, norm, url)
    {
      MergeKeepsUrls(db, norm, url);
    }
    SurvivorDate(db, norm);
    SurvivorIsKept(db, norm);
    SurvivorRecovers(db, norm);
    hide Recovers, IsKept, Survivor, MergedNorm, Recovered;
  }

  lemma WorseIsBeaten(db: Db, a: int, b: int)
    requires a in db.posts && b in db.posts && a != b
    ensures Worse(db, a, b) <==> Beats(db, b, a)
  {
    assert RowIds(db, a) == set r | r in db.sources && db.sources[r].posting == a;
    assert RowIds(db, b) == set r | r in db.sources && db.sources[r].posting == b;
  }

  lemma SurvivorIsKept(db: Db, norm: Norm)
    requires Valid(db) && Group(db, norm) != [] && ArePosts(db, Group(db, norm))
    ensures IsKept(db, norm, Survivor(db, Group(db, norm)))
  {
    var group := Group(db, norm);
    var to := Survivor(db, group);
    GroupFacts(db, norm);
    SurvivorFacts(db, group);
    forall x | InGroup(db, norm, x) && x != to
      ensures Beats(db, to, x)
    {
      assert x in group;
      var i :| 0 <= i < |group| && group[i] == x;
      WorseIsBeaten(db, x, to);
    }
  }

  ghost predicate IsRanked(db: Db, ids: seq<int>) {
    ArePosts(db, ids) && forall i, j :: 0 <= i < j < |ids| ==> Worse(db, ids[i], ids[j])
  }

  lemma {:induction false} InsertKeepsRank(db: Db, ranked: seq<int>, id: int)
    requires IsRanked(db, ranked) && id in db.posts && id !in ranked
    ensures IsRanked(db, RankInsert(db, ranked, id))
  {
    hide Worse;
    if ranked != [] {
      var front, last := ranked[..|ranked| - 1], ranked[|ranked| - 1];
      if Worse(db, id, last) {
        InsertKeepsRank(db, front, id);
        var rest := RankInsert(db, front, id);
        forall i | 0 <= i < |rest|
          ensures Worse(db, rest[i], last)
        {
          assert rest[i] in front || rest[i] == id;
        }
      } else {
        WorseIsTotal(db, id, last);
        forall i | 0 <= i < |ranked|
          ensures Worse(db, ranked[i], id)
        {
          if i < |ranked| - 1 {
            WorseIsTransitive(db, ranked[i], last, id);
          }
        }
      }
    }
  }

  lemma {:induction false} RankedIsSorted(db: Db, ids: seq<int>)
    requires ArePosts(db, ids) && NoRepeats(ids)
    ensures IsRanked(db, Ranked(db, ids))
  {
    if ids != [] {
      var last := |ids| - 1;
      RankedIsSorted(db, ids[..last]);
      assert ids[last] !in ids[..last];
      InsertKeepsRank(db, Ranked(db, ids[..last]), ids[last]);
    }
  }

  /** The first of the losers to have something is the one to give it. */
  ghost predicate FirstGives(db: Db, ids: seq<int>, has: Post -> bool, i: nat)
    requires ArePosts(db, ids)
  {
    && i <= |ids| && (i < |ids| ==> has(db.posts[ids[i]])) && forall j :: 0 <= j < i ==> !has(db.posts[ids[j]])
  }

  lemma {:induction false} FirstsAre(db: Db, ids: seq<int>) returns (t: nat, f: nat, n: nat)
    requires ArePosts(db, ids)
    ensures FirstGives(db, ids, HasText, t) && FirstDescription(db, ids) == if t < |ids| then db.posts[ids[t]].description else ""
    ensures FirstGives(db, ids, HasFields, f) && FirstFields(db, ids) == if f < |ids| then db.posts[ids[f]].fields else None
    ensures FirstGives(db, ids, IsEnriched, n) && FirstEnriched(db, ids) == if n < |ids| then db.posts[ids[n]].enrichedAt else None
  {
    t, f, n := 0, 0, 0;
    if ids != [] {
      assert forall i :: 1 <= i < |ids| ==> ids[i] == ids[1..][i - 1];
      var t', f', n' := FirstsAre(db, ids[1..]);
      t := if HasText(db.posts[ids[0]]) then 0 else t' + 1;
      f := if HasFields(db.posts[ids[0]]) then 0 else f' + 1;
      n := if IsEnriched(db.posts[ids[0]]) then 0 else n' + 1;
    }
  }

  lemma FirstIsDonor(db: Db, norm: Norm, id: int, ids: seq<int>, has: Post -> bool, i: nat)
    requires IsRanked(db, ids) && FirstGives(db, ids, has, i) && id in db.posts && !has(db.posts[id])
    requires forall x :: x in ids <==> InGroup(db, norm, x) && x != id
    requires NoRepeats(ids)
    ensures if i < |ids| then IsDonor(db, norm, id, has, ids[i]) else NoneHas(db, norm, has)
  {
    if i < |ids| {
      assert ids[i] in ids;
      forall y | InGroup(db, norm, y) && y != id && y != ids[i] && has(db.posts[y])
        ensures Beats(db, y, ids[i])
      {
        assert y in ids;
        var j :| 0 <= j < |ids| && ids[j] == y;
        WorseIsBeaten(db, ids[i], y);
      }
    } else {
      forall x | InGroup(db, norm, x)
        ensures !has(db.posts[x])
      {
        if x != id {
          assert x in ids;
          var j :| 0 <= j < |ids| && ids[j] == x;
        }
      }
    }
  }

  lemma SurvivorIsRecovered(db: Db, norm: Norm)
    requires Valid(db) && Group(db, norm) != [] && ArePosts(db, Group(db, norm))
    ensures var group := Group(db, norm);
      var to, e := Survivor(db, group), MergedNorm(db, norm);
      to in db.posts && to in e.posts && e.posts[to] == Recovered(db, group)
  {
    GroupFacts(db, norm);
    SurvivorFacts(db, Group(db, norm));
    hide Recovered, Survivor, Losers, Group;
  }

  lemma SurvivorRecovers(db: Db, norm: Norm)
    requires Valid(db) && Group(db, norm) != [] && ArePosts(db, Group(db, norm))
    ensures Recovers(db, MergedNorm(db, norm), norm, Survivor(db, Group(db, norm)))
  {
    var group := Group(db, norm);
    var to, losers := Survivor(db, group), Losers(db, group);
    GroupFacts(db, norm);
    SurvivorFacts(db, group);
    RankedIsSorted(db, group);
    var t, f, n := FirstsAre(db, losers);
    SurvivorIsRecovered(db, norm);
    assert IsRanked(db, losers);
    assert forall x :: x in losers <==> InGroup(db, norm, x) && x != to;
    hide Ranked, Survivor, Losers, Group, Worse, Beats, FirstDescription, FirstFields, FirstEnriched, MergedNorm, Earliest;
    hide Valid, IsBest, IsRanked, IsDonor, NoneHas, FirstGives, NoRepeats;
    if !HasText(db.posts[to]) {
      FirstIsDonor(db, norm, to, losers, HasText, t);
    }
    if !HasFields(db.posts[to]) {
      FirstIsDonor(db, norm, to, losers, HasFields, f);
    }
    if !IsEnriched(db.posts[to]) {
      FirstIsDonor(db, norm, to, losers, IsEnriched, n);
    }
  }

  lemma SurvivorDate(db: Db, norm: Norm)
    requires Valid(db) && Group(db, norm) != [] && ArePosts(db, Group(db, norm))
    ensures var group := Group(db, norm);
      && (forall x :: InGroup(db, norm, x) ==> Recovered(db, group).postedAt <= db.posts[x].postedAt)
      && (exists x :: InGroup(db, norm, x) && Recovered(db, group).postedAt == db.posts[x].postedAt)
  {
    var group := Group(db, norm);
    GroupFacts(db, norm);
    SurvivorFacts(db, group);
    EarliestFacts(db, group);
    var i :| 0 <= i < |group| && db.posts[group[i]].postedAt == Earliest(db, group);
    var s :| 0 <= s < |group| && group[s] == Survivor(db, group);
    assert InGroup(db, norm, group[i]) && Recovered(db, group).postedAt == db.posts[group[i]].postedAt;
    forall x | InGroup(db, norm, x)
      ensures Earliest(db, group) <= db.posts[x].postedAt
    {
      var j :| 0 <= j < |group| && group[j] == x;
    }
  }

  // ----------------------------------------------------------------------------------------
  // All groups merged
  // ----------------------------------------------------------------------------------------

  /** A publisher knows two rows of the group under two ids. */
  ghost predicate HasTwoJobs(db: Db, norm: Norm) {
    exists r, q, x, y :: r in db.sources && q in db.sources && x != y && IsKnownAs(db, norm, r, x) && IsKnownAs(db, norm, q, y)
                         && db.sources[r].source == db.sources[q].source
  }

  predicate IsKnownAs(db: Db, norm: Norm, r: int, id: string) {
    r in db.sources && InGroup(db, norm, db.sources[r].posting) && db.sources[r].identity == Some(id)
  }

  /** Mergeable in terms of the rows alone: two of them, and no two publisher ids of one source. */
  ghost predicate HasDuplicates(db: Db, norm: Norm) {
    (exists a, b :: InGroup(db, norm, a) && InGroup(db, norm, b) && a != b) && !HasTwoJobs(db, norm)
  }

  lemma ConflictingIff(db: Db, norm: Norm)
    ensures Conflicting(db, norm) <==> HasTwoJobs(db, norm)
  {
    if r, q :| r in db.sources && q in db.sources && Contradict(db, norm, db.sources[r], db.sources[q]) {
      assert IsKnownAs(db, norm, r, db.sources[r].identity.value) && IsKnownAs(db, norm, q, db.sources[q].identity.value);
    }
    if HasTwoJobs(db, norm) {
      var r, q, x, y :| r in db.sources && q in db.sources && x != y && IsKnownAs(db, norm, r, x) && IsKnownAs(db, norm, q, y)
                        && db.sources[r].source == db.sources[q].source;
      assert Contradict(db, norm, db.sources[r], db.sources[q]);
    }
  }

  lemma MergeableIffDuplicates(db: Db, norm: Norm)
    requires Valid(db)
    ensures Mergeable(db, norm) <==> HasDuplicates(db, norm)
  {
    GroupFacts(db, norm);
    ConflictingIff(db, norm);
    var group := Group(db, norm);
    if |group| >= 2 {
      assert InGroup(db, norm, group[0]) && InGroup(db, norm, group[1]) && group[0] != group[1];
    }
    if a, b :| InGroup(db, norm, a) && InGroup(db, norm, b) && a != b {
      var i :| 0 <= i < |group| && group[i] == a;
      var j :| 0 <= j < |group| && group[j] == b;
      assert i != j;
    }
  }

  lemma SameGroupKeeps(db: Db, e: Db, norm: Norm)
    requires SameGroup(db, e, norm)
    ensures HasDuplicates(db, norm) <==> HasDuplicates(e, norm)
    ensures forall url :: GroupHasUrl(db, norm, url) <==> GroupHasUrl(e, norm, url)
    ensures GroupIsLive(db, norm) <==> GroupIsLive(e, norm)
  {
    forall url
      ensures GroupHasUrl(db, norm, url) <==> GroupHasUrl(e, norm, url)
    {
      if GroupHasUrl(db, norm, url) {
        var r :| r in db.sources && InGroup(db, norm, db.sources[r].posting) && db.sources[r].url == url;
        assert r in e.sources && InGroup(e, norm, e.sources[r].posting) && e.sources[r].url == url;
      }
      if GroupHasUrl(e, norm, url) {
        var r :| r in e.sources && InGroup(e, norm, e.sources[r].posting) && e.sources[r].url == url;
        assert r in db.sources && InGroup(db, norm, db.sources[r].posting) && db.sources[r].url == url;
      }
    }
    ConflictKept(db, e, norm);
    if id :| id in db.posts && InGroup(db, norm, id) && db.posts[id].delistedAt.None? {
      assert id in e.posts && InGroup(e, norm, id) && e.posts[id].delistedAt.None?;
    }
    if id :| id in e.posts && InGroup(e, norm, id) && e.posts[id].delistedAt.None? {
      assert id in db.posts && InGroup(db, norm, id) && db.posts[id].delistedAt.None?;
    }
  }

  lemma ConflictKept(db: Db, e: Db, norm: Norm)
    requires SameGroup(db, e, norm)
    ensures HasTwoJobs(db, norm) <==> HasTwoJobs(e, norm)
  {
    assert forall r, x :: IsKnownAs(db, norm, r, x) <==> IsKnownAs(e, norm, r, x);
    assert forall r, x :: IsKnownAs(db, norm, r, x) ==> e.sources[r] == db.sources[r];
    hide IsKnownAs;
  }

  lemma BeatsKept(db: Db, e: Db, norm: Norm)
    requires SameGroup(db, e, norm)
    ensures forall a, b :: InGroup(db, norm, a) && InGroup(db, norm, b) ==> (Beats(db, a, b) <==> Beats(e, a, b))
  {
    forall a | InGroup(db, norm, a)
      ensures RowIds(db, a) == RowIds(e, a)
    {
      forall r
        ensures r in RowIds(db, a) <==> r in RowIds(e, a)
      {
        assert InGroup(e, norm, a);
      }
    }
    hide RowIds;
  }

  lemma RecoversKept(db: Db, e: Db, f: Db, norm: Norm, id: int)
    requires SameGroup(db, e, norm) && IsKept(e, norm, id) && Recovers(e, f, norm, id)
    ensures IsKept(db, norm, id) && Recovers(db, f, norm, id)
  {
    BeatsKept(db, e, norm);
    hide Beats;
    forall has: Post -> bool, x
      ensures IsDonor(db, norm, id, has, x) <==> IsDonor(e, norm, id, has, x)
      ensures NoneHas(db, norm, has) <==> NoneHas(e, norm, has)
    {
    }
    hide IsDonor, NoneHas;
  }

  lemma SameGroupTransitive(a: Db, b: Db, c: Db, norm: Norm)
    requires SameGroup(a, b, norm) && SameGroup(b, c, norm)
    ensures SameGroup(a, c, norm)
  {
  }

  lemma SurvivesKept(db: Db, e: Db, f: Db, norm: Norm, id: int)
    requires Survives(db, e, norm, id) && SameGroup(e, f, norm)
    ensures Survives(db, f, norm, id)
  {
    forall url
      ensures url in UrlsAt(e.sources, id) <==> url in UrlsAt(f.sources, id)
    {
      if url in UrlsAt(e.sources, id) {
        var r :| r in e.sources && e.sources[r].posting == id && e.sources[r].url == url;
        assert r in f.sources && f.sources[r].posting == id && f.sources[r].url == url;
      }
      if url in UrlsAt(f.sources, id) {
        var r :| r in f.sources && f.sources[r].posting == id && f.sources[r].url == url;
        assert r in e.sources && e.sources[r].posting == id && e.sources[r].url == url;
      }
    }
  }

  lemma SurvivesFrom(db: Db, e: Db, f: Db, norm: Norm, id: int)
    requires SameGroup(db, e, norm) && Survives(e, f, norm, id)
    ensures Survives(db, f, norm, id)
  {
    SameGroupKeeps(db, e, norm);
    RecoversKept(db, e, f, norm, id);
    hide Recovers, IsKept;
    var x :| InGroup(e, norm, x) && f.posts[id].postedAt == e.posts[x].postedAt;
    assert InGroup(db, norm, x) && f.posts[id].postedAt == db.posts[x].postedAt;
  }

  ghost predicate HasSurvivor(db: Db, e: Db, norm: Norm) {
    exists id :: Survives(db, e, norm, id)
  }

  ghost predicate DistinctNorms(norms: seq<Norm>) {
    forall i, j :: 0 <= i < j < |norms| ==> norms[i] != norms[j]
  }

  /** Of the groups, those listed are each one row, and the others as they were. */
  ghost predicate Reached(db: Db, e: Db, norms: seq<Norm>, norm: Norm) {
    Valid(e) && if norm in norms then HasSurvivor(db, e, norm) else SameGroup(db, e, norm)
  }

  lemma NextNorm(db: Db, e: Db, norms: seq<Norm>, n: Norm, norm: Norm)
    requires Valid(db) && n !in norms && Group(db, n) != [] && Reached(db, e, norms, norm) && Reached(db, e, norms, n)
    ensures Reached(db, MergedNorm(e, n), norms + [n], norm)
  {
    var f := MergedNorm(e, n);
    MergeKeepsValid(e, n);
    hide Survives, SameGroup, MergedNorm, Valid;
    if norm == n {
      GroupNotEmpty(db, e, n);
      MergeLeavesSurvivor(e, n);
      SurvivesFrom(db, e, f, n, Survivor(e, Group(e, n)));
    } else {
      MergeLeavesOthers(e, n, norm);
      if norm in norms {
        var id :| Survives(db, e, norm, id);
        SurvivesKept(db, e, f, norm, id);
      } else {
        SameGroupTransitive(db, e, f, norm);
      }
    }
  }

  lemma {:induction false} MergedNormsFacts(db: Db, norms: seq<Norm>, norm: Norm)
    requires Valid(db) && DistinctNorms(norms)
    requires forall i :: 0 <= i < |norms| ==> Group(db, norms[i]) != []
    ensures Reached(db, MergedNorms(db, norms), norms, norm)
    decreases |norms|
  {
    if norms != [] {
      hide Reached, MergedNorm;
      var last := |norms| - 1;
      assert norms == norms[..last] + [norms[last]] && norms[last] !in norms[..last];
      MergedNormsFacts(db, norms[..last], norm);
      MergedNormsFacts(db, norms[..last], norms[last]);
      NextNorm(db, MergedNorms(db, norms[..last]), norms[..last], norms[last], norm);
    }
  }

  lemma GroupNotEmpty(db: Db, e: Db, norm: Norm)
    requires Valid(db) && Valid(e) && SameGroup(db, e, norm) && Group(db, norm) != []
    ensures Group(e, norm) != [] && ArePosts(e, Group(e, norm))
  {
    GroupFacts(db, norm);
    GroupFacts(e, norm);
    var id := Group(db, norm)[0];
    assert InGroup(db, norm, id);
    assert id in Group(e, norm);
  }

  lemma {:induction false} NormsAreDistinct(db: Db, ids: seq<int>)
    requires ArePosts(db, ids)
    ensures DistinctNorms(NormsAmong(db, ids))
  {
    if ids != [] {
      NormsAreDistinct(db, ids[..|ids| - 1]);
    }
  }

  lemma {:induction false} MergeablesAreDistinct(db: Db, norms: seq<Norm>)
    requires DistinctNorms(norms)
    ensures DistinctNorms(MergeableAmong(db, norms))
  {
    if norms != [] {
      var last := |norms| - 1;
      MergeablesAreDistinct(db, norms[..last]);
      assert norms[last] !in norms[..last];
    }
  }

  /** The groups found are all that can be merged. */
  lemma DuplicateGroupsAreAll(db: Db, norm: Norm)
    requires Valid(db)
    ensures norm in DuplicateGroups(db) <==> HasDuplicates(db, norm)
    ensures DistinctNorms(DuplicateGroups(db))
    ensures forall i :: 0 <= i < |DuplicateGroups(db)| ==> Group(db, DuplicateGroups(db)[i]) != []
  {
    var ids := Ids(db.posts, db.nextPost);
    NormsAreDistinct(db, ids);
    MergeablesAreDistinct(db, NormsAmong(db, ids));
    MergeableIffDuplicates(db, norm);
    if HasDuplicates(db, norm) {
      var a :| InGroup(db, norm, a);
      assert a in ids;
      var i :| 0 <= i < |ids| && ids[i] == a;
    }
    forall i | 0 <= i < |DuplicateGroups(db)|
      ensures Group(db, DuplicateGroups(db)[i]) != []
    {
      assert DuplicateGroups(db)[i] in DuplicateGroups(db);
      assert Mergeable(db, DuplicateGroups(db)[i]);
    }
  }

  /**
   * Merging the whole database: each group of duplicates is one row, its best, with the URLs of all and the earliest
   * date, live if any was; every other group, conflicting ones among them, is as it was.
   */
  lemma MergeWholeDatabase(db: Db, norm: Norm)
    requires Valid(db)
    ensures Valid(Merged(db))
    ensures HasDuplicates(db, norm) ==> HasSurvivor(db, Merged(db), norm)
    ensures !HasDuplicates(db, norm) ==> SameGroup(db, Merged(db), norm)
  {
    DuplicateGroupsAreAll(db, norm);
    MergedNormsFacts(db, DuplicateGroups(db), norm);
  }

  /** A second run finds nothing to merge, and changes nothing. */
  lemma MergeIsIdempotent(db: Db)
    requires Valid(db)
    ensures DuplicateGroups(Merged(db)) == [] && Merged(Merged(db)) == Merged(db)
  {
    var e := Merged(db);
    var groups := DuplicateGroups(e);
    if |groups| > 0 {
      var norm := groups[0];
      assert norm in groups;
      NothingLeft(db, norm);
      assert false;
    }
  }

  lemma NothingLeft(db: Db, norm: Norm)
    requires Valid(db)
    ensures norm !in DuplicateGroups(Merged(db))
  {
    var e := Merged(db);
    MergeWholeDatabase(db, norm);
    hide Merged, Valid;
    DuplicateGroupsAreAll(e, norm);
    if HasDuplicates(db, norm) {
      var id :| Survives(db, e, norm, id);
    } else {
      SameGroupKeeps(db, e, norm);
    }
  }
}
