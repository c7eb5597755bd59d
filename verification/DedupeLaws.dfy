/** What grouping and every merge pass keep: no record lost, one company, one id per publisher, the best record's key. */
module DedupeLaws {
  import opened Options
  import opened TextOrder
  import opened Dedupe

  // ----------------------------------------------------------------------------------------
  // The ranking is a weak order
  // ----------------------------------------------------------------------------------------

  lemma AheadIsAsymmetric(a: Raw, b: Raw)
    ensures !Ahead(a, a)
    ensures !(Ahead(a, b) && Ahead(b, a))
  {
    BeforeIsIrreflexive(a.url);
    BeforeIsTotal(a.url, b.url);
  }

  lemma AheadIsTransitive(a: Raw, b: Raw, c: Raw)
    requires Ahead(a, b) && Ahead(b, c)
    ensures Ahead(a, c)
  {
    if Before(a.url, b.url) && Before(b.url, c.url) {
      BeforeIsTransitive(a.url, b.url, c.url);
    }
  }

  lemma NotBehindIsTransitive(a: Raw, b: Raw, c: Raw)
    requires !Ahead(a, b) && !Ahead(b, c)
    ensures !Ahead(a, c)
  {
    BeforeIsTotal(a.url, b.url);
    BeforeIsTotal(b.url, c.url);
    BeforeIsTotal(a.url, c.url);
    if Before(a.url, c.url) && Before(c.url, b.url) {
      BeforeIsTransitive(a.url, c.url, b.url);
    }
    if Before(b.url, a.url) && Before(a.url, c.url) {
      BeforeIsTransitive(b.url, a.url, c.url);
    }
  }

  lemma {:induction false} NobodyIsAheadOfBest(s: seq<Raw>, x: Raw)
    requires s != [] && x in s
    ensures !Ahead(x, Best(s))
  {
    var last := s[|s| - 1];
    AheadIsAsymmetric(last, last);
    if |s| > 1 {
      var front := s[..|s| - 1];
      AheadIsAsymmetric(last, Best(front));
      if x in front {
        NobodyIsAheadOfBest(front, x);
        if Ahead(last, Best(front)) && Ahead(x, last) {
          AheadIsTransitive(x, last, Best(front));
        }
      }
    }
  }

  lemma {:induction false} BestSurvivesWorseRecords(s: seq<Raw>, t: seq<Raw>)
    requires s != []
    requires forall x :: x in t ==> !Ahead(x, Best(s))
    ensures Best(s + t) == Best(s)
  {
    if t == [] {
      assert s + t == s;
    } else {
      BestSurvivesWorseRecords(s, t[..|t| - 1]);
      assert (s + t)[..|s + t| - 1] == s + t[..|t| - 1];
    }
  }

  // ----------------------------------------------------------------------------------------
  // Conservation
  // ----------------------------------------------------------------------------------------

  ghost function Records(groups: seq<Group>): multiset<Raw> {
    if groups == [] then multiset{} else Records(groups[..|groups| - 1]) + multiset(groups[|groups| - 1].sources)
  }

  ghost function Keys(groups: seq<Group>): multiset<Key> {
    if groups == [] then multiset{} else Keys(groups[..|groups| - 1]) + multiset{groups[|groups| - 1].key}
  }

  lemma AppendCounts(groups: seq<Group>, g: Group)
    ensures Records(groups + [g]) == Records(groups) + multiset(g.sources)
    ensures Keys(groups + [g]) == Keys(groups) + multiset{g.key}
  {
    assert (groups + [g])[..|groups|] == groups;
  }

  lemma {:induction false} SameKeySameKeys(groups: seq<Group>, i: nat, g: Group)
    requires i < |groups| && g.key == groups[i].key
    ensures Keys(groups[i := g]) == Keys(groups)
  {
    var n := |groups| - 1;
    var out := groups[i := g];
    if i == n {
      assert out[..n] == groups[..n];
    } else {
      SameKeySameKeys(groups[..n], i, g);
      assert out[..n] == groups[..n][i := g];
    }
  }

  lemma {:induction false} ExtendCounts(groups: seq<Group>, i: nat, g: Group, more: seq<Raw>)
    requires i < |groups| && g.sources == groups[i].sources + more
    ensures Records(groups[i := g]) == Records(groups) + multiset(more)
  {
    var n := |groups| - 1;
    var out := groups[i := g];
    if i == n {
      assert out[..n] == groups[..n];
      assert multiset(g.sources) == multiset(groups[n].sources) + multiset(more);
    } else {
      var front := groups[..n];
      ExtendCounts(front, i, g, more);
      assert out[..n] == front[i := g];
      assert Records(out) == Records(front[i := g]) + multiset(groups[n].sources);
    }
  }

  lemma {:induction false} KeysAreMembers(groups: seq<Group>, i: nat)
    requires i < |groups|
    ensures groups[i].key in Keys(groups)
    ensures multiset(groups[i].sources) <= Records(groups)
  {
    if i < |groups| - 1 {
      KeysAreMembers(groups[..|groups| - 1], i);
    }
  }

  lemma {:induction false} MembersAreKeys(groups: seq<Group>, k: Key) returns (i: nat)
    requires k in Keys(groups)
    ensures i < |groups| && groups[i].key == k
  {
    i := |groups| - 1;
    if groups[i].key != k {
      i := MembersAreKeys(groups[..|groups| - 1], k);
    }
  }

  lemma {:induction false} RankInsertRecords(ranked: seq<Group>, g: Group)
    ensures Records(RankInsert(ranked, g)) == Records(ranked) + multiset(g.sources)
  {
    AppendCounts(ranked, g);
    if ranked != [] {
      var front, last := ranked[..|ranked| - 1], ranked[|ranked| - 1];
      RankInsertRecords(front, g);
      AppendCounts(RankInsert(front, g), last);
    }
  }

  lemma {:induction false} RankInsertKeys(ranked: seq<Group>, g: Group)
    ensures Keys(RankInsert(ranked, g)) == Keys(ranked) + multiset{g.key}
  {
    AppendCounts(ranked, g);
    if ranked != [] {
      var front, last := ranked[..|ranked| - 1], ranked[|ranked| - 1];
      RankInsertKeys(front, g);
      AppendCounts(RankInsert(front, g), last);
    }
  }

  lemma {:induction false} RankedCounts(groups: seq<Group>)
    ensures Records(Ranked(groups)) == Records(groups)
    ensures Keys(Ranked(groups)) == Keys(groups)
  {
    if groups != [] {
      var front, last := groups[..|groups| - 1], groups[|groups| - 1];
      RankedCounts(front);
      RankInsertRecords(Ranked(front), last);
      RankInsertKeys(Ranked(front), last);
    }
  }

  lemma {:induction false} PlaceAllCounts(ranked: seq<Group>, pass: Pass)
    ensures Records(PlaceAll(ranked, pass)) == Records(ranked)
    ensures Keys(PlaceAll(ranked, pass)) <= Keys(ranked)
  {
    if ranked != [] {
      var kept := PlaceAll(ranked[..|ranked| - 1], pass);
      var g := ranked[|ranked| - 1];
      PlaceAllCounts(ranked[..|ranked| - 1], pass);
      assert PlaceAll(ranked, pass) == Place(kept, g, pass);
      var i := TargetFrom(kept, g, pass, 0);
      if i < |kept| {
        ExtendCounts(kept, i, Absorb(kept[i], g), g.sources);
        SameKeySameKeys(kept, i, Absorb(kept[i], g));
      } else {
        AppendCounts(kept, g);
      }
    }
  }

  ghost predicate DistinctKeys(groups: seq<Group>) {
    forall k :: Keys(groups)[k] <= 1
  }

  lemma AddRawRecords(groups: seq<Group>, r: Raw)
    ensures Records(AddRaw(groups, r)) == Records(groups) + multiset{r}
  {
    var i := IndexOfKey(groups, KeyOf(r));
    if i < |groups| {
      ExtendCounts(groups, i, Joined(groups[i], r), [r]);
    } else {
      AppendCounts(groups, NewGroup(r));
    }
  }

  lemma {:induction false} GroupedRecords(raws: seq<Raw>)
    ensures Records(Grouped(raws)) == multiset(raws)
  {
    if raws != [] {
      var front, r := raws[..|raws| - 1], raws[|raws| - 1];
      assert multiset(raws) == multiset(front) + multiset{r} by {
        assert raws == front + [r];
      }
      assert Grouped(raws) == AddRaw(Grouped(front), r);
      AddRawRecords(Grouped(front), r);
      GroupedRecords(front);
    }
  }

  lemma {:induction false} GroupedKeys(raws: seq<Raw>)
    ensures DistinctKeys(Grouped(raws))
  {
    if raws != [] {
      var front, r := raws[..|raws| - 1], raws[|raws| - 1];
      var groups := Grouped(front);
      GroupedKeys(front);
      var i := IndexOfKey(groups, KeyOf(r));
      if i < |groups| {
        SameKeySameKeys(groups, i, Joined(groups[i], r));
      } else {
        AppendCounts(groups, NewGroup(r));
        if KeyOf(r) in Keys(groups) {
          var j := MembersAreKeys(groups, KeyOf(r));
          assert false;
        }
      }
    }
  }

  /** A pass conserves every record and never makes two groups share a dedupe key. */
  lemma PassConserves(groups: seq<Group>, pass: Pass)
    ensures Records(Merged(groups, pass)) == Records(groups)
    ensures DistinctKeys(groups) ==> DistinctKeys(Merged(groups, pass))
  {
    RankedCounts(groups);
    PlaceAllCounts(Ranked(groups), pass);
  }

  /** No source record is dropped or invented, and the resulting dedupe keys are pairwise distinct. */
  lemma DedupeConservesRecords(raws: seq<Raw>)
    ensures Records(DedupedGroups(raws)) == multiset(raws)
    ensures DistinctKeys(DedupedGroups(raws))
  {
    GroupedRecords(raws);
    GroupedKeys(raws);
    var first := Merged(Grouped(raws), SharedIdentity);
    PassConserves(Grouped(raws), SharedIdentity);
    PassConserves(first, NearDuplicate);
    PassConserves(Merged(first, NearDuplicate), RemoteVersusCity);
  }

  lemma {:induction false} MaterializedAt(groups: seq<Group>, fallback: int, i: nat)
    requires i < |groups|
    ensures MaterializedAll(groups, fallback)[i] == Materialized(groups[i], fallback)
  {
    hide Materialized;
    if i < |groups| - 1 {
      MaterializedAt(groups[..|groups| - 1], fallback, i);
    }
  }

  // ----------------------------------------------------------------------------------------
  // Identity of every group
  // ----------------------------------------------------------------------------------------

  ghost predicate Fits(g: Group, r: Raw) {
    r.company == g.key.company && (r.publisherId.Some? ==> r.source in g.ids && g.ids[r.source] == r.publisherId.value)
  }

  /** One company, every record's publisher id on file, and the key its best record had on its own. */
  ghost predicate Sound(g: Group) {
    g.key == KeyOf(Best(g.sources)) && forall r :: r in g.sources ==> Fits(g, r)
  }

  ghost predicate AllSound(groups: seq<Group>) {
    forall i :: 0 <= i < |groups| ==> Sound(groups[i])
  }

  ghost predicate OneIdPerPublisher(g: Group) {
    forall r, t :: r in g.sources && t in g.sources && r.source == t.source && r.publisherId.Some? && t.publisherId.Some?
      ==> r.publisherId == t.publisherId
  }

  lemma SoundMeansOneId(g: Group)
    requires Sound(g)
    ensures OneIdPerPublisher(g)
  {
    forall r, t | r in g.sources && t in g.sources && r.source == t.source && r.publisherId.Some? && t.publisherId.Some?
      ensures r.publisherId == t.publisherId
    {
      assert Fits(g, r) && Fits(g, t);
    }
  }

  ghost predicate SortedByBest(groups: seq<Group>) {
    forall i, j :: 0 <= i < j < |groups| ==> !Ahead(Best(groups[j].sources), Best(groups[i].sources))
  }

  lemma {:induction false} RankInsertMembers(ranked: seq<Group>, g: Group, x: Group)
    ensures x in RankInsert(ranked, g) <==> x in ranked || x == g
  {
    if ranked != [] {
      RankInsertMembers(ranked[..|ranked| - 1], g, x);
      assert ranked == ranked[..|ranked| - 1] + [ranked[|ranked| - 1]];
    }
  }

  lemma {:induction false} RankInsertSorts(ranked: seq<Group>, g: Group)
    requires SortedByBest(ranked)
    ensures SortedByBest(RankInsert(ranked, g))
  {
    if ranked != [] {
      var front, last := ranked[..|ranked| - 1], ranked[|ranked| - 1];
      var out := RankInsert(ranked, g);
      if Ahead(Best(g.sources), Best(last.sources)) {
        RankInsertSorts(front, g);
        var inner := RankInsert(front, g);
        AheadIsAsymmetric(Best(g.sources), Best(last.sources));
        forall i | 0 <= i < |inner| ensures !Ahead(Best(last.sources), Best(inner[i].sources)) {
          RankInsertMembers(front, g, inner[i]);
        }
      } else {
        forall i | 0 <= i < |ranked| ensures !Ahead(Best(g.sources), Best(ranked[i].sources)) {
          if i < |ranked| - 1 {
            NotBehindIsTransitive(Best(g.sources), Best(last.sources), Best(ranked[i].sources));
          }
        }
      }
    }
  }

  lemma {:induction false} RankedIsSorted(groups: seq<Group>)
    ensures SortedByBest(Ranked(groups))
  {
    if groups != [] {
      var front, last := groups[..|groups| - 1], groups[|groups| - 1];
      RankedIsSorted(front);
      RankInsertSorts(Ranked(front), last);
    }
  }

  lemma {:induction false} RankedMembers(groups: seq<Group>, x: Group)
    ensures x in Ranked(groups) <==> x in groups
  {
    if groups != [] {
      var front, last := groups[..|groups| - 1], groups[|groups| - 1];
      RankedMembers(front, x);
      RankInsertMembers(Ranked(front), last, x);
      assert groups == front + [last];
    }
  }

  lemma RankedKeepsSound(groups: seq<Group>)
    requires AllSound(groups)
    ensures AllSound(Ranked(groups))
  {
    forall i | 0 <= i < |Ranked(groups)| ensures Sound(Ranked(groups)[i]) {
      RankedMembers(groups, Ranked(groups)[i]);
    }
  }

  lemma AbsorbingWorseKeepsBest(t: Group, g: Group)
    requires !Ahead(Best(g.sources), Best(t.sources))
    ensures Best(Absorb(t, g).sources) == Best(t.sources)
  {
    forall x | x in g.sources ensures !Ahead(x, Best(t.sources)) {
      NobodyIsAheadOfBest(g.sources, x);
      NotBehindIsTransitive(x, Best(g.sources), Best(t.sources));
    }
    BestSurvivesWorseRecords(t.sources, g.sources);
  }

  lemma AbsorbKeepsSound(t: Group, g: Group)
    requires Sound(t) && Sound(g)
    requires t.key.company == g.key.company && !Conflict(t.ids, g.ids)
    requires !Ahead(Best(g.sources), Best(t.sources))
    ensures Sound(Absorb(t, g))
  {
    AbsorbingWorseKeepsBest(t, g);
    var u := Absorb(t, g);
    forall r | r in u.sources ensures Fits(u, r) {
      if r in t.sources {
        assert Fits(t, r);
      } else {
        assert r in g.sources && Fits(g, r);
      }
    }
  }

  lemma {:induction false} TargetCanMerge(kept: seq<Group>, g: Group, pass: Pass, start: nat)
    requires start <= |kept|
    ensures var i := TargetFrom(kept, g, pass, start); i < |kept| ==> CanMerge(pass, kept[i], g)
    decreases |kept| - start
  {
    if start < |kept| && !CanMerge(pass, kept[start], g) {
      TargetCanMerge(kept, g, pass, start + 1);
    }
  }

  lemma TargetAbsorbs(kept: seq<Group>, g: Group, pass: Pass, i: nat)
    requires i < |kept| && i == TargetFrom(kept, g, pass, 0)
    requires Sound(kept[i]) && Sound(g) && !Ahead(Best(g.sources), Best(kept[i].sources))
    ensures Sound(Absorb(kept[i], g)) && Best(Absorb(kept[i], g).sources) == Best(kept[i].sources)
  {
    TargetCanMerge(kept, g, pass, 0);
    AbsorbKeepsSound(kept[i], g);
    AbsorbingWorseKeepsBest(kept[i], g);
  }

  /** No kept group leads with a record that `b` would outrank. */
  ghost predicate NoneBehind(kept: seq<Group>, b: Raw) {
    forall i :: 0 <= i < |kept| ==> !Ahead(b, Best(kept[i].sources))
  }

  lemma PlaceKeepsSound(kept: seq<Group>, g: Group, pass: Pass)
    requires AllSound(kept) && Sound(g) && NoneBehind(kept, Best(g.sources))
    ensures AllSound(Place(kept, g, pass))
    ensures forall i :: 0 <= i < |kept| ==> Best(Place(kept, g, pass)[i].sources) == Best(kept[i].sources)
  {
    var i := TargetFrom(kept, g, pass, 0);
    var out := Place(kept, g, pass);
    if i < |kept| {
      TargetAbsorbs(kept, g, pass, i);
      assert out == kept[i := Absorb(kept[i], g)];
    } else {
      assert out == kept + [g];
    }
  }

  lemma {:induction false} PlaceAllKeepsSound(ranked: seq<Group>, pass: Pass, b: Raw)
    requires AllSound(ranked) && SortedByBest(ranked) && NoneBehind(ranked, b)
    ensures AllSound(PlaceAll(ranked, pass))
    ensures NoneBehind(PlaceAll(ranked, pass), b)
  {
    if ranked != [] {
      var n := |ranked| - 1;
      var front, g := ranked[..n], ranked[n];
      PlaceAllKeepsSound(front, pass, Best(g.sources));
      PlaceAllKeepsSound(front, pass, b);
      PlaceKeepsSound(PlaceAll(front, pass), g, pass);
    }
  }

  lemma PassKeepsSound(groups: seq<Group>, pass: Pass)
    requires AllSound(groups)
    ensures AllSound(Merged(groups, pass))
  {
    RankedKeepsSound(groups);
    RankedIsSorted(groups);
    var ranked := Ranked(groups);
    if ranked != [] {
      var last := Best(ranked[|ranked| - 1].sources);
      AheadIsAsymmetric(last, last);
      PlaceAllKeepsSound(ranked, pass, last);
    }
  }

  /** An exact-key group: every record carries the group's own key, and so its ids and its remoteness. */
  ghost predicate Uniform(g: Group) {
    && (forall r :: r in g.sources ==> KeyOf(r) == g.key)
    && g.ids == IdentityMap(g.key.identity)
    && g.location.isRemote == g.key.place.RemoteKey?
  }

  ghost function IdentityMap(id: Option<(string, string)>): map<string, string> {
    if id.Some? then map[id.value.0 := id.value.1] else map[]
  }

  lemma {:induction false} GroupedIsUniform(raws: seq<Raw>)
    ensures forall i :: 0 <= i < |Grouped(raws)| ==> Uniform(Grouped(raws)[i])
  {
    if raws != [] {
      GroupedIsUniform(raws[..|raws| - 1]);
    }
  }

  lemma UniformIsSound(g: Group)
    requires Uniform(g)
    ensures Sound(g)
  {
    forall r | r in g.sources ensures Fits(g, r) {
      assert KeyOf(r) == g.key;
    }
  }

  /** Through grouping and all three passes: one company, one id per publisher, the best record's own key. */
  lemma DedupedGroupsAreSound(raws: seq<Raw>)
    ensures forall g :: g in DedupedGroups(raws) ==> Sound(g) && OneIdPerPublisher(g)
  {
    GroupedIsUniform(raws);
    forall i | 0 <= i < |Grouped(raws)| ensures Sound(Grouped(raws)[i]) {
      UniformIsSound(Grouped(raws)[i]);
    }
    var first := Merged(Grouped(raws), SharedIdentity);
    PassKeepsSound(Grouped(raws), SharedIdentity);
    PassKeepsSound(first, NearDuplicate);
    PassKeepsSound(Merged(first, NearDuplicate), RemoteVersusCity);
    forall g | g in DedupedGroups(raws) ensures Sound(g) && OneIdPerPublisher(g) {
      SoundMeansOneId(g);
    }
  }
}
