/**
 * The result of deduplication does not depend on the order of the batch: when no two keys have best records that tie
 * in the ranking, every permutation gives, group for group, the same records, key and posted date.
 */
module DedupeOrder {
  import opened Options
  import opened TextOrder
  import opened Dedupe
  import opened DedupeLaws

  predicate BestsApart(groups: seq<Group>) {
    forall i, j :: 0 <= i < j < |groups| ==> !Tied(Best(groups[i].sources), Best(groups[j].sources))
  }

  /** No two keys have best records that tie on (priority, date, URL); other records may, and may be copies. */
  predicate KeysDoNotTie(raws: seq<Raw>) {
    BestsApart(Grouped(raws))
  }

  /** A record that holds only what it is ranked by. */
  function Stamp(r: Raw): Raw {
    Raw("", r.kind, r.url, "", None, None, None, None, Some(OrderableTime(r.postedAt)), "", "", Location(false, "", "", ""))
  }

  lemma StampsRank(a: Raw, b: Raw)
    ensures Ahead(Stamp(a), Stamp(b)) <==> Ahead(a, b)
    ensures Tied(a, b) <==> Stamp(a) == Stamp(b)
  {
    BeforeIsTotal(a.url, b.url);
    BeforeIsIrreflexive(a.url);
  }

  // ----------------------------------------------------------------------------------------
  // Groups that differ only in the order of their records
  // ----------------------------------------------------------------------------------------

  ghost predicate Alike(g: Group, h: Group) {
    && g.key == h.key && g.location.isRemote == h.location.isRemote
    && multiset(g.sources) == multiset(h.sources)
    && g.ids == h.ids && g.pages == h.pages
  }

  ghost predicate AllAlike(a: seq<Group>, b: seq<Group>) {
    |a| == |b| && forall i :: 0 <= i < |a| ==> Alike(a[i], b[i])
  }

  /** Every group of `a` has its like in `b`. */
  ghost predicate Covers(b: seq<Group>, a: seq<Group>) {
    forall g :: g in a ==> HasLike(b, g)
  }

  ghost predicate HasLike(b: seq<Group>, g: Group) {
    exists h :: h in b && Alike(g, h)
  }

  // ----------------------------------------------------------------------------------------
  // Exact-key grouping
  // ----------------------------------------------------------------------------------------

  ghost function PagesIn(sources: seq<Raw>): set<string> {
    if sources == [] then {} else PagesIn(sources[..|sources| - 1]) + PagesOf(sources[|sources| - 1])
  }

  lemma {:induction false} PageHasRecord(sources: seq<Raw>, p: string)
    ensures p in PagesIn(sources) <==> exists r :: r in sources && p in PagesOf(r)
  {
    if sources != [] {
      var front, last := sources[..|sources| - 1], sources[|sources| - 1];
      PageHasRecord(front, p);
      assert sources == front + [last];
    }
  }

  lemma SameRecordsSamePages(s: seq<Raw>, t: seq<Raw>)
    requires multiset(s) == multiset(t)
    ensures PagesIn(s) == PagesIn(t)
  {
    forall p ensures p in PagesIn(s) <==> p in PagesIn(t) {
      PageHasRecord(s, p);
      PageHasRecord(t, p);
      assert forall r :: r in s <==> r in multiset(s);
      assert forall r :: r in t <==> r in multiset(t);
    }
  }

  /** The records of `g` are exactly those of the batch with its key. */
  ghost predicate HoldsItsKey(g: Group, raws: seq<Raw>) {
    forall r :: multiset(g.sources)[r] == if KeyOf(r) == g.key then multiset(raws)[r] else 0
  }

  /** What an exact-key group is, without mention of any order. */
  ghost predicate Describes(g: Group, raws: seq<Raw>) {
    Uniform(g) && g.pages == PagesIn(g.sources) && HoldsItsKey(g, raws)
  }

  ghost predicate AllDescribe(groups: seq<Group>, raws: seq<Raw>) {
    forall i :: 0 <= i < |groups| ==> Describes(groups[i], raws)
  }

  lemma JoinedDescribes(g: Group, raws: seq<Raw>, r: Raw)
    requires Describes(g, raws) && g.key == KeyOf(r)
    ensures Describes(Joined(g, r), raws + [r])
  {
    var j := Joined(g, r);
    assert j.sources[..|j.sources| - 1] == g.sources;
  }

  lemma NewGroupDescribes(raws: seq<Raw>, r: Raw)
    requires forall t :: t in raws ==> KeyOf(t) != KeyOf(r)
    ensures Describes(NewGroup(r), raws + [r])
  {
    var g := NewGroup(r);
    assert g.sources[..0] == [];
    forall t ensures multiset(g.sources)[t] == if KeyOf(t) == g.key then multiset(raws + [r])[t] else 0 {
      if t in raws {
        assert KeyOf(t) != KeyOf(r);
      }
    }
  }

  lemma OtherDescribes(g: Group, raws: seq<Raw>, r: Raw)
    requires Describes(g, raws) && g.key != KeyOf(r)
    ensures Describes(g, raws + [r])
  {
  }

  ghost predicate HasEveryKey(groups: seq<Group>, raws: seq<Raw>) {
    forall r :: r in raws ==> KeyOf(r) in Keys(groups)
  }

  lemma AddRawDescribes(groups: seq<Group>, raws: seq<Raw>, r: Raw)
    requires AllDescribe(groups, raws) && DistinctKeys(groups) && HasEveryKey(groups, raws)
    ensures AllDescribe(AddRaw(groups, r), raws + [r])
  {
    var i := IndexOfKey(groups, KeyOf(r));
    if i < |groups| {
      JoinedDescribes(groups[i], raws, r);
    } else {
      forall t | t in raws ensures KeyOf(t) != KeyOf(r) {
        var j := MembersAreKeys(groups, KeyOf(t));
      }
      NewGroupDescribes(raws, r);
    }
    forall j | 0 <= j < |groups| && j != i ensures Describes(groups[j], raws + [r]) {
      if i < |groups| {
        DistinctKeysDiffer(groups, i, j);
      }
      OtherDescribes(groups[j], raws, r);
    }
  }

  lemma {:induction false} GroupedHasEveryKey(raws: seq<Raw>)
    ensures HasEveryKey(Grouped(raws), raws)
  {
    if raws != [] {
      var front, r := raws[..|raws| - 1], raws[|raws| - 1];
      var groups := Grouped(front);
      GroupedHasEveryKey(front);
      assert raws == front + [r];
      var i := IndexOfKey(groups, KeyOf(r));
      if i < |groups| {
        SameKeySameKeys(groups, i, Joined(groups[i], r));
        KeysAreMembers(groups, i);
      } else {
        AppendCounts(groups, NewGroup(r));
      }
    }
  }

  lemma {:induction false} GroupedDescribes(raws: seq<Raw>)
    ensures AllDescribe(Grouped(raws), raws)
  {
    if raws != [] {
      var front, r := raws[..|raws| - 1], raws[|raws| - 1];
      var groups := Grouped(front);
      assert raws == front + [r];
      assert Grouped(raws) == AddRaw(groups, r);
      assert AllDescribe(AddRaw(groups, r), front + [r]) by {
        GroupedDescribes(front);
        GroupedKeys(front);
        GroupedHasEveryKey(front);
        AddRawDescribes(groups, front, r);
      }
    }
  }

  lemma {:induction false} SameKeyTwice(groups: seq<Group>, i: nat, j: nat)
    requires i < j < |groups| && groups[i].key == groups[j].key
    ensures Keys(groups)[groups[i].key] >= 2
  {
    var front := groups[..|groups| - 1];
    if j == |groups| - 1 {
      KeysAreMembers(front, i);
    } else {
      SameKeyTwice(front, i, j);
    }
  }

  lemma DistinctKeysDiffer(groups: seq<Group>, i: nat, j: nat)
    requires i < |groups| && j < |groups| && i != j && DistinctKeys(groups)
    ensures groups[i].key != groups[j].key
  {
    if groups[i].key == groups[j].key {
      SameKeyTwice(groups, if i < j then i else j, if i < j then j else i);
    }
  }

  lemma DescribedAlike(g: Group, h: Group, p: seq<Raw>, q: seq<Raw>)
    requires multiset(p) == multiset(q)
    requires Describes(g, p) && Describes(h, q) && g.key == h.key
    ensures Alike(g, h)
  {
    assert multiset(g.sources) == multiset(h.sources);
    SameRecordsSamePages(g.sources, h.sources);
  }

  lemma GroupedHasLike(p: seq<Raw>, q: seq<Raw>, i: nat)
    requires multiset(p) == multiset(q) && i < |Grouped(p)|
    ensures HasLike(Grouped(q), Grouped(p)[i])
  {
    GroupedDescribes(p);
    GroupedDescribes(q);
    GroupedHasEveryKey(q);
    var g := Grouped(p)[i];
    assert Describes(g, p);
    var r := g.sources[0];
    assert r in multiset(g.sources);
    assert r in multiset(p) && r in multiset(q);
    var j := MembersAreKeys(Grouped(q), KeyOf(r));
    DescribedAlike(g, Grouped(q)[j], p, q);
  }

  lemma CoversByIndex(a: seq<Group>, b: seq<Group>)
    requires forall i :: 0 <= i < |a| ==> HasLike(b, a[i])
    ensures Covers(b, a)
  {
    forall g | g in a ensures HasLike(b, g) {
      var i :| 0 <= i < |a| && a[i] == g;
    }
  }

  lemma GroupedCovers(p: seq<Raw>, q: seq<Raw>)
    requires multiset(p) == multiset(q)
    ensures Covers(Grouped(q), Grouped(p))
  {
    forall i | 0 <= i < |Grouped(p)| ensures HasLike(Grouped(q), Grouped(p)[i]) {
      GroupedHasLike(p, q, i);
    }
    CoversByIndex(Grouped(p), Grouped(q));
  }

  // ----------------------------------------------------------------------------------------
  // Ranking
  // ----------------------------------------------------------------------------------------

  lemma SameBagSameBest(s: seq<Raw>, t: seq<Raw>)
    requires s != [] && multiset(s) == multiset(t)
    ensures t != [] && Stamp(Best(s)) == Stamp(Best(t))
  {
    assert s[0] in multiset(t);
    assert Best(s) in multiset(t) && Best(t) in multiset(s);
    NobodyIsAheadOfBest(s, Best(t));
    NobodyIsAheadOfBest(t, Best(s));
    StampsRank(Best(s), Best(t));
  }

  ghost function Bests(groups: seq<Group>): (b: seq<Raw>)
    ensures |b| == |groups|
    ensures forall i :: 0 <= i < |groups| ==> b[i] == Stamp(Best(groups[i].sources))
  {
    if groups == [] then [] else Bests(groups[..|groups| - 1]) + [Stamp(Best(groups[|groups| - 1].sources))]
  }

  ghost predicate StrictlyAscending(b: seq<Raw>) {
    forall i, j :: 0 <= i < j < |b| ==> Ahead(b[i], b[j])
  }

  lemma RankedApart(groups: seq<Group>)
    requires DistinctKeys(groups) && BestsApart(groups)
    ensures BestsApart(Ranked(groups))
  {
    hide Ranked, Tied, DistinctKeys, Best;
    var x := Ranked(groups);
    RankedCounts(groups);
    KeysStayDistinct(groups, x);
    forall i, j | 0 <= i < j < |x|
      ensures !Tied(Best(x[i].sources), Best(x[j].sources))
    {
      RankedMembers(groups, x[i]);
      RankedMembers(groups, x[j]);
      DistinctKeysDiffer(x, i, j);
      var m :| 0 <= m < |groups| && groups[m] == x[i];
      var n :| 0 <= n < |groups| && groups[n] == x[j];
      TiedIsSymmetric(Best(x[i].sources), Best(x[j].sources));
    }
  }

  lemma KeysStayDistinct(a: seq<Group>, b: seq<Group>)
    requires DistinctKeys(a) && Keys(a) == Keys(b)
    ensures DistinctKeys(b)
  {
  }

  lemma TiedIsSymmetric(a: Raw, b: Raw)
    ensures Tied(a, b) <==> Tied(b, a)
  {
  }

  lemma BestsAscend(ranked: seq<Group>)
    requires SortedByBest(ranked) && BestsApart(ranked)
    ensures StrictlyAscending(Bests(ranked))
  {
    hide Ahead, Best, Stamp;
    forall i, j | 0 <= i < j < |ranked| ensures Ahead(Bests(ranked)[i], Bests(ranked)[j]) {
      StampsRank(Best(ranked[i].sources), Best(ranked[j].sources));
    }
  }

  lemma AscendingAreApart(groups: seq<Group>)
    requires StrictlyAscending(Bests(groups))
    ensures BestsApart(groups)
  {
    hide Best, Stamp, Ahead;
    forall i, j | 0 <= i < j < |groups| ensures !Tied(Best(groups[i].sources), Best(groups[j].sources)) {
      AscendingHasNoRepeats(Bests(groups), i, j);
      StampsRank(Best(groups[i].sources), Best(groups[j].sources));
    }
  }

  lemma {:induction false} AscendingIsUnique(s: seq<Raw>, t: seq<Raw>)
    requires StrictlyAscending(s) && StrictlyAscending(t)
    requires forall x :: x in s <==> x in t
    ensures s == t
  {
    if s != [] {
      var head := s[0];
      assert head in s && head in t;
    }
    if t != [] {
      var head := t[0];
      assert head in t && head in s;
    }
    if s != [] {
      AheadIsAsymmetric(s[0], t[0]);
      AheadIsAsymmetric(s[0], s[0]);
      assert s[0] == t[0];
      forall x ensures x in s[1..] <==> x in t[1..] {
        assert s == [s[0]] + s[1..] && t == [t[0]] + t[1..];
        assert x in s <==> x in t;
      }
      AscendingIsUnique(s[1..], t[1..]);
      assert s == [s[0]] + s[1..] && t == [t[0]] + t[1..];
    }
  }

  lemma CoveredBests(a: seq<Group>, b: seq<Group>)
    requires Covers(b, a)
    ensures forall x :: x in Bests(a) ==> x in Bests(b)
  {
    hide Stamp, Best;
    forall x | x in Bests(a) ensures x in Bests(b) {
      var i :| 0 <= i < |Bests(a)| && Bests(a)[i] == x;
      var j := LikeIndex(a, b, i);
      SameBagSameBest(a[i].sources, b[j].sources);
      assert Bests(b)[j] == x;
    }
  }

  lemma RankedCovers(a: seq<Group>, b: seq<Group>)
    requires Covers(b, a)
    ensures Covers(Ranked(b), Ranked(a))
  {
    forall i | 0 <= i < |Ranked(a)| ensures HasLike(Ranked(b), Ranked(a)[i]) {
      var g := Ranked(a)[i];
      RankedMembers(a, g);
      assert HasLike(b, g);
      var h :| h in b && Alike(g, h);
      RankedMembers(b, h);
    }
    CoversByIndex(Ranked(a), Ranked(b));
  }

  lemma LikeIndex(x: seq<Group>, y: seq<Group>, i: nat) returns (j: nat)
    requires i < |x| && Covers(y, x)
    ensures j < |y| && Alike(x[i], y[j])
  {
    assert HasLike(y, x[i]);
    var h :| h in y && Alike(x[i], h);
    j :| 0 <= j < |y| && y[j] == h;
  }

  lemma AscendingHasNoRepeats(b: seq<Raw>, i: nat, j: nat)
    requires StrictlyAscending(b) && i < j < |b|
    ensures b[i] != b[j]
  {
    AheadIsAsymmetric(b[i], b[j]);
  }

  lemma SamePlaceAlike(x: seq<Group>, y: seq<Group>, i: nat)
    requires i < |x| == |y| && Bests(x) == Bests(y)
    requires StrictlyAscending(Bests(y)) && Covers(y, x)
    ensures Alike(x[i], y[i])
  {
    var j := LikeIndex(x, y, i);
    SameBagSameBest(x[i].sources, y[j].sources);
    assert Bests(y)[j] == Bests(x)[i];
    if i < j {
      AscendingHasNoRepeats(Bests(y), i, j);
    } else if j < i {
      AscendingHasNoRepeats(Bests(y), j, i);
    }
  }

  /** Two lists of the same groups up to order, in each of which no key comes twice and no two best records tie. */
  ghost predicate Counterparts(a: seq<Group>, b: seq<Group>) {
    && Covers(a, b) && Covers(b, a)
    && DistinctKeys(a) && DistinctKeys(b) && BestsApart(a) && BestsApart(b)
  }

  /** Lists of groups alike up to order rank into lists alike position by position. */
  lemma RankedAlike(a: seq<Group>, b: seq<Group>)
    requires Counterparts(a, b)
    ensures AllAlike(Ranked(a), Ranked(b))
    ensures StrictlyAscending(Bests(Ranked(a))) && StrictlyAscending(Bests(Ranked(b)))
  {
    hide Ranked, DistinctKeys, BestsApart, Covers, StrictlyAscending, SortedByBest, Alike;
    var x, y := Ranked(a), Ranked(b);
    RankedIsSorted(a);
    RankedIsSorted(b);
    RankedApart(a);
    RankedApart(b);
    RankedCovers(a, b);
    RankedCovers(b, a);
    BestsAscend(x);
    BestsAscend(y);
    CoveredBests(x, y);
    CoveredBests(y, x);
    AscendingIsUnique(Bests(x), Bests(y));
    forall i | 0 <= i < |x| ensures Alike(x[i], y[i]) {
      SamePlaceAlike(x, y, i);
    }
  }

  // ----------------------------------------------------------------------------------------
  // Placing
  // ----------------------------------------------------------------------------------------

  lemma AlikeHasAts(g: Group, h: Group)
    requires Alike(g, h)
    ensures HasAts(g.sources) == HasAts(h.sources)
  {
    assert forall r :: r in g.sources <==> r in multiset(g.sources);
    assert forall r :: r in h.sources <==> r in multiset(h.sources);
  }

  lemma AlikeCanMerge(pass: Pass, k: Group, k': Group, g: Group, g': Group)
    requires Alike(k, k') && Alike(g, g')
    ensures CanMerge(pass, k, g) == CanMerge(pass, k', g')
  {
    AlikeHasAts(k, k');
    AlikeHasAts(g, g');
  }

  lemma {:induction false} AlikeTarget(a: seq<Group>, b: seq<Group>, g: Group, h: Group, pass: Pass, start: nat)
    requires AllAlike(a, b) && Alike(g, h) && start <= |a|
    ensures TargetFrom(a, g, pass, start) == TargetFrom(b, h, pass, start)
    decreases |a| - start
  {
    if start < |a| {
      AlikeCanMerge(pass, a[start], b[start], g, h);
      AlikeTarget(a, b, g, h, pass, start + 1);
    }
  }

  lemma AbsorbAlike(t: Group, t': Group, g: Group, g': Group)
    requires Alike(t, t') && Alike(g, g')
    ensures Alike(Absorb(t, g), Absorb(t', g'))
  {
    assert multiset(t.sources + g.sources) == multiset(t.sources) + multiset(g.sources);
    assert multiset(t'.sources + g'.sources) == multiset(t'.sources) + multiset(g'.sources);
  }

  lemma {:induction false} PlaceAllAlike(a: seq<Group>, b: seq<Group>, pass: Pass)
    requires AllAlike(a, b)
    ensures AllAlike(PlaceAll(a, pass), PlaceAll(b, pass))
  {
    hide Alike, Place;
    if a != [] {
      var n := |a| - 1;
      PlaceAllAlike(a[..n], b[..n], pass);
      PlaceAlike(PlaceAll(a[..n], pass), PlaceAll(b[..n], pass), a[n], b[n], pass);
    }
  }

  lemma PlaceAlike(a: seq<Group>, b: seq<Group>, g: Group, h: Group, pass: Pass)
    requires AllAlike(a, b) && Alike(g, h)
    ensures AllAlike(Place(a, g, pass), Place(b, h, pass))
  {
    hide Alike, Absorb, TargetFrom;
    AlikeTarget(a, b, g, h, pass, 0);
    var i := TargetFrom(a, g, pass, 0);
    if i < |a| {
      AbsorbAlike(a[i], b[i], g, h);
    }
  }

  /** No best record of the groups fails to be ahead of `b`. */
  ghost predicate AllAhead(groups: seq<Group>, b: Raw) {
    forall i :: 0 <= i < |groups| ==> Ahead(Best(groups[i].sources), b)
  }

  lemma PlaceKeepsBests(kept: seq<Group>, g: Group, pass: Pass)
    requires AllAhead(kept, Best(g.sources))
    ensures Bests(Place(kept, g, pass)) == Bests(kept) || Bests(Place(kept, g, pass)) == Bests(kept + [g])
    ensures forall b :: AllAhead(kept, b) && Ahead(Best(g.sources), b) ==> AllAhead(Place(kept, g, pass), b)
  {
    hide Ahead, Stamp, Absorb, TargetFrom, Best;
    var i := TargetFrom(kept, g, pass, 0);
    var out := Place(kept, g, pass);
    if i < |kept| {
      AheadIsAsymmetric(Best(kept[i].sources), Best(g.sources));
      AbsorbingWorseKeepsBest(kept[i], g);
      assert out == kept[i := Absorb(kept[i], g)];
      assert Bests(out) == Bests(kept);
    } else {
      assert out == kept + [g];
    }
  }

  lemma OneMoreAscends(kept: seq<Group>, g: Group)
    requires StrictlyAscending(Bests(kept)) && AllAhead(kept, Best(g.sources))
    ensures StrictlyAscending(Bests(kept + [g]))
  {
    hide Ahead, Stamp, Best;
    forall i | 0 <= i < |kept| ensures Ahead(Bests(kept)[i], Stamp(Best(g.sources))) {
      StampsRank(Best(kept[i].sources), Best(g.sources));
    }
  }

  lemma {:induction false} FrontIsAhead(ranked: seq<Group>)
    requires ranked != [] && StrictlyAscending(Bests(ranked))
    ensures StrictlyAscending(Bests(ranked[..|ranked| - 1]))
    ensures AllAhead(ranked[..|ranked| - 1], Best(ranked[|ranked| - 1].sources))
  {
    hide Ahead, Stamp, Best;
    var n := |ranked| - 1;
    assert forall i :: 0 <= i < n ==> Bests(ranked[..n])[i] == Bests(ranked)[i];
    forall i | 0 <= i < n ensures Ahead(Best(ranked[i].sources), Best(ranked[n].sources)) {
      StampsRank(Best(ranked[i].sources), Best(ranked[n].sources));
    }
  }

  lemma {:induction false} PlacedAreAhead(ranked: seq<Group>, pass: Pass, b: Raw)
    requires StrictlyAscending(Bests(ranked)) && AllAhead(ranked, b)
    ensures StrictlyAscending(Bests(PlaceAll(ranked, pass))) && AllAhead(PlaceAll(ranked, pass), b)
  {
    hide Ahead, Stamp, Best, Place, StrictlyAscending;
    if ranked == [] {
      NoneAscends();
    } else {
      var n := |ranked| - 1;
      FrontIsAhead(ranked);
      PlacedAreAhead(ranked[..n], pass, Best(ranked[n].sources));
      PlacedAreAhead(ranked[..n], pass, b);
      OneMoreAscends(PlaceAll(ranked[..n], pass), ranked[n]);
      PlaceKeepsBests(PlaceAll(ranked[..n], pass), ranked[n], pass);
    }
  }

  lemma NoneAscends()
    ensures StrictlyAscending(Bests([]))
  {
  }

  /** A pass keeps the best records of its groups apart. */
  lemma {:induction false} PlacedAscend(ranked: seq<Group>, pass: Pass)
    requires StrictlyAscending(Bests(ranked))
    ensures StrictlyAscending(Bests(PlaceAll(ranked, pass)))
  {
    hide Ahead, Stamp, Best, Place, StrictlyAscending;
    if ranked == [] {
      NoneAscends();
    } else {
      var n := |ranked| - 1;
      FrontIsAhead(ranked);
      PlacedAreAhead(ranked[..n], pass, Best(ranked[n].sources));
      OneMoreAscends(PlaceAll(ranked[..n], pass), ranked[n]);
      PlaceKeepsBests(PlaceAll(ranked[..n], pass), ranked[n], pass);
    }
  }

  lemma PassAlike(a: seq<Group>, b: seq<Group>, pass: Pass)
    requires Counterparts(a, b)
    ensures AllAlike(Merged(a, pass), Merged(b, pass)) && Counterparts(Merged(a, pass), Merged(b, pass))
  {
    hide Ranked, PlaceAll, AllAlike, StrictlyAscending, Covers, BestsApart, DistinctKeys;
    RankedAlike(a, b);
    PlaceAllAlike(Ranked(a), Ranked(b), pass);
    PassConserves(a, pass);
    PassConserves(b, pass);
    AllAlikeCovers(Merged(a, pass), Merged(b, pass));
    PlacedAscend(Ranked(a), pass);
    PlacedAscend(Ranked(b), pass);
    AscendingAreApart(Merged(a, pass));
    AscendingAreApart(Merged(b, pass));
  }

  lemma AllAlikeCovers(a: seq<Group>, b: seq<Group>)
    requires AllAlike(a, b)
    ensures Covers(a, b) && Covers(b, a)
  {
    forall g | g in a ensures HasLike(b, g) {
      var i :| 0 <= i < |a| && a[i] == g;
      assert Alike(a[i], b[i]);
    }
    forall g | g in b ensures HasLike(a, g) {
      var i :| 0 <= i < |b| && b[i] == g;
      assert Alike(b[i], a[i]);
    }
  }

  /** Best records of the exact-key groups of one permutation tie only if they do in the other. */
  lemma PermutedKeysDoNotTie(p: seq<Raw>, q: seq<Raw>)
    requires multiset(p) == multiset(q) && KeysDoNotTie(p)
    ensures KeysDoNotTie(q)
  {
    hide Grouped, Tied, Best, Stamp, Alike;
    GroupedCovers(q, p);
    GroupedKeys(q);
    var a, b := Grouped(p), Grouped(q);
    forall i, j | 0 <= i < j < |b| ensures !Tied(Best(b[i].sources), Best(b[j].sources)) {
      DistinctKeysDiffer(b, i, j);
      var m := LikeIndex(b, a, i);
      var n := LikeIndex(b, a, j);
      AlikeKeysAndBests(b[i], a[m]);
      AlikeKeysAndBests(b[j], a[n]);
      assert m != n;
      TiedIsSymmetric(Best(a[m].sources), Best(a[n].sources));
      StampsRank(Best(a[m].sources), Best(a[n].sources));
      StampsRank(Best(b[i].sources), Best(b[j].sources));
    }
  }

  lemma AlikeKeysAndBests(g: Group, h: Group)
    requires Alike(g, h)
    ensures g.key == h.key && Stamp(Best(g.sources)) == Stamp(Best(h.sources))
  {
    SameBagSameBest(g.sources, h.sources);
  }

  lemma GroupedCounterparts(p: seq<Raw>, q: seq<Raw>)
    requires multiset(p) == multiset(q) && KeysDoNotTie(p)
    ensures Counterparts(Grouped(p), Grouped(q))
  {
    hide Grouped, BestsApart, Covers, DistinctKeys;
    PermutedKeysDoNotTie(p, q);
    GroupedCovers(p, q);
    GroupedCovers(q, p);
    GroupedKeys(p);
    GroupedKeys(q);
  }

  /** In a batch whose tied records share a key, keys do not tie. */
  lemma TiedRecordsShareAKey(raws: seq<Raw>)
    requires forall r, q :: r in raws && q in raws && Tied(r, q) ==> KeyOf(r) == KeyOf(q)
    ensures KeysDoNotTie(raws)
  {
    hide Grouped, Tied, KeyOf;
    GroupedDescribes(raws);
    GroupedKeys(raws);
    var groups := Grouped(raws);
    forall i, j | 0 <= i < j < |groups| ensures !Tied(Best(groups[i].sources), Best(groups[j].sources)) {
      BestIsReported(groups[i], raws);
      BestIsReported(groups[j], raws);
      DistinctKeysDiffer(groups, i, j);
    }
  }

  lemma BestIsReported(g: Group, raws: seq<Raw>)
    requires Describes(g, raws)
    ensures Best(g.sources) in raws && KeyOf(Best(g.sources)) == g.key
  {
    hide KeyOf;
    assert Best(g.sources) in multiset(g.sources);
    assert Best(g.sources) in multiset(raws);
  }

  /** When keys do not tie, every permutation of a batch gives the same groups, in the same order. */
  lemma GroupsIgnoreBatchOrder(p: seq<Raw>, q: seq<Raw>)
    requires multiset(p) == multiset(q) && KeysDoNotTie(p)
    ensures AllAlike(DedupedGroups(p), DedupedGroups(q))
  {
    hide Counterparts, Merged, Grouped, AllAlike, KeysDoNotTie;
    GroupedCounterparts(p, q);
    var a, b := Grouped(p), Grouped(q);
    PassAlike(a, b, SharedIdentity);
    var a1, b1 := Merged(a, SharedIdentity), Merged(b, SharedIdentity);
    PassAlike(a1, b1, NearDuplicate);
    PassAlike(Merged(a1, NearDuplicate), Merged(b1, NearDuplicate), RemoteVersusCity);
  }

  // ----------------------------------------------------------------------------------------
  // Posted dates
  // ----------------------------------------------------------------------------------------

  /** The earliest parsed date among the records under one identity. */
  ghost function DateUnder(sources: seq<Raw>, id: RecordIdentity): Option<int> {
    if sources == [] then None
    else
      var r, rest := sources[|sources| - 1], DateUnder(sources[..|sources| - 1], id);
      if RecordIdentityOf(r) == id then Earliest(rest, r.postedAt) else rest
  }

  ghost predicate AtsUnder(sources: seq<Raw>, id: RecordIdentity) {
    exists r :: r in sources && RecordIdentityOf(r) == id && r.kind == Ats
  }

  ghost predicate NamedIn(sources: seq<Raw>, id: RecordIdentity) {
    exists r :: r in sources && RecordIdentityOf(r) == id
  }

  /** A collapsed row: its identity's earliest date, and an ATS row iff one of its records is. */
  ghost predicate Summarizes(c: Raw, sources: seq<Raw>) {
    var id := RecordIdentityOf(c);
    NamedIn(sources, id) && (c.kind == Ats <==> AtsUnder(sources, id)) && c.postedAt == DateUnder(sources, id)
  }

  lemma NextRecord(sources: seq<Raw>, r: Raw, id: RecordIdentity)
    ensures NamedIn(sources + [r], id) <==> NamedIn(sources, id) || RecordIdentityOf(r) == id
    ensures AtsUnder(sources + [r], id) <==> AtsUnder(sources, id) || (RecordIdentityOf(r) == id && r.kind == Ats)
    ensures DateUnder(sources + [r], id) ==
      if RecordIdentityOf(r) == id then Earliest(DateUnder(sources, id), r.postedAt) else DateUnder(sources, id)
  {
    var all := sources + [r];
    assert all[..|all| - 1] == sources;
    assert r in all;
    assert forall t :: t in all <==> t in sources || t == r;
  }

  lemma {:induction false} UnnamedHasNoDate(sources: seq<Raw>, id: RecordIdentity)
    requires !NamedIn(sources, id)
    ensures DateUnder(sources, id) == None && !AtsUnder(sources, id)
  {
    if sources != [] {
      var front, r := sources[..|sources| - 1], sources[|sources| - 1];
      assert sources == front + [r];
      NextRecord(front, r, id);
      UnnamedHasNoDate(front, id);
    }
  }

  lemma {:induction false} CollapsedSummarizes(sources: seq<Raw>, i: nat)
    requires i < |Collapsed(sources)|
    ensures Summarizes(Collapsed(sources)[i], sources)
    ensures forall j :: 0 <= j < i ==> RecordIdentityOf(Collapsed(sources)[j]) != RecordIdentityOf(Collapsed(sources)[i])
  {
    var front, r := sources[..|sources| - 1], sources[|sources| - 1];
    var rows := Collapsed(front);
    assert sources == front + [r];
    var k := IndexOfIdentity(rows, RecordIdentityOf(r));
    forall j | 0 <= j < |rows| ensures RecordIdentityOf(Collapsed(sources)[j]) == RecordIdentityOf(rows[j]) {}
    if i < |rows| {
      CollapsedSummarizes(front, i);
      NextRecord(front, r, RecordIdentityOf(rows[i]));
      if k < i {
        assert RecordIdentityOf(rows[k]) != RecordIdentityOf(rows[i]);
      }
    } else {
      NextRecord(front, r, RecordIdentityOf(r));
      if NamedIn(front, RecordIdentityOf(r)) {
        var m := RowOf(front, RecordIdentityOf(r));
      }
      UnnamedHasNoDate(front, RecordIdentityOf(r));
    }
  }

  lemma {:induction false} RowOf(sources: seq<Raw>, id: RecordIdentity) returns (i: nat)
    requires NamedIn(sources, id)
    ensures i < |Collapsed(sources)| && RecordIdentityOf(Collapsed(sources)[i]) == id
  {
    var front, r := sources[..|sources| - 1], sources[|sources| - 1];
    assert sources == front + [r];
    NextRecord(front, r, id);
    if RecordIdentityOf(r) == id {
      i := IndexOfIdentity(Collapsed(front), id);
    } else {
      i := RowOf(front, id);
    }
  }

  ghost predicate IsEarliest(sources: seq<Raw>, id: RecordIdentity, d: Option<int>) {
    && (d.Some? ==> exists r :: r in sources && RecordIdentityOf(r) == id && r.postedAt == d)
    && (forall r :: r in sources && RecordIdentityOf(r) == id && r.postedAt.Some? ==> d.Some? && d.value <= r.postedAt.value)
  }

  lemma {:induction false} DateUnderIsEarliest(sources: seq<Raw>, id: RecordIdentity)
    ensures IsEarliest(sources, id, DateUnder(sources, id))
  {
    if sources != [] {
      var front, r := sources[..|sources| - 1], sources[|sources| - 1];
      DateUnderIsEarliest(front, id);
      assert sources == front + [r];
      assert r in sources;
    }
  }

  lemma SameRecordsSameDateUnder(s: seq<Raw>, t: seq<Raw>, id: RecordIdentity)
    requires forall x :: x in s <==> x in t
    ensures DateUnder(s, id) == DateUnder(t, id)
  {
    DateUnderIsEarliest(s, id);
    DateUnderIsEarliest(t, id);
  }

  lemma SameRecordsSameSummary(s: seq<Raw>, t: seq<Raw>, id: RecordIdentity)
    requires multiset(s) == multiset(t)
    ensures NamedIn(s, id) ==> NamedIn(t, id)
    ensures AtsUnder(s, id) ==> AtsUnder(t, id)
    ensures DateUnder(s, id) == DateUnder(t, id)
  {
    if NamedIn(s, id) {
      var r :| r in s && RecordIdentityOf(r) == id;
      assert r in multiset(t);
    }
    if AtsUnder(s, id) {
      var r :| r in s && RecordIdentityOf(r) == id && r.kind == Ats;
      assert r in multiset(t);
    }
    forall x ensures x in s <==> x in t {
      assert x in multiset(s) <==> x in multiset(t);
    }
    SameRecordsSameDateUnder(s, t, id);
  }

  lemma {:induction false} RecordInsertMembers(sorted: seq<Raw>, r: Raw, x: Raw)
    ensures x in RecordInsert(sorted, r) <==> x in sorted || x == r
  {
    if sorted != [] {
      RecordInsertMembers(sorted[..|sorted| - 1], r, x);
      assert sorted == sorted[..|sorted| - 1] + [sorted[|sorted| - 1]];
    }
  }

  lemma {:induction false} SortedRecordsMembers(rows: seq<Raw>, x: Raw)
    ensures x in SortedRecords(rows) <==> x in rows
  {
    if rows != [] {
      var front := rows[..|rows| - 1];
      SortedRecordsMembers(front, x);
      RecordInsertMembers(SortedRecords(front), rows[|rows| - 1], x);
      assert rows == front + [rows[|rows| - 1]];
    }
  }

  /** The row of another permutation of the same records that stands for the same identity as `c`. */
  lemma PartnerRow(s: seq<Raw>, t: seq<Raw>, c: Raw) returns (d: Raw)
    requires multiset(s) == multiset(t) && c in SortedRecords(Collapsed(s))
    ensures d in SortedRecords(Collapsed(t)) && d.postedAt == c.postedAt && (d.kind == Ats <==> c.kind == Ats)
  {
    SortedRecordsMembers(Collapsed(s), c);
    var i :| 0 <= i < |Collapsed(s)| && Collapsed(s)[i] == c;
    CollapsedSummarizes(s, i);
    SameRecordsSameSummary(s, t, RecordIdentityOf(c));
    SameRecordsSameSummary(t, s, RecordIdentityOf(c));
    var j := RowOf(t, RecordIdentityOf(c));
    CollapsedSummarizes(t, j);
    d := Collapsed(t)[j];
    SortedRecordsMembers(Collapsed(t), d);
  }

  lemma {:induction false} LeastDateIsLeast(rows: seq<Raw>, atsOnly: bool, c: Raw)
    requires c in rows && (atsOnly ==> c.kind == Ats) && c.postedAt.Some?
    ensures LeastDate(rows, atsOnly).Some? && LeastDate(rows, atsOnly).value <= c.postedAt.value
  {
    var front, r := rows[..|rows| - 1], rows[|rows| - 1];
    assert rows == front + [r];
    if c in front {
      LeastDateIsLeast(front, atsOnly, c);
    }
  }

  lemma {:induction false} LeastDateIsReached(rows: seq<Raw>, atsOnly: bool) returns (c: Raw)
    requires LeastDate(rows, atsOnly).Some?
    ensures c in rows && (atsOnly ==> c.kind == Ats) && c.postedAt == LeastDate(rows, atsOnly)
  {
    var front, r := rows[..|rows| - 1], rows[|rows| - 1];
    assert rows == front + [r];
    if LeastDate(front, atsOnly) == LeastDate(rows, atsOnly) {
      c := LeastDateIsReached(front, atsOnly);
    } else {
      c := r;
    }
  }

  lemma LeastDateNoLater(s: seq<Raw>, t: seq<Raw>, atsOnly: bool)
    requires multiset(s) == multiset(t)
    ensures var d, e := LeastDate(SortedRecords(Collapsed(s)), atsOnly), LeastDate(SortedRecords(Collapsed(t)), atsOnly);
      d.Some? ==> e.Some? && e.value <= d.value
  {
    var a := SortedRecords(Collapsed(s));
    if LeastDate(a, atsOnly).Some? {
      var c := LeastDateIsReached(a, atsOnly);
      var d := PartnerRow(s, t, c);
      LeastDateIsLeast(SortedRecords(Collapsed(t)), atsOnly, d);
    }
  }

  lemma SameRecordsSameDate(s: seq<Raw>, t: seq<Raw>, fallback: int)
    requires multiset(s) == multiset(t)
    ensures PostedAt(SortedRecords(Collapsed(s)), fallback) == PostedAt(SortedRecords(Collapsed(t)), fallback)
  {
    LeastDateNoLater(s, t, false);
    LeastDateNoLater(t, s, false);
    LeastDateNoLater(s, t, true);
    LeastDateNoLater(t, s, true);
  }

  ghost predicate SamePosting(g: Group, h: Group, fallback: int) {
    && multiset(g.sources) == multiset(h.sources)
    && Materialized(g, fallback).key == Materialized(h, fallback).key
    && Materialized(g, fallback).postedAt == Materialized(h, fallback).postedAt
  }

  /**
   * Order independence: two permutations of one batch whose keys do not tie give postings that agree, one by one, on
   * the dedupe key, the posted date and the bag of source records behind them.
   */
  lemma DedupeIgnoresBatchOrder(p: seq<Raw>, q: seq<Raw>, fallback: int)
    requires multiset(p) == multiset(q) && KeysDoNotTie(p)
    ensures |DedupedGroups(p)| == |DedupedGroups(q)|
    ensures forall i :: 0 <= i < |DedupedGroups(p)| ==>
      SamePosting(DedupedGroups(p)[i], DedupedGroups(q)[i], fallback)
  {
    GroupsIgnoreBatchOrder(p, q);
    var a, b := DedupedGroups(p), DedupedGroups(q);
    forall i | 0 <= i < |a| ensures SamePosting(a[i], b[i], fallback) {
      assert Alike(a[i], b[i]);
      SameRecordsSameDate(a[i].sources, b[i].sources, fallback);
    }
  }
}
