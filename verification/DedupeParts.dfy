/**
 * How the sources of a final group are laid out: its exact-key parts end to end, each in the order of the batch, in an
 * order of keys that the batch cannot change.
 */
module DedupeParts {
  import opened Options
  import opened Dedupe
  import opened DedupeLaws
  import opened DedupeOrder

  /** The records of a batch under one key, in their order. */
  ghost function Part(p: seq<Raw>, k: Key): (s: seq<Raw>)
    ensures forall x :: x in s ==> KeyOf(x) == k
  {
    if p == [] then [] else Part(p[..|p| - 1], k) + (if KeyOf(p[|p| - 1]) == k then [p[|p| - 1]] else [])
  }

  /** The parts under some keys, laid end to end. */
  ghost function Laid(keys: seq<Key>, p: seq<Raw>): seq<Raw> {
    if keys == [] then [] else Laid(keys[..|keys| - 1], p) + Part(p, keys[|keys| - 1])
  }

  /** The sources of `g` and `h` are the parts under the same keys, of one batch and of another. */
  ghost predicate LaidAlike(g: Group, h: Group, p: seq<Raw>, q: seq<Raw>) {
    exists keys :: g.sources == Laid(keys, p) && h.sources == Laid(keys, q)
  }

  ghost predicate AllLaidAlike(a: seq<Group>, b: seq<Group>, p: seq<Raw>, q: seq<Raw>) {
    |a| == |b| && forall i :: 0 <= i < |a| ==> LaidAlike(a[i], b[i], p, q)
  }

  ghost predicate KeyedAlike(a: seq<Group>, b: seq<Group>, p: seq<Raw>, q: seq<Raw>) {
    forall g, h :: g in a && h in b && g.key == h.key ==> LaidAlike(g, h, p, q)
  }

  lemma {:induction false} LaidEndToEnd(keys: seq<Key>, more: seq<Key>, p: seq<Raw>)
    ensures Laid(keys + more, p) == Laid(keys, p) + Laid(more, p)
  {
    hide Part;
    if more == [] {
      assert keys + more == keys;
    } else {
      LaidEndToEnd(keys, more[..|more| - 1], p);
      assert (keys + more)[..|keys + more| - 1] == keys + more[..|more| - 1];
    }
  }

  // ----------------------------------------------------------------------------------------
  // Exact-key groups are parts
  // ----------------------------------------------------------------------------------------

  ghost predicate HoldsPart(groups: seq<Group>, p: seq<Raw>, k: Key) {
    var i := IndexOfKey(groups, k);
    Part(p, k) == if i < |groups| then groups[i].sources else []
  }

  lemma IndexAfterAdding(groups: seq<Group>, r: Raw, k: Key)
    requires k != KeyOf(r) || IndexOfKey(groups, k) < |groups|
    ensures var i, j := IndexOfKey(groups, k), IndexOfKey(AddRaw(groups, r), k);
      if i < |groups| then j == i else j == |AddRaw(groups, r)|
  {
    var i, j := IndexOfKey(groups, k), IndexOfKey(AddRaw(groups, r), k);
    assert forall n :: 0 <= n < |groups| ==> AddRaw(groups, r)[n].key == groups[n].key;
  }

  lemma {:induction false} GroupedIsInParts(p: seq<Raw>, k: Key)
    ensures HoldsPart(Grouped(p), p, k)
  {
    hide KeyOf;
    if p != [] {
      var front, r := p[..|p| - 1], p[|p| - 1];
      var groups := Grouped(front);
      GroupedIsInParts(front, k);
      assert Grouped(p) == AddRaw(groups, r);
      if k != KeyOf(r) || IndexOfKey(groups, k) < |groups| {
        IndexAfterAdding(groups, r, k);
      } else {
        assert forall n :: 0 <= n < |groups| ==> groups[n].key != k;
        assert IndexOfKey(groups + [NewGroup(r)], k) == |groups|;
      }
    }
  }

  lemma GroupIsPart(p: seq<Raw>, i: nat)
    requires i < |Grouped(p)|
    ensures Grouped(p)[i].sources == Laid([Grouped(p)[i].key], p)
  {
    var k := Grouped(p)[i].key;
    GroupedIsInParts(p, k);
    GroupedKeys(p);
    var j := IndexOfKey(Grouped(p), k);
    if j != i {
      DistinctKeysDiffer(Grouped(p), i, j);
    }
    assert [k][..0] == [];
  }

  lemma GroupedKeyedAlike(p: seq<Raw>, q: seq<Raw>)
    ensures KeyedAlike(Grouped(p), Grouped(q), p, q)
  {
    forall g, h | g in Grouped(p) && h in Grouped(q) && g.key == h.key
      ensures LaidAlike(g, h, p, q)
    {
      var i :| 0 <= i < |Grouped(p)| && Grouped(p)[i] == g;
      var j :| 0 <= j < |Grouped(q)| && Grouped(q)[j] == h;
      GroupIsPart(p, i);
      GroupIsPart(q, j);
    }
  }

  // ----------------------------------------------------------------------------------------
  // A pass lays parts end to end
  // ----------------------------------------------------------------------------------------

  lemma AbsorbLaid(t: Group, u: Group, g: Group, h: Group, p: seq<Raw>, q: seq<Raw>)
    requires LaidAlike(t, u, p, q) && LaidAlike(g, h, p, q)
    ensures LaidAlike(Absorb(t, g), Absorb(u, h), p, q)
  {
    var keys :| t.sources == Laid(keys, p) && u.sources == Laid(keys, q);
    var more :| g.sources == Laid(more, p) && h.sources == Laid(more, q);
    LaidEndToEnd(keys, more, p);
    LaidEndToEnd(keys, more, q);
  }

  lemma PlaceLaid(a: seq<Group>, b: seq<Group>, g: Group, h: Group, pass: Pass, p: seq<Raw>, q: seq<Raw>)
    requires AllAlike(a, b) && Alike(g, h)
    requires AllLaidAlike(a, b, p, q) && LaidAlike(g, h, p, q)
    ensures AllLaidAlike(Place(a, g, pass), Place(b, h, pass), p, q)
  {
    hide Alike, Absorb, TargetFrom, LaidAlike;
    AlikeTarget(a, b, g, h, pass, 0);
    var i := TargetFrom(a, g, pass, 0);
    if i < |a| {
      AbsorbLaid(a[i], b[i], g, h, p, q);
    }
  }

  lemma {:induction false} PlaceAllLaid(a: seq<Group>, b: seq<Group>, pass: Pass, p: seq<Raw>, q: seq<Raw>)
    requires AllAlike(a, b) && AllLaidAlike(a, b, p, q)
    ensures AllLaidAlike(PlaceAll(a, pass), PlaceAll(b, pass), p, q)
  {
    hide Alike, Place, LaidAlike;
    if a != [] {
      var n := |a| - 1;
      PlaceAllLaid(a[..n], b[..n], pass, p, q);
      PlaceAllAlike(a[..n], b[..n], pass);
      PlaceLaid(PlaceAll(a[..n], pass), PlaceAll(b[..n], pass), a[n], b[n], pass, p, q);
    }
  }

  lemma RankedLaid(a: seq<Group>, b: seq<Group>, p: seq<Raw>, q: seq<Raw>)
    requires AllAlike(Ranked(a), Ranked(b)) && KeyedAlike(a, b, p, q)
    ensures AllLaidAlike(Ranked(a), Ranked(b), p, q)
  {
    hide LaidAlike, Ranked;
    forall i | 0 <= i < |Ranked(a)|
      ensures LaidAlike(Ranked(a)[i], Ranked(b)[i], p, q)
    {
      assert Alike(Ranked(a)[i], Ranked(b)[i]);
      RankedMembers(a, Ranked(a)[i]);
      RankedMembers(b, Ranked(b)[i]);
    }
  }

  lemma PlacesAreKeyed(a: seq<Group>, b: seq<Group>, p: seq<Raw>, q: seq<Raw>)
    requires AllAlike(a, b) && AllLaidAlike(a, b, p, q) && DistinctKeys(b)
    ensures KeyedAlike(a, b, p, q)
  {
    hide LaidAlike;
    forall g, h | g in a && h in b && g.key == h.key
      ensures LaidAlike(g, h, p, q)
    {
      var i :| 0 <= i < |a| && a[i] == g;
      var j :| 0 <= j < |b| && b[j] == h;
      assert Alike(a[i], b[i]);
      if i != j {
        DistinctKeysDiffer(b, i, j);
      }
    }
  }

  lemma PassLaid(a: seq<Group>, b: seq<Group>, pass: Pass, p: seq<Raw>, q: seq<Raw>)
    requires Counterparts(a, b) && KeyedAlike(a, b, p, q)
    ensures AllLaidAlike(Merged(a, pass), Merged(b, pass), p, q)
    ensures Counterparts(Merged(a, pass), Merged(b, pass)) && KeyedAlike(Merged(a, pass), Merged(b, pass), p, q)
  {
    hide KeyedAlike, AllLaidAlike, Alike, StrictlyAscending, PlaceAll, Ranked, DistinctKeys, BestsApart, Covers;
    RankedAlike(a, b);
    RankedLaid(a, b, p, q);
    PlaceAllLaid(Ranked(a), Ranked(b), pass, p, q);
    PassAlike(a, b, pass);
    PlacesAreKeyed(Merged(a, pass), Merged(b, pass), p, q);
  }

  /**
   * Two permutations of a batch whose keys do not tie: each final group of the one and its counterpart lay out the parts
   * under the same keys, in the same order of keys.
   */
  lemma PartsIgnoreBatchOrder(p: seq<Raw>, q: seq<Raw>)
    requires multiset(p) == multiset(q) && KeysDoNotTie(p)
    ensures AllLaidAlike(DedupedGroups(p), DedupedGroups(q), p, q)
  {
    hide KeyedAlike, AllLaidAlike, Counterparts, KeysDoNotTie, Grouped, Merged;
    GroupedCounterparts(p, q);
    GroupedKeyedAlike(p, q);
    var a, b := Grouped(p), Grouped(q);
    PassLaid(a, b, SharedIdentity, p, q);
    var a1, b1 := Merged(a, SharedIdentity), Merged(b, SharedIdentity);
    PassLaid(a1, b1, NearDuplicate, p, q);
    PassLaid(Merged(a1, NearDuplicate), Merged(b1, NearDuplicate), RemoteVersusCity, p, q);
  }

  // ----------------------------------------------------------------------------------------
  // The order of keys in a layout
  // ----------------------------------------------------------------------------------------

  ghost function PlaceOf(keys: seq<Key>, k: Key): (i: nat)
    ensures i < |keys| ==> keys[i] == k
    ensures k in keys <==> i < |keys|
    ensures i <= |keys| && forall j :: 0 <= j < i ==> keys[j] != k
  {
    if keys == [] then 0 else if keys[0] == k then 0 else 1 + PlaceOf(keys[1..], k)
  }

  /** The records of `s` stand in the order of their keys in `keys`. */
  ghost predicate InOrder(s: seq<Raw>, keys: seq<Key>) {
    && (forall i :: 0 <= i < |s| ==> KeyOf(s[i]) in keys)
    && (forall i, j :: 0 <= i <= j < |s| ==> PlaceOf(keys, KeyOf(s[i])) <= PlaceOf(keys, KeyOf(s[j])))
  }

  lemma {:induction false} PartHolds(p: seq<Raw>, k: Key, x: Raw)
    ensures multiset(Part(p, k))[x] == if KeyOf(x) == k then multiset(p)[x] else 0
  {
    hide KeyOf;
    if p != [] {
      var front, r := p[..|p| - 1], p[|p| - 1];
      PartHolds(front, k, x);
      assert p == front + [r];
    }
  }

  lemma {:induction false} LaidHoldsPart(keys: seq<Key>, p: seq<Raw>, k: Key)
    requires k in keys
    ensures multiset(Part(p, k)) <= multiset(Laid(keys, p))
  {
    hide Part;
    var front, last := keys[..|keys| - 1], keys[|keys| - 1];
    assert keys == front + [last];
    assert multiset(Laid(keys, p)) == multiset(Laid(front, p)) + multiset(Part(p, last));
    if k != last {
      LaidHoldsPart(front, p, k);
    }
  }

  /** No layout of records of the batch lays a part twice. */
  lemma LaidOnce(front: seq<Key>, k: Key, p: seq<Raw>)
    requires multiset(Laid(front, p) + Part(p, k)) <= multiset(p) && Part(p, k) != []
    ensures k !in front
  {
    var x := Part(p, k)[0];
    PartHolds(p, k, x);
    hide Part, Laid, KeyOf;
    assert x in multiset(Part(p, k));
    assert multiset(Laid(front, p) + Part(p, k)) == multiset(Laid(front, p)) + multiset(Part(p, k));
    if k in front {
      LaidHoldsPart(front, p, k);
    }
  }

  lemma PlaceInMore(keys: seq<Key>, k: Key, k': Key)
    ensures k in keys ==> PlaceOf(keys + [k'], k) == PlaceOf(keys, k)
    ensures k' !in keys ==> PlaceOf(keys + [k'], k') == |keys|
  {
    var i := PlaceOf(keys + [k'], k);
    assert forall j :: 0 <= j < |keys| ==> (keys + [k'])[j] == keys[j];
    assert (keys + [k'])[|keys|] == k';
  }

  lemma OneMoreInOrder(s: seq<Raw>, t: seq<Raw>, front: seq<Key>, k: Key)
    requires InOrder(s, front) && (t != [] ==> k !in front) && forall x :: x in t ==> KeyOf(x) == k
    ensures InOrder(s + t, front + [k])
  {
    hide KeyOf;
    var keys := front + [k];
    forall i | 0 <= i < |s + t|
      ensures KeyOf((s + t)[i]) in keys
      ensures PlaceOf(keys, KeyOf((s + t)[i])) == if i < |s| then PlaceOf(front, KeyOf(s[i])) else |front|
    {
      PlaceInMore(front, KeyOf((s + t)[i]), k);
    }
  }

  lemma {:induction false} LaidInOrder(keys: seq<Key>, p: seq<Raw>)
    requires multiset(Laid(keys, p)) <= multiset(p)
    ensures InOrder(Laid(keys, p), keys)
  {
    hide KeyOf, PlaceOf, Part;
    if keys != [] {
      hide InOrder;
      var front, k := keys[..|keys| - 1], keys[|keys| - 1];
      var s, t := Laid(front, p), Part(p, k);
      assert keys == front + [k] && Laid(keys, p) == s + t;
      assert multiset(s + t) == multiset(s) + multiset(t);
      LaidInOrder(front, p);
      if t != [] {
        LaidOnce(front, k, p);
      }
      OneMoreInOrder(s, t, front, k);
    }
  }

  /** Where two layouts hold records that come first in both, these are under one key. */
  lemma FirstsShareAKey(s: seq<Raw>, t: seq<Raw>, keys: seq<Key>, i: nat, j: nat, m: nat, n: nat)
    requires InOrder(s, keys) && InOrder(t, keys)
    requires i <= n < |s| && j <= m < |t| && s[i] == t[m] && t[j] == s[n]
    ensures KeyOf(s[i]) == KeyOf(t[j])
  {
    assert PlaceOf(keys, KeyOf(s[i])) == PlaceOf(keys, KeyOf(t[j]));
  }

  // ----------------------------------------------------------------------------------------
  // Moving a record to the front of the batch
  // ----------------------------------------------------------------------------------------

  /** The batch with its `i`th record first. */
  ghost function Promoted(p: seq<Raw>, i: nat): seq<Raw>
    requires i < |p|
  {
    [p[i]] + p[..i] + p[i + 1..]
  }

  lemma PromotedPermutes(p: seq<Raw>, i: nat)
    requires i < |p|
    ensures multiset(Promoted(p, i)) == multiset(p)
  {
    assert p == p[..i] + [p[i]] + p[i + 1..];
  }

  /** The record is the first of its key. */
  ghost predicate FirstOfKey(s: seq<Raw>, i: nat)
    requires i < |s|
  {
    forall j :: 0 <= j < i ==> KeyOf(s[j]) != KeyOf(s[i])
  }

  lemma {:induction false} FirstLeadsPart(p: seq<Raw>)
    requires p != []
    ensures Part(p, KeyOf(p[0])) != [] && Part(p, KeyOf(p[0]))[0] == p[0]
  {
    hide KeyOf;
    if |p| > 1 {
      FirstLeadsPart(p[..|p| - 1]);
    } else {
      assert p[..0] == [];
    }
  }

  lemma {:induction false} PartLeads(keys: seq<Key>, p: seq<Raw>, k: Key) returns (i: nat)
    requires k in keys && Part(p, k) != []
    ensures i < |Laid(keys, p)| && Laid(keys, p)[i] == Part(p, k)[0] && FirstOfKey(Laid(keys, p), i)
  {
    hide KeyOf;
    var front, last := keys[..|keys| - 1], keys[|keys| - 1];
    assert keys == front + [last];
    if k in front {
      i := PartLeads(front, p, k);
    } else {
      i := |Laid(front, p)|;
      forall j | 0 <= j < i
        ensures KeyOf(Laid(front, p)[j]) != k
      {
        LaidKeys(front, p, j);
      }
    }
  }

  lemma {:induction false} LaidKeys(keys: seq<Key>, p: seq<Raw>, j: nat)
    requires j < |Laid(keys, p)|
    ensures KeyOf(Laid(keys, p)[j]) in keys
  {
    hide KeyOf;
    var front, last := keys[..|keys| - 1], keys[|keys| - 1];
    assert keys == front + [last];
    if j < |Laid(front, p)| {
      LaidKeys(front, p, j);
    }
  }

  // ----------------------------------------------------------------------------------------
  // The first source of a group
  // ----------------------------------------------------------------------------------------

  /** A group's key and location are those of its first source. */
  ghost predicate Fronted(g: Group) {
    KeyOf(g.sources[0]) == g.key && g.sources[0].location == g.location
  }

  ghost predicate AllFronted(groups: seq<Group>) {
    forall i :: 0 <= i < |groups| ==> Fronted(groups[i])
  }

  lemma {:induction false} GroupedAreFronted(raws: seq<Raw>)
    ensures AllFronted(Grouped(raws))
  {
    hide KeyOf;
    if raws != [] {
      GroupedAreFronted(raws[..|raws| - 1]);
    }
  }

  lemma {:induction false} PlacedAreFronted(ranked: seq<Group>, pass: Pass)
    requires AllFronted(ranked)
    ensures AllFronted(PlaceAll(ranked, pass))
  {
    hide KeyOf, TargetFrom;
    if ranked != [] {
      PlacedAreFronted(ranked[..|ranked| - 1], pass);
    }
  }

  lemma MergedAreFronted(groups: seq<Group>, pass: Pass)
    requires AllFronted(groups)
    ensures AllFronted(Merged(groups, pass))
  {
    hide Fronted, PlaceAll, Ranked;
    forall i | 0 <= i < |Ranked(groups)|
      ensures Fronted(Ranked(groups)[i])
    {
      RankedMembers(groups, Ranked(groups)[i]);
    }
    PlacedAreFronted(Ranked(groups), pass);
  }

  lemma DedupedAreFronted(raws: seq<Raw>)
    ensures AllFronted(DedupedGroups(raws))
  {
    hide AllFronted, Merged;
    GroupedAreFronted(raws);
    MergedAreFronted(Grouped(raws), SharedIdentity);
    MergedAreFronted(Merged(Grouped(raws), SharedIdentity), NearDuplicate);
    MergedAreFronted(Merged(Merged(Grouped(raws), SharedIdentity), NearDuplicate), RemoteVersusCity);
  }
}
