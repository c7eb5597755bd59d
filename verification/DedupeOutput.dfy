/** The postings of a deduped batch: exactly when no permutation of the batch changes them. */
module DedupeOutput {
  import opened Options
  import opened TextOrder
  import opened Dedupe
  import opened DedupeLaws
  import opened DedupeOrder
  import opened DedupeParts
  import opened DedupeRows
  import opened DedupeShown
  import A = DedupeApart

  function Shown(m: Posting): Posting {
    m.(sources := RowsOf(m.sources))
  }

  function AllShown(ms: seq<Posting>): (s: seq<Posting>)
    ensures |s| == |ms| && forall i :: 0 <= i < |ms| ==> s[i] == Shown(ms[i])
  {
    if ms == [] then [] else AllShown(ms[..|ms| - 1]) + [Shown(ms[|ms| - 1])]
  }

  /** What deduplication makes of a batch. */
  function Output(raws: seq<Raw>, fallback: int): seq<Posting> {
    AllShown(MaterializedAll(DedupedGroups(raws), fallback))
  }

  ghost predicate IgnoresOrder(p: seq<Raw>, fallback: int) {
    forall q :: multiset(q) == multiset(p) ==> Output(q, fallback) == Output(p, fallback)
  }

  /** The records of a group's own key have one location. */
  ghost predicate PlaceSettled(g: Group) {
    forall r :: r in g.sources && KeyOf(r) == g.key ==> r.location == g.location
  }

  ghost predicate Settled(g: Group) {
    LeadersSettled(g.sources) && TiesSettled(g.sources) && PlaceSettled(g)
  }

  // ----------------------------------------------------------------------------------------
  // The postings
  // ----------------------------------------------------------------------------------------

  lemma {:induction false} ShownFirstAts(x: seq<Raw>, y: seq<Raw>)
    requires RowsOf(x) == RowsOf(y) && exists i :: 0 <= i < |x| && x[i].kind == Ats
    ensures exists i :: 0 <= i < |y| && y[i].kind == Ats
    ensures Row(FirstAts(x)) == Row(FirstAts(y))
  {
    var i :| 0 <= i < |x| && x[i].kind == Ats;
    SameRank(x[0]);
    SameRank(y[0]);
    SameRank(x[i]);
    SameRank(y[i]);
    hide Row;
    assert Row(x[0]) == RowsOf(y)[0] && Row(x[i]) == RowsOf(y)[i];
    if x[0].kind != Ats {
      forall j | 0 <= j < |x[1..]|
        ensures RowsOf(x[1..])[j] == RowsOf(y[1..])[j]
      {
        assert RowsOf(x)[j + 1] == RowsOf(y)[j + 1];
      }
      assert x[1..][i - 1].kind == Ats;
      ShownFirstAts(x[1..], y[1..]);
    }
  }

  lemma ShownWinner(x: seq<Raw>, y: seq<Raw>)
    requires RowsOf(x) == RowsOf(y) && x != []
    ensures y != [] && Row(Winner(x)) == Row(Winner(y))
  {
    assert |x| == |y| && Row(x[0]) == RowsOf(y)[0];
    if exists i :: 0 <= i < |x| && x[i].kind == Ats {
      ShownFirstAts(x, y);
    } else if exists i :: 0 <= i < |y| && y[i].kind == Ats {
      ShownFirstAts(y, x);
    }
  }

  lemma SameUrl(c: Raw, d: Raw)
    requires Row(c) == Row(d)
    ensures c.applyHref == d.applyHref && c.href == d.href
  {
    assert Row(c).applyHref == c.applyHref && Row(d).applyHref == d.applyHref;
    assert Row(c).href == c.href && Row(d).href == d.href;
  }

  lemma SettledShowOnePosting(g: Group, h: Group, keys: seq<Key>, fallback: int)
    requires Alike(g, h) && SameLayout(g.sources, h.sources, keys) && Settled(g) && Fronted(g) && Fronted(h)
    ensures Shown(Materialized(g, fallback)) == Shown(Materialized(h, fallback))
  {
    SameRecordsSameDate(g.sources, h.sources, fallback);
    SettledShowTheSame(g.sources, h.sources, keys);
    SettledPlace(g, h);
    hide SameLayout, Settled, Fronted, Materialized, Shown;
    OnePosting(g, h, fallback);
  }

  lemma OnePosting(g: Group, h: Group, fallback: int)
    requires ShownRows(g.sources) == ShownRows(h.sources) && g.key == h.key && g.location == h.location
    requires PostedAt(SortedRecords(Collapsed(g.sources)), fallback) == PostedAt(SortedRecords(Collapsed(h.sources)), fallback)
    ensures Shown(Materialized(g, fallback)) == Shown(Materialized(h, fallback))
  {
    SameRowsSameUrl(g.sources, h.sources);
    hide Collapsed, SortedRecords, PostedAt, Winner, RowsOf;
  }

  lemma SameRowsSameUrl(s: seq<Raw>, t: seq<Raw>)
    requires s != [] && t != [] && ShownRows(s) == ShownRows(t)
    ensures Collapsed(s) != [] && Collapsed(t) != []
    ensures var c, d := Winner(SortedRecords(Collapsed(s))), Winner(SortedRecords(Collapsed(t)));
      c.applyHref == d.applyHref && c.href == d.href
  {
    CollapsedKeepsSome(s);
    CollapsedKeepsSome(t);
    hide Collapsed, SortedRecords, Winner, Row, RowsOf;
    ShownWinner(SortedRecords(Collapsed(s)), SortedRecords(Collapsed(t)));
    SameUrl(Winner(SortedRecords(Collapsed(s))), Winner(SortedRecords(Collapsed(t))));
  }

  lemma SettledPlace(g: Group, h: Group)
    requires Alike(g, h) && PlaceSettled(g) && Fronted(h)
    ensures g.location == h.location
  {
    hide KeyOf;
    assert h.sources[0] in multiset(g.sources);
    assert h.sources[0] in g.sources;
  }

  lemma LaidSameLayout(g: Group, h: Group, p: seq<Raw>, q: seq<Raw>, keys: seq<Key>)
    requires g.sources == Laid(keys, p) && h.sources == Laid(keys, q) && multiset(g.sources) == multiset(h.sources)
    requires multiset(g.sources) <= multiset(p) && multiset(h.sources) <= multiset(q)
    ensures SameLayout(g.sources, h.sources, keys)
  {
    LaidInOrder(keys, p);
    LaidInOrder(keys, q);
  }

  ghost predicate AllSettled(raws: seq<Raw>) {
    forall g :: g in DedupedGroups(raws) ==> Settled(g)
  }

  lemma RecordsAreReported(p: seq<Raw>, i: nat)
    requires i < |DedupedGroups(p)|
    ensures multiset(DedupedGroups(p)[i].sources) <= multiset(p)
    ensures forall x :: x in DedupedGroups(p)[i].sources ==> x in p
  {
    hide DedupedGroups;
    DedupeConservesRecords(p);
    KeysAreMembers(DedupedGroups(p), i);
    forall x | x in DedupedGroups(p)[i].sources
      ensures x in p
    {
      assert x in multiset(DedupedGroups(p)[i].sources);
      assert x in multiset(p);
    }
  }

  /** A final group and its counterpart in another permutation lay out parts under the same keys. */
  lemma GroupsLaidAlike(p: seq<Raw>, q: seq<Raw>, i: nat) returns (keys: seq<Key>)
    requires multiset(q) == multiset(p) && KeysDoNotTie(p) && i < |DedupedGroups(p)|
    ensures i < |DedupedGroups(q)| == |DedupedGroups(p)| && Alike(DedupedGroups(p)[i], DedupedGroups(q)[i])
    ensures DedupedGroups(q)[i].sources == Laid(keys, q)
    ensures SameLayout(DedupedGroups(p)[i].sources, DedupedGroups(q)[i].sources, keys)
    ensures Fronted(DedupedGroups(p)[i]) && Fronted(DedupedGroups(q)[i])
  {
    hide DedupedGroups, KeysDoNotTie, Alike, Fronted, SameLayout;
    GroupsIgnoreBatchOrder(p, q);
    PartsIgnoreBatchOrder(p, q);
    DedupedAreFronted(p);
    DedupedAreFronted(q);
    RecordsAreReported(p, i);
    RecordsAreReported(q, i);
    var g, h := DedupedGroups(p)[i], DedupedGroups(q)[i];
    assert LaidAlike(g, h, p, q) && Alike(g, h);
    AlikeRecords(g, h);
    keys :| g.sources == Laid(keys, p) && h.sources == Laid(keys, q);
    LaidSameLayout(g, h, p, q, keys);
  }

  lemma SettledIgnoreOrder(p: seq<Raw>, q: seq<Raw>, fallback: int)
    requires multiset(q) == multiset(p) && KeysDoNotTie(p) && AllSettled(p)
    ensures Output(q, fallback) == Output(p, fallback)
  {
    GroupsIgnoreBatchOrder(p, q);
    var a, b := DedupedGroups(p), DedupedGroups(q);
    hide DedupedGroups, KeysDoNotTie, Settled, Fronted, Alike, LaidAlike, Materialized, Shown, SameLayout;
    forall i | 0 <= i < |a|
      ensures Output(q, fallback)[i] == Output(p, fallback)[i]
    {
      assert a[i] in a;
      var keys := GroupsLaidAlike(p, q, i);
      SettledShowOnePosting(a[i], b[i], keys, fallback);
      MaterializedAt(a, fallback, i);
      MaterializedAt(b, fallback, i);
    }
  }

  lemma AlikeRecords(g: Group, h: Group)
    requires Alike(g, h)
    ensures multiset(g.sources) == multiset(h.sources)
  {
  }

  // ----------------------------------------------------------------------------------------
  // A group that is not settled
  // ----------------------------------------------------------------------------------------

  ghost predicate LooksOther(g: Group, t: seq<Raw>) {
    ShownRows(t) != ShownRows(g.sources) || (t != [] && t[0].location != g.location)
  }

  /** A record that shows when it comes first of its key. */
  ghost predicate Telling(g: Group, q: Raw) {
    q in g.sources && forall t, keys, m: nat :: SameLayout(g.sources, t, keys) && m < |t| && FirstOfKey(t, m) && t[m] == q ==>
      LooksOther(g, t)
  }

  lemma LeadersTell(g: Group) returns (q: Raw)
    requires !LeadersSettled(g.sources)
    ensures Telling(g, q)
  {
    hide RecordIdentityOf, KeyOf, Row, Undated, ShownRows, SameLayout, FirstOfKey, Rivals, Leads;
    var s := g.sources;
    var i, j :| 0 <= i < |s| && 0 <= j < |s| && Leads(s, i) && Rivals(s[i], s[j]) && Undated(Row(s[i])) != Undated(Row(s[j]));
    q := s[j];
    forall t, keys, m: nat | SameLayout(s, t, keys) && m < |t| && FirstOfKey(t, m) && t[m] == q
      ensures LooksOther(g, t)
    {
      LeaderIsSeen(s, t, keys, i, m);
    }
  }

  lemma TiesTell(g: Group) returns (q: Raw)
    requires !TiesSettled(g.sources)
    ensures Telling(g, q)
  {
    var s := g.sources;
    var a, b := UnsettledTie(s);
    var i := IndexOfIdentity(s, RecordIdentityOf(Collapsed(s)[b]));
    hide RecordIdentityOf, KeyOf, ShownRows, SameLayout, FirstOfKey, Collapsed, FirstKey, Tied;
    q := s[i];
    forall t, keys, m: nat | SameLayout(s, t, keys) && m < |t| && FirstOfKey(t, m) && t[m] == q
      ensures LooksOther(g, t)
    {
      TieIsSeen(s, t, keys, a, b, m);
    }
  }

  /** A record of the key that a layout begins with comes first of all when it comes first of its key. */
  lemma ComesFirst(s: seq<Raw>, t: seq<Raw>, keys: seq<Key>, m: nat)
    requires SameLayout(s, t, keys) && s != [] && m < |t| && FirstOfKey(t, m) && KeyOf(t[m]) == KeyOf(s[0])
    ensures m == 0
  {
    if m > 0 {
      var j := StandsEarlier(s, t, keys, 0, m, 0);
    }
  }

  lemma PlaceTells(g: Group) returns (q: Raw)
    requires Fronted(g) && !PlaceSettled(g)
    ensures Telling(g, q)
  {
    hide KeyOf, ShownRows, SameLayout, FirstOfKey;
    q :| q in g.sources && KeyOf(q) == g.key && q.location != g.location;
    forall t, keys, m: nat | SameLayout(g.sources, t, keys) && m < |t| && FirstOfKey(t, m) && t[m] == q
      ensures LooksOther(g, t)
    {
      ComesFirst(g.sources, t, keys, m);
    }
  }

  lemma UnsettledTells(g: Group) returns (q: Raw)
    requires Fronted(g) && !Settled(g)
    ensures Telling(g, q)
  {
    if !LeadersSettled(g.sources) {
      q := LeadersTell(g);
    } else if !TiesSettled(g.sources) {
      q := TiesTell(g);
    } else {
      q := PlaceTells(g);
    }
  }

  lemma OtherPosting(g: Group, h: Group, fallback: int)
    requires LooksOther(g, h.sources) && Fronted(h)
    ensures Shown(Materialized(h, fallback)) != Shown(Materialized(g, fallback))
  {
    hide KeyOf, Collapsed, SortedRecords, PostedAt, Winner, RowsOf;
    assert Shown(Materialized(h, fallback)).sources == ShownRows(h.sources);
    assert Shown(Materialized(g, fallback)).sources == ShownRows(g.sources);
    assert Shown(Materialized(h, fallback)).location == h.location;
    assert Shown(Materialized(g, fallback)).location == g.location;
  }

  /** A telling record comes first of its key when it comes first in the batch. */
  lemma PromotedIsSeen(p: seq<Raw>, i: nat, n: nat, keys: seq<Key>)
    requires i < |DedupedGroups(p)| && n < |p| && Telling(DedupedGroups(p)[i], p[n])
    requires i < |DedupedGroups(Promoted(p, n))| && DedupedGroups(Promoted(p, n))[i].sources == Laid(keys, Promoted(p, n))
    requires SameLayout(DedupedGroups(p)[i].sources, DedupedGroups(Promoted(p, n))[i].sources, keys)
    ensures LooksOther(DedupedGroups(p)[i], DedupedGroups(Promoted(p, n))[i].sources)
  {
    hide DedupedGroups, KeyOf, LooksOther;
    var t, q := Promoted(p, n), p[n];
    var s := DedupedGroups(p)[i].sources;
    var j :| 0 <= j < |s| && s[j] == q;
    assert KeyOf(s[j]) in keys;
    FirstLeadsPart(t);
    var m := PartLeads(keys, t, KeyOf(q));
    assert DedupedGroups(t)[i].sources[m] == q;
  }

  /** A batch with a group that is not settled has a permutation with other postings. */
  lemma UnsettledIsSeen(p: seq<Raw>, i: nat, fallback: int) returns (t: seq<Raw>)
    requires KeysDoNotTie(p) && i < |DedupedGroups(p)| && !Settled(DedupedGroups(p)[i])
    ensures multiset(t) == multiset(p) && Output(t, fallback) != Output(p, fallback)
  {
    hide DedupedGroups, KeysDoNotTie, Settled, Fronted, Materialized, Shown, Telling, SameLayout, LooksOther, Promoted, Alike;
    DedupedAreFronted(p);
    var q := UnsettledTells(DedupedGroups(p)[i]);
    RecordsAreReported(p, i);
    TellingIsReported(DedupedGroups(p)[i], q);
    var n :| 0 <= n < |p| && p[n] == q;
    t := Promoted(p, n);
    PromotedPermutes(p, n);
    var keys := GroupsLaidAlike(p, t, i);
    PromotedIsSeen(p, i, n, keys);
    OtherPosting(DedupedGroups(p)[i], DedupedGroups(t)[i], fallback);
    MaterializedAt(DedupedGroups(p), fallback, i);
    MaterializedAt(DedupedGroups(t), fallback, i);
    assert Output(t, fallback)[i] != Output(p, fallback)[i];
  }

  lemma TellingIsReported(g: Group, q: Raw)
    requires Telling(g, q)
    ensures q in g.sources
  {
  }

  /** When keys do not tie, the postings of a batch are the same in all its orders exactly when its groups are settled. */
  lemma OrderIgnoredIff(p: seq<Raw>, fallback: int)
    requires KeysDoNotTie(p)
    ensures IgnoresOrder(p, fallback) <==> AllSettled(p)
  {
    hide DedupedGroups, KeysDoNotTie, Settled, Output;
    if AllSettled(p) {
      forall q | multiset(q) == multiset(p)
        ensures Output(q, fallback) == Output(p, fallback)
      {
        SettledIgnoreOrder(p, q, fallback);
      }
    } else {
      var g :| g in DedupedGroups(p) && !Settled(g);
      var i :| 0 <= i < |DedupedGroups(p)| && DedupedGroups(p)[i] == g;
      var t := UnsettledIsSeen(p, i, fallback);
    }
  }

  // ----------------------------------------------------------------------------------------
  // A condition on the reports alone
  // ----------------------------------------------------------------------------------------

  /**
   * Records of one key, identity and rank differ only in their dates; records under different identities differ in rank
   * or in URL; and records of one key have one location.
   */
  ghost predicate Unambiguous(raws: seq<Raw>) {
    && (forall r, q :: r in raws && q in raws && Rivals(r, q) ==> Undated(Row(r)) == Undated(Row(q)))
    && (forall r, q :: r in raws && q in raws && RecordIdentityOf(r) != RecordIdentityOf(q) ==>
          Priority(r.kind) != Priority(q.kind) || r.url != q.url)
    && (forall r, q :: r in raws && q in raws && KeyOf(r) == KeyOf(q) ==> r.location == q.location)
  }

  lemma UnambiguousTies(sources: seq<Raw>, raws: seq<Raw>)
    requires Unambiguous(raws) && forall x :: x in sources ==> x in raws
    ensures TiesSettled(sources)
  {
    forall a, b | 0 <= a < |Collapsed(sources)| && 0 <= b < |Collapsed(sources)| && a != b
      ensures !Tied(Collapsed(sources)[a], Collapsed(sources)[b])
    {
      DistinctRows(sources, a, b);
      var i := CollapsedIsBest(sources, a);
      var j := CollapsedIsBest(sources, b);
      hide Collapsed, KeyOf;
      BeforeIsTotal(sources[i].url, sources[j].url);
    }
  }

  lemma UnambiguousIsSettled(g: Group, raws: seq<Raw>)
    requires Unambiguous(raws) && Fronted(g) && forall x :: x in g.sources ==> x in raws
    ensures Settled(g)
  {
    hide RecordIdentityOf, KeyOf, Undated, Row, Tied;
    UnambiguousTies(g.sources, raws);
    assert g.sources[0] in raws;
  }

  /** For an unambiguous batch whose keys do not tie, every permutation gives the very same postings, in the same order. */
  lemma PostingsIgnoreBatchOrder(p: seq<Raw>, fallback: int)
    requires KeysDoNotTie(p) && Unambiguous(p)
    ensures IgnoresOrder(p, fallback)
  {
    DedupedAreFronted(p);
    hide DedupedGroups, KeysDoNotTie, Unambiguous, IgnoresOrder, Fronted, Settled;
    forall g | g in DedupedGroups(p)
      ensures Settled(g)
    {
      var i :| 0 <= i < |DedupedGroups(p)| && DedupedGroups(p)[i] == g;
      RecordsAreReported(p, i);
      UnambiguousIsSettled(g, p);
    }
    OrderIgnoredIff(p, fallback);
  }

  // ----------------------------------------------------------------------------------------
  // A batch whose postings depend on its order
  // ----------------------------------------------------------------------------------------

  function Repost(url: string): Raw {
    Raw("feed", Rss, url, url, Some(url), Some(url), None, Some("id"), Some(5), "c", "a", Location(true, "", "", ""))
  }

  /** Two reports of one id under two URLs: the one that comes first gives the posting its URL. */
  lemma FirstUrlIsKept(u: string, v: string, fallback: int)
    requires u != v
    ensures |MaterializedAll(DedupedGroups([Repost(u), Repost(v)]), fallback)| == 1
    ensures MaterializedAll(DedupedGroups([Repost(u), Repost(v)]), fallback)[0].canonicalUrl == u
  {
    hide Merged, Grouped, Materialized, Repost, Joined, NewGroup;
    var g := Joined(NewGroup(Repost(u)), Repost(v));
    RepostsAreGrouped(u, v);
    A.OneGroupStays(g, SharedIdentity);
    A.OneGroupStays(g, NearDuplicate);
    A.OneGroupStays(g, RemoteVersusCity);
    OneRowOfTwo(u, v, fallback);
    assert [g][..0] == [];
  }

  lemma RepostsAreGrouped(u: string, v: string)
    ensures Grouped([Repost(u), Repost(v)]) == [Joined(NewGroup(Repost(u)), Repost(v))]
  {
    var raws := [Repost(u), Repost(v)];
    assert raws[..1] == [Repost(u)] && [Repost(u)][..0] == [];
    assert Grouped([Repost(u)]) == [NewGroup(Repost(u))];
  }

  lemma OneRowOfTwo(u: string, v: string, fallback: int)
    ensures var m := Materialized(Joined(NewGroup(Repost(u)), Repost(v)), fallback); m.canonicalUrl == u
  {
    var s := [Repost(u), Repost(v)];
    assert s[..1] == [Repost(u)] && [Repost(u)][..0] == [];
    assert Collapsed([]) == [] && SortedRecords([]) == [];
    assert Collapsed([Repost(u)]) == [Repost(u)];
    assert Collapsed(s) == [Repost(u)];
    assert SortedRecords([Repost(u)]) == [Repost(u)];
  }

  /** So the order of a batch whose keys do not tie can decide the URL of a posting. */
  lemma UrlDependsOnOrder(u: string, v: string, fallback: int)
    requires u != v
    ensures var p, q := [Repost(u), Repost(v)], [Repost(v), Repost(u)];
      && multiset(p) == multiset(q) && KeysDoNotTie(p)
      && |Output(p, fallback)| == |Output(q, fallback)| == 1
      && Output(p, fallback)[0].canonicalUrl == u && Output(q, fallback)[0].canonicalUrl == v
  {
    hide DedupedGroups, MaterializedAll, Repost, KeysDoNotTie;
    FirstUrlIsKept(u, v, fallback);
    FirstUrlIsKept(v, u, fallback);
    RepostsDoNotTie(u, v);
  }

  /** When the reports of two keys tie and no pass may merge them, their postings stand in the order of the batch. */
  lemma TiedKeysShow(a: Raw, b: Raw, fallback: int)
    requires Tied(a, b) && KeyOf(a) != KeyOf(b) && forall pass :: !CanMerge(pass, NewGroup(a), NewGroup(b))
    ensures multiset([a, b]) == multiset([b, a]) && !KeysDoNotTie([a, b])
    ensures Output([a, b], fallback) != Output([b, a], fallback)
  {
    hide KeyOf, CanMerge, Tied, Output, KeysDoNotTie, NewGroup;
    forall pass
      ensures !CanMerge(pass, NewGroup(b), NewGroup(a))
    {
      A.MergingIsSymmetric(pass, NewGroup(a), NewGroup(b));
    }
    TiedIsSymmetric(a, b);
    TiedAreApart(a, b);
    TiedAreApart(b, a);
    FirstIsFirst(a, b, fallback);
    FirstIsFirst(b, a, fallback);
    TwoKeysTie(a, b);
  }

  lemma FirstIsFirst(a: Raw, b: Raw, fallback: int)
    requires A.Apart([a, b])
    ensures |Output([a, b], fallback)| == 2 && Output([a, b], fallback)[0].key == KeyOf(a)
  {
    A.ApartJobs([a, b], fallback);
    hide DedupedGroups, KeyOf, A.Apart;
  }

  lemma TwoKeysTie(a: Raw, b: Raw)
    requires Tied(a, b) && KeyOf(a) != KeyOf(b)
    ensures !KeysDoNotTie([a, b])
  {
    hide KeyOf, Tied, Grouped;
    A.GroupedAlone([a, b]);
    var groups := Grouped([a, b]);
    assert Best(groups[0].sources) == a && Best(groups[1].sources) == b;
  }

  lemma TiedAreApart(a: Raw, b: Raw)
    requires Tied(a, b) && KeyOf(a) != KeyOf(b) && forall pass :: !CanMerge(pass, NewGroup(a), NewGroup(b))
    ensures A.Apart([a, b])
  {
    hide KeyOf, CanMerge;
  }

  lemma RepostsDoNotTie(u: string, v: string)
    requires u != v
    ensures multiset([Repost(u), Repost(v)]) == multiset([Repost(v), Repost(u)]) && KeysDoNotTie([Repost(u), Repost(v)])
  {
    RepostsAreGrouped(u, v);
  }
}
