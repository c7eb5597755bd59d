/** Which reports become one job, said of the records themselves. */
module DedupeMerging {
  import opened Options
  import opened Dedupe
  import opened DedupeLaws
  import opened DedupeOrder
  import A = DedupeApart

  // ----------------------------------------------------------------------------------------
  // The words of a title
  // ----------------------------------------------------------------------------------------

  /** A letter or digit of ASCII, by its code. */
  predicate IsAlphanumeric(c: char) {
    48 <= c as int <= 57 || 65 <= c as int <= 90 || 97 <= c as int <= 122
  }

  function WithoutCase(c: char): char {
    if 65 <= c as int <= 90 then (c as int + 32) as char else c
  }

  function Lowered(s: string): (t: string)
    ensures |t| == |s| && forall i :: 0 <= i < |s| ==> t[i] == WithoutCase(s[i])
  {
    if s == [] then [] else [WithoutCase(s[0])] + Lowered(s[1..])
  }

  /** `s[i..j]` is a maximal run of letters and digits. */
  predicate IsWord(s: string, i: nat, j: nat) {
    && i < j <= |s| && (forall k :: i <= k < j ==> IsAlphanumeric(s[k]))
    && (i == 0 || !IsAlphanumeric(s[i - 1])) && (j == |s| || !IsAlphanumeric(s[j]))
  }

  /** The words of a title: its maximal alphanumeric runs, without case, each once. */
  ghost function Words(s: string): set<string> {
    set i: nat, j: nat | 0 <= i < j <= |s| && IsWord(s, i, j) :: Lowered(s[i..j])
  }

  function Lead(s: string): (n: nat)
    ensures n <= |s| && (forall k :: 0 <= k < n ==> IsAlphanumeric(s[k])) && (n == |s| || !IsAlphanumeric(s[n]))
  {
    if s == [] || !IsAlphanumeric(s[0]) then 0 else 1 + Lead(s[1..])
  }

  ghost predicate LaterWord(s: string, t: string) {
    exists i: nat, j: nat :: Lead(s) < i < j <= |s| && IsWord(s, i, j) && t == Lowered(s[i..j])
  }

  lemma WordInTail(s: string, i: nat, j: nat)
    requires s != []
    ensures IsWord(s, i + 1, j + 1) <==> IsWord(s[1..], i, j) && (i > 0 || !IsAlphanumeric(s[0]))
    ensures i < j < |s| ==> s[i + 1..j + 1] == s[1..][i..j]
  {
    assert forall k :: 0 <= k < |s| - 1 ==> s[1..][k] == s[k + 1];
    if IsWord(s, i + 1, j + 1) {
      forall k | i <= k < j
        ensures IsAlphanumeric(s[1..][k])
      {
        assert IsAlphanumeric(s[k + 1]);
      }
    }
    if IsWord(s[1..], i, j) {
      forall k | i + 1 <= k < j + 1
        ensures IsAlphanumeric(s[k])
      {
        assert IsAlphanumeric(s[1..][k - 1]);
      }
    }
  }

  /** A word that begins in the leading run, or right behind it, is the leading run. */
  lemma WordAtLead(s: string, i: nat, j: nat)
    requires IsWord(s, i, j) && i <= Lead(s)
    ensures i == 0 && j == Lead(s)
  {
    hide IsAlphanumeric;
  }

  lemma LaterWordOf(s: string, t: string)
    requires s != [] && LaterWord(s, t)
    ensures LaterWord(s[1..], t) || (!IsAlphanumeric(s[0]) && Lead(s[1..]) > 0 && t == Lowered(s[1..][..Lead(s[1..])]))
  {
    hide IsWord, IsAlphanumeric, Lowered;
    var i: nat, j: nat :| Lead(s) < i < j <= |s| && IsWord(s, i, j) && t == Lowered(s[i..j]);
    WordInTail(s, i - 1, j - 1);
    if i - 1 <= Lead(s[1..]) {
      WordAtLead(s[1..], i - 1, j - 1);
    } else {
      assert LaterWord(s[1..], t);
    }
  }

  lemma LaterWordAbove(s: string, t: string)
    requires s != [] && LaterWord(s[1..], t)
    ensures LaterWord(s, t)
  {
    hide IsWord, IsAlphanumeric, Lowered;
    var i: nat, j: nat :| Lead(s[1..]) < i < j <= |s[1..]| && IsWord(s[1..], i, j) && t == Lowered(s[1..][i..j]);
    WordInTail(s, i, j);
    assert Lead(s) < i + 1 < j + 1 <= |s| && IsWord(s, i + 1, j + 1);
  }

  lemma LeadIsLater(s: string)
    requires s != [] && !IsAlphanumeric(s[0]) && Lead(s[1..]) > 0
    ensures LaterWord(s, Lowered(s[1..][..Lead(s[1..])]))
  {
    var n := Lead(s[1..]);
    assert IsWord(s[1..], 0, n);
    hide IsWord, IsAlphanumeric, Lowered;
    WordInTail(s, 0, n);
    assert s[1..][0..n] == s[1..][..n];
    assert Lead(s) < 1 < n + 1 <= |s| && IsWord(s, 1, n + 1);
  }

  /** Behind a letter or digit the later words are those of the tail; behind another character all of the tail's are. */
  lemma LaterWordsOfTail(s: string, t: string)
    requires s != []
    ensures LaterWord(s, t) <==>
      LaterWord(s[1..], t) || (!IsAlphanumeric(s[0]) && Lead(s[1..]) > 0 && t == Lowered(s[1..][..Lead(s[1..])]))
  {
    hide LaterWord, IsAlphanumeric, Lowered;
    if LaterWord(s, t) {
      LaterWordOf(s, t);
    }
    if LaterWord(s[1..], t) {
      LaterWordAbove(s, t);
    }
    if !IsAlphanumeric(s[0]) && Lead(s[1..]) > 0 {
      LeadIsLater(s);
    }
  }

  lemma CharsAgree(c: char)
    ensures IsTokenChar(c) == IsAlphanumeric(c) && Lower(c) == WithoutCase(c)
  {
  }

  lemma LoweredBehind(c: char, rest: string)
    ensures Lowered([c] + rest) == [WithoutCase(c)] + Lowered(rest)
  {
    hide WithoutCase;
    assert ([c] + rest)[1..] == rest;
  }

  lemma LoweredLead(s: string, run: string)
    requires s != []
    ensures run + Lowered(s[..Lead(s)]) ==
      if IsAlphanumeric(s[0]) then (run + [WithoutCase(s[0])]) + Lowered(s[1..][..Lead(s[1..])]) else run
  {
    hide IsAlphanumeric, WithoutCase;
    LeadIs(s);
    hide Lead, Lowered;
    if IsAlphanumeric(s[0]) {
      LoweredRun(s, run, Lead(s[1..]));
    } else {
      NothingLowered(s, run);
    }
  }

  lemma LeadIs(s: string)
    requires s != []
    ensures Lead(s) == if IsAlphanumeric(s[0]) then 1 + Lead(s[1..]) else 0
  {
    hide IsAlphanumeric;
  }

  lemma NothingLowered(s: string, run: string)
    ensures run + Lowered(s[..0]) == run
  {
    assert s[..0] == [];
  }

  lemma LoweredRun(s: string, run: string, n: nat)
    requires 0 < |s| && n < |s|
    ensures run + Lowered(s[..1 + n]) == (run + [WithoutCase(s[0])]) + Lowered(s[1..][..n])
  {
    hide WithoutCase;
    var rest := s[1..][..n];
    assert s[..1 + n] == [s[0]] + rest;
    LoweredBehind(s[0], rest);
    hide Lowered;
    assert run + ([WithoutCase(s[0])] + Lowered(rest)) == (run + [WithoutCase(s[0])]) + Lowered(rest);
  }

  lemma {:induction false} TokensAreWordsFrom(s: string, run: string, t: string)
    ensures t in TokensFrom(s, run) <==> (t == run + Lowered(s[..Lead(s)]) && t != []) || LaterWord(s, t)
    decreases |s|
  {
    if s == [] {
      assert run + Lowered(s[..0]) == run;
    } else {
      CharsAgree(s[0]);
      LaterWordsOfTail(s, t);
      LoweredLead(s, run);
      hide LaterWord, IsTokenChar, Lower, WithoutCase, IsAlphanumeric, Lowered;
      TokensAreWordsFrom(s[1..], if IsTokenChar(s[0]) then run + [Lower(s[0])] else [], t);
      assert [] + Lowered(s[1..][..Lead(s[1..])]) == Lowered(s[1..][..Lead(s[1..])]);
      assert |Lowered(s[1..][..Lead(s[1..])])| == Lead(s[1..]);
    }
  }

  /** The tokens of a title are its words. */
  lemma TokensAreWords(s: string)
    ensures Tokens(s) == Words(s)
  {
    forall t
      ensures t in Tokens(s) <==> t in Words(s)
    {
      TokensAreWordsFrom(s, [], t);
      assert [] + Lowered(s[..Lead(s)]) == Lowered(s[..Lead(s)]);
      if Lead(s) > 0 {
        assert IsWord(s, 0, Lead(s)) && s[0..Lead(s)] == s[..Lead(s)];
      }
      if t in Words(s) {
        var i: nat, j: nat :| 0 <= i < j <= |s| && IsWord(s, i, j) && t == Lowered(s[i..j]);
        if i <= Lead(s) {
          WordAtLead(s, i, j);
        }
      }
    }
  }

  /** The words that two titles share, twice counted, are at least this part of all their words, and each has some. */
  ghost predicate Similar(a: string, b: string, least: real) {
    && Words(a) != {} && Words(b) != {}
    && 2.0 * |Words(a) * Words(b)| as real >= least * (|Words(a)| + |Words(b)|) as real
  }

  lemma TitlesAreSimilar(a: string, b: string)
    ensures TitlesAlike(a, b, 90) <==> Similar(a, b, 0.90)
    ensures TitlesAlike(a, b, 95) <==> Similar(a, b, 0.95)
  {
    TokensAreWords(a);
    TokensAreWords(b);
    hide Words, Tokens;
  }

  // ----------------------------------------------------------------------------------------
  // When two groups are one job
  // ----------------------------------------------------------------------------------------

  /** Two reports of one publisher under different ids. */
  predicate Contradict(x: Raw, y: Raw) {
    x.source == y.source && x.publisherId.Some? && y.publisherId.Some? && x.publisherId != y.publisherId
  }

  predicate SameId(x: Raw, y: Raw) {
    x.source == y.source && x.publisherId.Some? && x.publisherId == y.publisherId
  }

  predicate SamePage(x: Raw, y: Raw) {
    x.page.Some? && x.page == y.page
  }

  ghost predicate AnyContradict(s: seq<Raw>, t: seq<Raw>) {
    exists x, y :: x in s && y in t && Contradict(x, y)
  }

  ghost predicate AnySameId(s: seq<Raw>, t: seq<Raw>) {
    exists x, y :: x in s && y in t && SameId(x, y)
  }

  ghost predicate AnySamePage(s: seq<Raw>, t: seq<Raw>) {
    exists x, y :: x in s && y in t && SamePage(x, y)
  }

  ghost predicate AnyAts(s: seq<Raw>) {
    exists x :: x in s && x.kind == Ats
  }

  /**
   * Two groups of one company are one job to a pass when no records of theirs contradict each other, and: they share an id,
   * or an ATS record is among them and they share a page; or they have one place and similar titles; or one is remote and
   * the other not, and their titles are more similar still.
   */
  ghost predicate OneJob(pass: Pass, t: Group, g: Group) {
    && t.key.company == g.key.company && !AnyContradict(t.sources, g.sources)
    && match pass
       case SharedIdentity =>
         || AnySameId(t.sources, g.sources)
         || ((AnyAts(t.sources) || AnyAts(g.sources)) && AnySamePage(t.sources, g.sources))
       case NearDuplicate => t.key.place == g.key.place && Similar(t.key.title, g.key.title, 0.90)
       case RemoteVersusCity => (t.location.isRemote <==> !g.location.isRemote) && Similar(t.key.title, g.key.title, 0.95)
  }

  /** A group's ids and pages are those of its records. */
  ghost predicate Exact(g: Group) {
    && (forall x :: x in g.sources && x.publisherId.Some? ==> x.source in g.ids && g.ids[x.source] == x.publisherId.value)
    && (forall source :: source in g.ids ==> exists x :: x in g.sources && x.source == source && x.publisherId == Some(g.ids[source]))
    && (forall page :: page in g.pages <==> exists x :: x in g.sources && x.page == Some(page))
  }

  ghost predicate AllExact(groups: seq<Group>) {
    forall i :: 0 <= i < |groups| ==> Exact(groups[i])
  }

  lemma ConflictMeans(t: Group, g: Group)
    requires Exact(t) && Exact(g)
    ensures Conflict(t.ids, g.ids) <==> AnyContradict(t.sources, g.sources)
  {
    if Conflict(t.ids, g.ids) {
      var source :| source in t.ids && source in g.ids && t.ids[source] != g.ids[source];
      var x :| x in t.sources && x.source == source && x.publisherId == Some(t.ids[source]);
      var y :| y in g.sources && y.source == source && y.publisherId == Some(g.ids[source]);
      assert Contradict(x, y);
    }
    if AnyContradict(t.sources, g.sources) {
      var x, y :| x in t.sources && y in g.sources && Contradict(x, y);
      assert x.source in t.ids && x.source in g.ids;
    }
  }

  lemma SharedIdMeans(t: Group, g: Group)
    requires Exact(t) && Exact(g)
    ensures ShareAnId(t.ids, g.ids) <==> AnySameId(t.sources, g.sources)
  {
    if ShareAnId(t.ids, g.ids) {
      var source :| source in t.ids && source in g.ids && t.ids[source] == g.ids[source];
      var x :| x in t.sources && x.source == source && x.publisherId == Some(t.ids[source]);
      var y :| y in g.sources && y.source == source && y.publisherId == Some(g.ids[source]);
      assert SameId(x, y);
    }
    if AnySameId(t.sources, g.sources) {
      var x, y :| x in t.sources && y in g.sources && SameId(x, y);
      assert x.source in t.ids && x.source in g.ids;
    }
  }

  lemma SharedPageMeans(t: Group, g: Group)
    requires Exact(t) && Exact(g)
    ensures t.pages * g.pages != {} <==> AnySamePage(t.sources, g.sources)
  {
    if t.pages * g.pages != {} {
      var page :| page in t.pages * g.pages;
      var x :| x in t.sources && x.page == Some(page);
      var y :| y in g.sources && y.page == Some(page);
      assert SamePage(x, y);
    }
    if AnySamePage(t.sources, g.sources) {
      var x, y :| x in t.sources && y in g.sources && SamePage(x, y);
      assert x.page.value in t.pages * g.pages;
    }
  }

  lemma CanMergeMeans(pass: Pass, t: Group, g: Group)
    requires Exact(t) && Exact(g)
    ensures CanMerge(pass, t, g) <==> OneJob(pass, t, g)
  {
    ConflictMeans(t, g);
    SharedIdMeans(t, g);
    SharedPageMeans(t, g);
    TitlesAreSimilar(t.key.title, g.key.title);
    hide Exact, Conflict, ShareAnId, AnyContradict, AnySameId, AnySamePage, TitlesAlike, Similar;
  }

  // ----------------------------------------------------------------------------------------
  // Groups are exact in every pass
  // ----------------------------------------------------------------------------------------

  lemma NewIsExact(r: Raw)
    ensures Exact(NewGroup(r))
  {
    var g := NewGroup(r);
    assert g.sources == [r] && r in g.sources;
  }

  lemma JoinedIsExact(g: Group, r: Raw)
    requires Exact(g) && Uniform(g) && g.key == KeyOf(r)
    ensures Exact(Joined(g, r))
  {
    var j := Joined(g, r);
    assert forall x :: x in j.sources <==> x in g.sources || x == r;
  }

  lemma {:induction false} GroupedAreExact(raws: seq<Raw>)
    ensures AllExact(Grouped(raws))
  {
    hide Exact, KeyOf, Joined, NewGroup;
    if raws != [] {
      var front, r := raws[..|raws| - 1], raws[|raws| - 1];
      GroupedAreExact(front);
      GroupedIsUniform(front);
      var i := IndexOfKey(Grouped(front), KeyOf(r));
      if i < |Grouped(front)| {
        JoinedIsExact(Grouped(front)[i], r);
      } else {
        NewIsExact(r);
      }
    }
  }

  lemma AbsorbIsExact(t: Group, g: Group)
    requires Exact(t) && Exact(g) && !Conflict(t.ids, g.ids)
    ensures Exact(Absorb(t, g))
  {
    var u := Absorb(t, g);
    assert forall x :: x in u.sources <==> x in t.sources || x in g.sources;
    AbsorbKeepsIds(t, g);
    forall page | page in u.pages
      ensures exists x :: x in u.sources && x.page == Some(page)
    {
      if page in t.pages {
        var x :| x in t.sources && x.page == Some(page);
        assert x in u.sources;
      } else {
        var x :| x in g.sources && x.page == Some(page);
        assert x in u.sources;
      }
    }
  }

  lemma AbsorbFilesIds(t: Group, g: Group, x: Raw)
    requires Exact(t) && Exact(g) && !Conflict(t.ids, g.ids) && x in Absorb(t, g).sources && x.publisherId.Some?
    ensures x.source in Absorb(t, g).ids && Absorb(t, g).ids[x.source] == x.publisherId.value
  {
    assert x in t.sources || x in g.sources;
  }

  lemma AbsorbKeepsIds(t: Group, g: Group)
    requires Exact(t) && Exact(g) && !Conflict(t.ids, g.ids)
    ensures var u := Absorb(t, g);
      && (forall x :: x in u.sources && x.publisherId.Some? ==> x.source in u.ids && u.ids[x.source] == x.publisherId.value)
      && (forall source :: source in u.ids ==> exists x :: x in u.sources && x.source == source && x.publisherId == Some(u.ids[source]))
  {
    var u := Absorb(t, g);
    forall x | x in u.sources && x.publisherId.Some?
      ensures x.source in u.ids && u.ids[x.source] == x.publisherId.value
    {
      AbsorbFilesIds(t, g, x);
    }
    forall source | source in u.ids
      ensures exists x :: x in u.sources && x.source == source && x.publisherId == Some(u.ids[source])
    {
      if source in g.ids {
        var x :| x in g.sources && x.source == source && x.publisherId == Some(g.ids[source]);
        assert x in u.sources;
      } else {
        var x :| x in t.sources && x.source == source && x.publisherId == Some(t.ids[source]);
        assert x in u.sources;
      }
    }
  }

  /** A group that is one job with some kept group joins the first such, and no other group changes. */
  lemma JoinsTheFirst(kept: seq<Group>, g: Group, pass: Pass, i: nat)
    requires AllExact(kept) && Exact(g)
    requires i < |kept| && OneJob(pass, kept[i], g) && forall j :: 0 <= j < i ==> !OneJob(pass, kept[j], g)
    ensures var out := Place(kept, g, pass);
      && |out| == |kept| && (forall j :: 0 <= j < |kept| && j != i ==> out[j] == kept[j])
      && out[i].sources == kept[i].sources + g.sources && out[i].key == kept[i].key && out[i].location == kept[i].location
      && Exact(out[i])
  {
    hide Exact, OneJob, CanMerge;
    forall j | 0 <= j < |kept|
      ensures CanMerge(pass, kept[j], g) <==> OneJob(pass, kept[j], g)
    {
      CanMergeMeans(pass, kept[j], g);
    }
    TargetIsFirst(kept, g, pass, i, 0);
    NoConflict(pass, kept[i], g);
    AbsorbIsExact(kept[i], g);
  }

  lemma NoConflict(pass: Pass, t: Group, g: Group)
    requires CanMerge(pass, t, g)
    ensures !Conflict(t.ids, g.ids)
  {
  }

  lemma {:induction false} TargetIsFirst(kept: seq<Group>, g: Group, pass: Pass, i: nat, start: nat)
    requires start <= i < |kept| && CanMerge(pass, kept[i], g) && forall j :: start <= j < i ==> !CanMerge(pass, kept[j], g)
    ensures TargetFrom(kept, g, pass, start) == i
    decreases i - start
  {
    hide CanMerge;
    if start < i {
      TargetIsFirst(kept, g, pass, i, start + 1);
    }
  }

  /** A group that is one job with none is kept as it is. */
  lemma StaysAlone(kept: seq<Group>, g: Group, pass: Pass)
    requires AllExact(kept) && Exact(g) && forall j :: 0 <= j < |kept| ==> !OneJob(pass, kept[j], g)
    ensures Place(kept, g, pass) == kept + [g]
  {
    hide Exact, OneJob, CanMerge;
    forall j | 0 <= j < |kept|
      ensures !CanMerge(pass, kept[j], g)
    {
      CanMergeMeans(pass, kept[j], g);
    }
    A.NoTarget(kept, g, pass, 0);
  }

  lemma PlaceIsExact(kept: seq<Group>, g: Group, pass: Pass)
    requires AllExact(kept) && Exact(g)
    ensures AllExact(Place(kept, g, pass))
  {
    hide Exact, OneJob, CanMerge;
    if i :| 0 <= i < |kept| && OneJob(pass, kept[i], g) {
      var n := FirstOneJob(kept, g, pass, i);
      JoinsTheFirst(kept, g, pass, n);
    } else {
      StaysAlone(kept, g, pass);
    }
  }

  lemma {:induction false} FirstOneJob(kept: seq<Group>, g: Group, pass: Pass, i: nat) returns (n: nat)
    requires i < |kept| && OneJob(pass, kept[i], g)
    ensures n < |kept| && OneJob(pass, kept[n], g) && forall j :: 0 <= j < n ==> !OneJob(pass, kept[j], g)
    decreases i
  {
    hide OneJob;
    n := i;
    if j :| 0 <= j < i && OneJob(pass, kept[j], g) {
      n := FirstOneJob(kept, g, pass, j);
    }
  }

  lemma {:induction false} PlacedAreExact(ranked: seq<Group>, pass: Pass)
    requires AllExact(ranked)
    ensures AllExact(PlaceAll(ranked, pass))
  {
    hide Exact, Place;
    if ranked != [] {
      PlacedAreExact(ranked[..|ranked| - 1], pass);
      PlaceIsExact(PlaceAll(ranked[..|ranked| - 1], pass), ranked[|ranked| - 1], pass);
    }
  }

  lemma RankedAreExact(groups: seq<Group>)
    requires AllExact(groups)
    ensures AllExact(Ranked(groups))
  {
    hide Exact, Ranked;
    forall i | 0 <= i < |Ranked(groups)|
      ensures Exact(Ranked(groups)[i])
    {
      RankedMembers(groups, Ranked(groups)[i]);
    }
  }

  /** Group `i` is the first kept one that is one job with `g`, and takes its records; no other changes. */
  ghost predicate IsJoined(kept: seq<Group>, g: Group, out: seq<Group>, pass: Pass, i: int) {
    && 0 <= i < |kept| && OneJob(pass, kept[i], g) && (forall j :: 0 <= j < i ==> !OneJob(pass, kept[j], g))
    && |out| == |kept| && (forall j :: 0 <= j < |kept| && j != i ==> out[j] == kept[j])
    && out[i].sources == kept[i].sources + g.sources && out[i].key == kept[i].key
  }

  lemma PlaceJoins(kept: seq<Group>, g: Group, pass: Pass)
    requires AllExact(kept) && Exact(g)
    ensures var out := Place(kept, g, pass);
      if exists i :: 0 <= i < |kept| && OneJob(pass, kept[i], g) then exists i :: IsJoined(kept, g, out, pass, i) else out == kept + [g]
  {
    hide Exact, OneJob, Place;
    if i :| 0 <= i < |kept| && OneJob(pass, kept[i], g) {
      var m := FirstOneJob(kept, g, pass, i);
      JoinsTheFirst(kept, g, pass, m);
      assert IsJoined(kept, g, Place(kept, g, pass), pass, m);
    } else {
      StaysAlone(kept, g, pass);
    }
  }

  /**
   * What a pass does with exact groups: it takes them in rank order, and the `n`th joins the first group kept of those
   * before it that is one job with it, or is kept itself.
   */
  lemma PassJoins(groups: seq<Group>, pass: Pass, n: nat)
    requires AllExact(groups) && n < |Ranked(groups)|
    ensures var kept, g := PlaceAll(Ranked(groups)[..n], pass), Ranked(groups)[n];
      var out := PlaceAll(Ranked(groups)[..n + 1], pass);
      && AllExact(kept) && Exact(g)
      && (if exists i :: 0 <= i < |kept| && OneJob(pass, kept[i], g) then exists i :: IsJoined(kept, g, out, pass, i)
          else out == kept + [g])
    ensures PlaceAll(Ranked(groups)[..|Ranked(groups)|], pass) == Merged(groups, pass)
  {
    hide Exact, OneJob, Place, Ranked, IsJoined;
    var x := Ranked(groups);
    RankedAreExact(groups);
    PlacedAreExact(x[..n], pass);
    var kept, g := PlaceAll(x[..n], pass), x[n];
    assert Exact(g);
    PlacedOneMore(x, n, pass);
    assert x[..|x|] == x;
    PlaceJoins(kept, g, pass);
  }

  lemma PlacedOneMore(groups: seq<Group>, n: nat, pass: Pass)
    requires n < |groups|
    ensures PlaceAll(groups[..n + 1], pass) == Place(PlaceAll(groups[..n], pass), groups[n], pass)
  {
    hide Place;
    assert groups[..n + 1][..n] == groups[..n] && groups[..n + 1][n] == groups[n];
  }

  lemma PassKeepsExact(groups: seq<Group>, pass: Pass)
    requires AllExact(groups)
    ensures AllExact(Merged(groups, pass))
  {
    hide AllExact, Ranked, PlaceAll;
    RankedAreExact(groups);
    PlacedAreExact(Ranked(groups), pass);
  }

  /** So in all three passes over any batch. */
  lemma EveryPassIsExact(raws: seq<Raw>)
    ensures var first := Merged(Grouped(raws), SharedIdentity);
      var second := Merged(first, NearDuplicate);
      && AllExact(Grouped(raws)) && AllExact(first) && AllExact(second)
      && DedupedGroups(raws) == Merged(second, RemoteVersusCity) && AllExact(DedupedGroups(raws))
  {
    hide AllExact, Merged, Grouped;
    GroupedAreExact(raws);
    PassKeepsExact(Grouped(raws), SharedIdentity);
    PassKeepsExact(Merged(Grouped(raws), SharedIdentity), NearDuplicate);
    PassKeepsExact(Merged(Merged(Grouped(raws), SharedIdentity), NearDuplicate), RemoteVersusCity);
  }

  // ----------------------------------------------------------------------------------------
  // Two reports
  // ----------------------------------------------------------------------------------------

  /** Both remote, or neither and in one city, state and country, as far as these are known. */
  predicate SamePlace(a: Location, b: Location) {
    if a.isRemote || b.isRemote then a.isRemote && b.isRemote
    else a.city == b.city && a.state == b.state && a.country == b.country
  }

  lemma PlacesAgree(a: Location, b: Location)
    ensures LocationKeyOf(a) == LocationKeyOf(b) <==> SamePlace(a, b)
  {
  }

  /** Two reports that no pass needs to merge: of one company, title and place, under one id or none. */
  predicate SameReport(a: Raw, b: Raw) {
    && a.company == b.company && a.title == b.title && SamePlace(a.location, b.location)
    && (SameId(a, b) || (a.publisherId.None? && b.publisherId.None?))
  }

  /** Two reports of one job. */
  ghost predicate SameJob(a: Raw, b: Raw) {
    && a.company == b.company && !Contradict(a, b)
    && (|| SameId(a, b)
        || ((a.kind == Ats || b.kind == Ats) && SamePage(a, b))
        || (SamePlace(a.location, b.location) && Similar(a.title, b.title, 0.90))
        || ((a.location.isRemote <==> !b.location.isRemote) && Similar(a.title, b.title, 0.95)))
  }

  lemma OneJobOfTwo(a: Raw, b: Raw)
    ensures SameJob(a, b) <==> exists pass :: OneJob(pass, NewGroup(a), NewGroup(b))
  {
    var g, h := NewGroup(a), NewGroup(b);
    assert a in g.sources && b in h.sources && (forall x :: x in g.sources <==> x == a) && forall y :: y in h.sources <==> y == b;
    PlacesAgree(a.location, b.location);
    hide Similar, LocationKeyOf, SamePlace;
    assert AnyContradict(g.sources, h.sources) <==> Contradict(a, b);
    assert AnySameId(g.sources, h.sources) <==> SameId(a, b);
    assert AnySamePage(g.sources, h.sources) <==> SamePage(a, b);
    assert AnyAts(g.sources) <==> a.kind == Ats;
    assert AnyAts(h.sources) <==> b.kind == Ats;
    hide AnyContradict, AnySameId, AnySamePage, AnyAts, Contradict, SameId, SamePage;
    if SameJob(a, b) {
      assert OneJob(SharedIdentity, g, h) || OneJob(NearDuplicate, g, h) || OneJob(RemoteVersusCity, g, h);
    }
  }

  /** A pass over two groups merges them when it may, and else leaves both, in one order or the other. */
  lemma PassOnTwo(g: Group, h: Group, pass: Pass)
    ensures var m := Merged([g, h], pass);
      if CanMerge(pass, g, h) then |m| == 1 else m == [g, h] || m == [h, g]
  {
    hide CanMerge;
    A.MergingIsSymmetric(pass, g, h);
    assert [g, h][..1] == [g] && [g][..0] == [];
    assert Ranked([g]) == [g];
    assert RankInsert([], h) == [h] && [h] + [g] == [h, g] && [g] + [h] == [g, h];
    assert RankInsert([g], h) == [g, h] || RankInsert([g], h) == [h, g];
    TwoPlaced(g, h, pass);
    TwoPlaced(h, g, pass);
  }

  lemma TwoPlaced(g: Group, h: Group, pass: Pass)
    ensures PlaceAll([g, h], pass) == if CanMerge(pass, g, h) then [Absorb(g, h)] else [g, h]
  {
    hide CanMerge, Absorb;
    assert [g, h][..1] == [g] && [g][..0] == [];
    assert PlaceAll([g], pass) == [g];
    assert TargetFrom([g], h, pass, 0) == if CanMerge(pass, g, h) then 0 else 1;
  }

  lemma OneStays(m: seq<Group>, pass: Pass)
    requires |m| == 1
    ensures |Merged(m, pass)| == 1
  {
    assert m == [m[0]];
    A.OneGroupStays(m[0], pass);
  }

  /** Two groups, in either order, after a pass: one if it may merge them. */
  lemma NextPassOnTwo(m: seq<Group>, g: Group, h: Group, pass: Pass)
    requires |m| == 1 || m == [g, h] || m == [h, g]
    ensures var n := Merged(m, pass);
      && (|n| == 1 || n == [g, h] || n == [h, g])
      && (|n| == 1 <==> |m| == 1 || CanMerge(pass, g, h))
  {
    hide CanMerge, Merged;
    if |m| == 1 {
      OneStays(m, pass);
    } else {
      PassOnTwo(g, h, pass);
      PassOnTwo(h, g, pass);
      A.MergingIsSymmetric(pass, g, h);
    }
  }

  lemma TwoPassed(a: Raw, b: Raw)
    requires KeyOf(a) != KeyOf(b)
    ensures DedupedGroups([a, b])
         == Merged(Merged(Merged([NewGroup(a), NewGroup(b)], SharedIdentity), NearDuplicate), RemoteVersusCity)
  {
    hide Merged, Grouped, KeyOf, NewGroup;
    var raws := [a, b];
    assert raws[0] == a && raws[1] == b;
    A.GroupedAlone(raws);
    var singles := A.Singles(raws);
    hide A.Singles;
    assert singles == [NewGroup(a), NewGroup(b)];
  }

  lemma DifferentKeysIff(a: Raw, b: Raw)
    requires KeyOf(a) != KeyOf(b)
    ensures |DedupedGroups([a, b])| == 1 <==> SameJob(a, b)
  {
    var g, h := NewGroup(a), NewGroup(b);
    TwoPassed(a, b);
    hide CanMerge, Merged, DedupedGroups, Exact, KeyOf, OneJob, SameJob, NewGroup;
    var first := Merged([g, h], SharedIdentity);
    NextPassOnTwo([g, h], g, h, SharedIdentity);
    NextPassOnTwo(first, g, h, NearDuplicate);
    NextPassOnTwo(Merged(first, NearDuplicate), g, h, RemoteVersusCity);
    NewIsExact(a);
    NewIsExact(b);
    CanMergeMeans(SharedIdentity, g, h);
    CanMergeMeans(NearDuplicate, g, h);
    CanMergeMeans(RemoteVersusCity, g, h);
    OneJobOfTwo(a, b);
  }

  lemma OneGroupOfTwo(a: Raw, b: Raw)
    requires KeyOf(a) == KeyOf(b)
    ensures |Grouped([a, b])| == 1
  {
    hide LocationKeyOf, IdentityOf;
    assert [a, b][..1] == [a] && [a][..0] == [];
    assert Grouped([a]) == [NewGroup(a)];
  }

  lemma SameKeyIsOne(a: Raw, b: Raw)
    requires KeyOf(a) == KeyOf(b)
    ensures |DedupedGroups([a, b])| == 1
  {
    OneGroupOfTwo(a, b);
    hide Merged, Grouped;
    OneStays(Grouped([a, b]), SharedIdentity);
    OneStays(Merged(Grouped([a, b]), SharedIdentity), NearDuplicate);
    OneStays(Merged(Merged(Grouped([a, b]), SharedIdentity), NearDuplicate), RemoteVersusCity);
  }

  lemma KeysAgree(a: Raw, b: Raw)
    ensures KeyOf(a) == KeyOf(b) <==> SameReport(a, b)
  {
    PlacesAgree(a.location, b.location);
    hide LocationKeyOf, SamePlace;
  }

  /** Two reports become one posting exactly when they are one report or of one job. */
  lemma TwoReportsAreOneIff(a: Raw, b: Raw)
    ensures |DedupedGroups([a, b])| == 1 <==> SameReport(a, b) || SameJob(a, b)
  {
    hide KeyOf, SameReport, SameJob, DedupedGroups;
    KeysAgree(a, b);
    if KeyOf(a) == KeyOf(b) {
      SameKeyIsOne(a, b);
    } else {
      DifferentKeysIff(a, b);
    }
  }
}
