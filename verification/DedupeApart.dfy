/** Reports that have nothing in common: dedupe leaves each of them a job of its own. */
module DedupeApart {
  import opened Options
  import opened TextOrder
  import opened Dedupe
  import opened DedupeLaws

  /** In rank order, under keys of their own, and no pass may merge two of them. */
  ghost predicate Apart(raws: seq<Raw>) {
    && (forall i, j :: 0 <= i < j < |raws| ==> !Ahead(raws[j], raws[i]))
    && (forall i, j :: 0 <= i < j < |raws| ==> KeyOf(raws[i]) != KeyOf(raws[j]))
    && (forall pass, i, j :: 0 <= i < j < |raws| ==> !CanMerge(pass, NewGroup(raws[i]), NewGroup(raws[j])))
  }

  function Singles(raws: seq<Raw>): (groups: seq<Group>)
    ensures |groups| == |raws| && forall i :: 0 <= i < |raws| ==> groups[i] == NewGroup(raws[i])
  {
    if raws == [] then [] else Singles(raws[..|raws| - 1]) + [NewGroup(raws[|raws| - 1])]
  }

  lemma {:induction false} GroupedAlone(raws: seq<Raw>)
    requires forall i, j :: 0 <= i < j < |raws| ==> KeyOf(raws[i]) != KeyOf(raws[j])
    ensures Grouped(raws) == Singles(raws)
  {
    if raws != [] {
      var front, last := raws[..|raws| - 1], raws[|raws| - 1];
      GroupedAlone(front);
      var i := IndexOfKey(Singles(front), KeyOf(last));
      assert i < |front| ==> Singles(front)[i] == NewGroup(front[i]);
    }
  }

  lemma {:induction false} SortedStays(groups: seq<Group>)
    requires SortedByBest(groups)
    ensures Ranked(groups) == groups
  {
    if groups != [] {
      SortedStays(groups[..|groups| - 1]);
      assert groups == groups[..|groups| - 1] + [groups[|groups| - 1]];
    }
  }

  lemma {:induction false} NoTarget(kept: seq<Group>, g: Group, pass: Pass, start: nat)
    requires start <= |kept| && forall i :: 0 <= i < |kept| ==> !CanMerge(pass, kept[i], g)
    ensures TargetFrom(kept, g, pass, start) == |kept|
    decreases |kept| - start
  {
    hide CanMerge;
    if start < |kept| {
      NoTarget(kept, g, pass, start + 1);
    }
  }

  lemma {:induction false} UnmergedStays(groups: seq<Group>, pass: Pass)
    requires forall i, j :: 0 <= i < j < |groups| ==> !CanMerge(pass, groups[i], groups[j])
    ensures PlaceAll(groups, pass) == groups
  {
    hide CanMerge;
    if groups != [] {
      var front, last := groups[..|groups| - 1], groups[|groups| - 1];
      assert forall i, j :: 0 <= i < j < |front| ==> front[i] == groups[i] && front[j] == groups[j];
      UnmergedStays(front, pass);
      assert forall i :: 0 <= i < |front| ==> !CanMerge(pass, front[i], last);
      NoTarget(front, last, pass, 0);
      assert groups == front + [last];
    }
  }

  lemma PassStays(raws: seq<Raw>, pass: Pass)
    requires Apart(raws)
    ensures Merged(Singles(raws), pass) == Singles(raws)
  {
    hide CanMerge, Ahead;
    var groups := Singles(raws);
    assert forall i :: 0 <= i < |groups| ==> groups[i].sources == [raws[i]] && Best(groups[i].sources) == raws[i];
    SortedStays(groups);
    UnmergedStays(groups, pass);
  }

  lemma OneGroupStays(g: Group, pass: Pass)
    ensures Merged([g], pass) == [g]
  {
    hide CanMerge;
    SortedStays([g]);
    UnmergedStays([g], pass);
  }

  lemma MergingIsSymmetric(pass: Pass, a: Group, b: Group)
    ensures CanMerge(pass, a, b) <==> CanMerge(pass, b, a)
  {
    assert a.pages * b.pages == b.pages * a.pages;
    assert Tokens(a.key.title) * Tokens(b.key.title) == Tokens(b.key.title) * Tokens(a.key.title);
  }

  /** What becomes of a single report. */
  function JobOf(r: Raw, fallback: int): Posting {
    Posting(KeyOf(r), r.location, [r], if r.postedAt.Some? then r.postedAt.value else fallback,
            if r.applyHref.Some? then r.applyHref.value else if r.href.Some? then r.href.value else "")
  }

  lemma SingleJob(r: Raw, fallback: int)
    ensures Materialized(NewGroup(r), fallback) == JobOf(r, fallback)
  {
    var s := [r];
    assert s[..|s| - 1] == [];
    assert Collapsed([]) == [] && SortedRecords([]) == [];
    assert Collapsed(s) == s;
    assert SortedRecords(s) == s;
    assert LeastDate([], false) == None && LeastDate([], true) == None;
    assert LeastDate(s, false) == r.postedAt && LeastDate(s, true) == if r.kind == Ats then r.postedAt else None;
    assert Winner(s) == r;
  }

  lemma {:induction false} SingleJobs(raws: seq<Raw>, fallback: int)
    ensures var jobs := MaterializedAll(Singles(raws), fallback);
      |jobs| == |raws| && forall i :: 0 <= i < |raws| ==> jobs[i] == JobOf(raws[i], fallback)
  {
    if raws != [] {
      var front, last := raws[..|raws| - 1], raws[|raws| - 1];
      hide JobOf, Singles, MaterializedAll;
      SingleJobs(front, fallback);
      LastJob(raws, fallback);
    }
  }

  lemma LastJob(raws: seq<Raw>, fallback: int)
    requires raws != []
    ensures MaterializedAll(Singles(raws), fallback)
         == MaterializedAll(Singles(raws[..|raws| - 1]), fallback) + [JobOf(raws[|raws| - 1], fallback)]
  {
    var front, last := raws[..|raws| - 1], raws[|raws| - 1];
    SingleJob(last, fallback);
    var groups := Singles(raws);
    assert groups == Singles(front) + [NewGroup(last)];
    hide Materialized, JobOf, Singles, NewGroup;
    assert groups[..|groups| - 1] == Singles(front);
  }

  /** Reports apart from one another become one job each, in their order. */
  lemma ApartJobs(raws: seq<Raw>, fallback: int)
    requires Apart(raws)
    ensures var jobs := MaterializedAll(DedupedGroups(raws), fallback);
      |jobs| == |raws| && forall i :: 0 <= i < |raws| ==> jobs[i] == JobOf(raws[i], fallback)
  {
    GroupedAlone(raws);
    PassStays(raws, SharedIdentity);
    PassStays(raws, NearDuplicate);
    PassStays(raws, RemoteVersusCity);
    hide Merged, Grouped, JobOf, Apart;
    SingleJobs(raws, fallback);
  }

  // ----------------------------------------------------------------------------------------
  // Titles of one letter
  // ----------------------------------------------------------------------------------------

  lemma LetterTokens(c: char)
    requires 'a' <= c <= 'z'
    ensures Tokens([c]) == {[c]}
  {
    assert [c][1..] == [] && [] + [Lower(c)] == [c];
    assert TokensFrom([], [c]) == {[c]};
  }

  lemma LettersDiffer(c: char, d: char, percent: nat)
    requires 'a' <= c <= 'z' && 'a' <= d <= 'z' && c != d && percent > 0
    ensures !TitlesAlike([c], [d], percent)
  {
    LetterTokens(c);
    LetterTokens(d);
    assert [c][0] != [d][0];
    assert {[c]} * {[d]} == {};
  }
}
