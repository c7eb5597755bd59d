/** What a board address asks for, said of its parameters (lib/params.ts). */
module UrlChoices {
  import opened Options
  import opened Decimal
  import opened UrlCodec
  import opened UrlParams
  import L = UrlLaws

  /** A parameter given as `text`, or repeated with `text` first. */
  predicate Leads(raw: Raw, key: string, text: string) {
    key in raw && (raw[key] == One(text) || (raw[key].Many? && raw[key].all != [] && raw[key].all[0] == text))
  }

  /** A parameter whose lists, taken together, are of at most 200 characters and hold the word. */
  predicate Says(raw: Raw, key: string, w: string) {
    key in raw
    && var text := if raw[key].One? then raw[key].s else Join(raw[key].all, ',');
       text != "" && |text| <= 200 && w in Split(text, ',')
  }

  /**
   * What a tab offers under a filter: Design's types are split in two sides, only Design has senior roles, and only
   * Engineering has seasons.
   */
  predicate Offers(engineering: bool, freelance: bool, filter: string, w: string) {
    if filter == "type" then
      if engineering then w in {"full-time", "internship"}
      else if freelance then w in {"freelance", "contract"} else w in {"full-time", "part-time", "internship"}
    else if filter == "pay" then w in {"paid", "unpaid", "unknown"}
    else if filter == "mode" then w in {"remote", "hybrid", "onsite"}
    else if filter == "season" then engineering && w in {"summer", "fall", "winter", "spring"}
    else filter == "level" && (w in {"entry", "junior", "mid"} || (!engineering && w == "senior+"))
  }

  function GroupOf(filter: string): Group {
    if filter == "type" then Type else if filter == "pay" then Pay else if filter == "mode" then Mode
    else if filter == "season" then Season else Level
  }

  const FILTERS := {"type", "pay", "mode", "season", "level"}

  lemma NameOfGroup(filter: string)
    requires filter in FILTERS
    ensures Name(GroupOf(filter)) == filter
  {
  }

  lemma VocabOffers(tab: Tab, basis: Option<Basis>, filter: string, w: string)
    requires filter in FILTERS && (tab.Engineering? <==> basis.None?)
    ensures w in Vocab(tab, GroupOf(filter), basis) <==> Offers(tab.Engineering?, basis == Some(Freelance), filter, w)
  {
  }

  lemma TabIsRead(number: string -> Option<int>, raw: Raw)
    ensures var q := ParseParams(number, raw);
      && (q.tab.Engineering? <==> Leads(raw, "tab", "engineering"))
      && (q.basis.None? <==> q.tab.Engineering?)
      && (q.basis == Some(Freelance) <==> q.tab.Design? && Leads(raw, "basis", "freelance"))
  {
    L.ParsedFields(number, raw, Type);
    hide ParseParams;
  }

  /** A value is chosen exactly when the address says it and the tab, on the side the address is on, offers it. */
  lemma ChosenIff(number: string -> Option<int>, raw: Raw, filter: string, w: string)
    requires filter in FILTERS
    ensures w in Of(ParseParams(number, raw).chosen, GroupOf(filter))
       <==> Says(raw, filter, w) && Offers(Leads(raw, "tab", "engineering"), Leads(raw, "basis", "freelance"), filter, w)
  {
    var q, g := ParseParams(number, raw), GroupOf(filter);
    L.ParsedFields(number, raw, g);
    TabIsRead(number, raw);
    VocabOffers(q.tab, q.basis, filter, w);
    NameOfGroup(filter);
    var text := Text(Collect(Given(raw, filter)));
    if text.Some? {
      L.FilterMembers(Vocab(q.tab, g, q.basis), Split(text.value, ','), w);
    }
    hide ParseParams, Vocab, Filter, Split, Join, GroupOf, Name, Leads;
    SidesMatter(q.tab.Engineering?, Leads(raw, "basis", "freelance"), filter, w);
  }

  /** Engineering has no sides. */
  lemma SidesMatter(engineering: bool, freelance: bool, filter: string, w: string)
    ensures Offers(engineering, !engineering && freelance, filter, w) <==> Offers(engineering, freelance, filter, w)
  {
  }

  /** The first of the words that is one of the four windows. */
  predicate IsFirstWindow(words: seq<string>, i: int) {
    && 0 <= i < |words| && words[i] in {"hour", "day", "week", "month"}
    && forall j :: 0 <= j < i ==> words[j] !in {"hour", "day", "week", "month"}
  }

  lemma {:induction false} FirstWindow(words: seq<string>, i: nat)
    requires IsFirstWindow(words, i)
    ensures FirstIn(words, Windows()) == Some(words[i])
  {
    if i > 0 {
      FirstWindow(words[1..], i - 1);
    }
  }

  lemma {:induction false} NoWindow(words: seq<string>) returns (i: int)
    ensures FirstIn(words, Windows()).Some? ==> IsFirstWindow(words, i)
  {
    i := 0;
    if words != [] && words[0] !in Windows() {
      var j := NoWindow(words[1..]);
      i := j + 1;
    }
  }

  /** The window is the first of those that the address says. */
  lemma PostedIff(number: string -> Option<int>, raw: Raw, t: string)
    requires Leads(raw, "posted", t)
    ensures var q, words := ParseParams(number, raw), Split(t, ',');
      && (q.posted.Some? <==> |t| <= 200 && exists i :: IsFirstWindow(words, i))
      && forall i :: |t| <= 200 && IsFirstWindow(words, i) ==> q.posted == Some(words[i])
  {
    L.ParsedFields(number, raw, Type);
    var words := Split(t, ',');
    var k := NoWindow(words);
    forall i | IsFirstWindow(words, i)
      ensures FirstIn(words, Windows()) == Some(words[i])
    {
      FirstWindow(words, i);
    }
    hide ParseParams, FirstIn, IsFirstWindow;
  }

  lemma SlugIs(s: string)
    ensures IsSlug(s) <==> 1 <= |s| <= 32 && forall c :: c in s ==> c as int == 45 || 48 <= c as int <= 57 || 97 <= c as int <= 122
  {
    if IsSlug(s) {
      forall c | c in s ensures IsSlugChar(c) {}
    } else if 1 <= |s| <= 32 {
      var i :| 0 <= i < |s| && !IsSlugChar(s[i]);
      assert s[i] in s;
    }
  }

  /** What the other parameters are read as. */
  lemma SinglesAreRead(number: string -> Option<int>, raw: Raw, s: string, n: int)
    ensures var q := ParseParams(number, raw);
      && (q.badge == Some(s) <==> Leads(raw, "badge", s) && 1 <= |s| <= 32
                                  && forall c :: c in s ==> c as int == 45 || 48 <= c as int <= 57 || 97 <= c as int <= 122)
      && (q.job == Some(n) <==> 1 <= n < 0x20_0000_0000_0000 && exists t :: Leads(raw, "job", t) && t != "" && number(t) == Some(n))
      && (n != 1 ==> (q.page == n <==> 1 <= n <= 10000 && exists t :: Leads(raw, "page", t) && number(t) == Some(n)))
  {
    SlugIs(s);
    assert First(Given(raw, "badge")) == Some(s) <==> Leads(raw, "badge", s);
    forall t ensures First(Given(raw, "job")) == Some(t) <==> Leads(raw, "job", t) {}
    forall t ensures First(Given(raw, "page")) == Some(t) <==> Leads(raw, "page", t) {}
    hide Leads, First, Given, IsSlug;
  }

  /** The bare path is the address of exactly the first page of Design's employed side, with no filter and no job open. */
  lemma BareAddressIff(p: Params)
    requires L.IsParsed(p) && AreAscii(Present(Entries(p)))
    ensures Href(p) == "/" <==>
      p.tab.Design? && p.basis == Some(Employed) && p.page == 1 && p.job.None? && !HasFilters(p) && !p.unfiltered
  {
    L.QueryNotEmpty(Present(Entries(p)));
    NothingPresent(Entries(p));
    NothingIsWritten(p);
    hide QueryText, Present, Entries, HasFilters, L.IsParsed;
  }

  lemma NothingIsWritten(p: Params)
    requires L.IsParsed(p)
    ensures (forall i :: 0 <= i < |Entries(p)| ==> Entries(p)[i].value.None?)
       <==> p.tab.Design? && p.basis == Some(Employed) && p.page == 1 && p.job.None? && !HasFilters(p) && !p.unfiltered
  {
    var e := Entries(p);
    assert |e| == 12;
    ChosenIsWritten(p, e);
    FiltersAre(p);
    hide Entries, Written, Join, HasFilters;
    assert p.basis.Some? ==> p.basis.value == Employed || p.basis.value == Freelance;
    if forall i :: 0 <= i < |e| ==> e[i].value.None? {
      assert e[0].value.None? && e[1].value.None? && e[2].value.None? && e[3].value.None? && e[9].value.None? && e[10].value.None?;
      assert e[4].value.None? && e[5].value.None? && e[6].value.None? && e[7].value.None? && e[8].value.None? && e[11].value.None?;
    } else {
      var i :| 0 <= i < |e| && e[i].value.Some?;
      assert i in {0, 1, 2, 3, 4, 5, 6, 7, 8, 9, 10, 11};
    }
  }

  lemma FiltersAre(p: Params)
    ensures HasFilters(p) <==>
      || p.badge.Some? || p.posted.Some? || p.chosen.types != [] || p.chosen.pay != [] || p.chosen.mode != []
      || p.chosen.season != [] || p.chosen.level != []
  {
    assert Type in Groups() && Pay in Groups() && Mode in Groups() && Season in Groups() && Level in Groups();
  }

  lemma ChosenIsWritten(p: Params, e: seq<Entry>)
    requires L.IsParsed(p) && e == Entries(p)
    ensures |e| == 12 && (e[0].value.None? <==> p.tab.Design?) && (e[1].value.None? <==> p.basis != Some(Freelance))
    ensures (e[2].value.None? <==> !p.unfiltered) && e[3].value == p.posted && e[9].value == p.badge
    ensures (e[4].value.None? <==> p.chosen.types == []) && (e[5].value.None? <==> p.chosen.pay == [])
    ensures (e[6].value.None? <==> p.chosen.mode == []) && (e[7].value.None? <==> p.chosen.season == [])
    ensures e[8].value.None? <==> p.chosen.level == []
    ensures (e[10].value.None? <==> p.job.None?) && (e[11].value.None? <==> p.page == 1)
  {
    hide HasFilters;
  }

  /** Replacing a filter, as its last value is taken away too, asks for what it leaves and not for the saved defaults. */
  lemma ReplacingIsExplicit(number: string -> Option<int>, p: Params, g: Group, words: seq<string>)
    ensures var q := WithFilter(number, p, g, words); q.unfiltered <==> !HasFilters(q)
  {
    var raw := ToRaw(p)[Name(g) := One(Join(words, ','))];
    assert g in Groups() && Name(g) in raw;
    assert IsExplicit(raw);
    hide IsExplicit, ToRaw, Picked, Pick, Whole;
  }

  lemma {:induction false} NothingPresent(entries: seq<Entry>)
    ensures Present(entries) == [] <==> forall i :: 0 <= i < |entries| ==> entries[i].value.None?
  {
    if entries != [] {
      NothingPresent(entries[1..]);
      assert forall i :: 1 <= i < |entries| ==> entries[i] == entries[1..][i - 1];
    }
  }
}
