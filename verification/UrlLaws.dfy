/** The URL is the state: what is written is read back, addresses are canonical, and toggling twice restores. */
module UrlLaws {
  import opened Options
  import opened Decimal
  import opened UrlCodec
  import opened UrlParams

  // ----------------------------------------------------------------------------------------
  // Words of the vocabularies
  // ----------------------------------------------------------------------------------------

  predicate IsWord(w: string) {
    1 <= |w| <= 10 && IsAscii(w) && Lacks(w, ',')
  }

  predicate AreWords(words: seq<string>) {
    forall i :: 0 <= i < |words| ==> IsWord(words[i])
  }

  lemma TypesAreWords()
    ensures IsWord("full-time") && IsWord("part-time") && IsWord("internship") && IsWord("freelance") && IsWord("contract")
  {
  }

  lemma ModesAreWords()
    ensures IsWord("paid") && IsWord("unpaid") && IsWord("unknown") && IsWord("remote") && IsWord("hybrid") && IsWord("onsite")
  {
  }

  lemma SeasonsAreWords()
    ensures IsWord("summer") && IsWord("fall") && IsWord("winter") && IsWord("spring")
    ensures IsWord("entry") && IsWord("junior") && IsWord("mid") && IsWord("senior+")
  {
  }

  lemma VocabIsWords(tab: Tab, g: Group, basis: Option<Basis>)
    ensures AreWords(Vocab(tab, g, basis)) && |Vocab(tab, g, basis)| <= 4
  {
    TypesAreWords();
    ModesAreWords();
    SeasonsAreWords();
    hide IsWord;
  }

  lemma WindowsAreWords()
    ensures AreWords(Windows())
  {
    assert IsWord("hour") && IsWord("day") && IsWord("week") && IsWord("month");
  }

  lemma {:induction false} FilterMembers(allowed: seq<string>, chosen: seq<string>, w: string)
    ensures w in Filter(allowed, chosen) <==> w in allowed && w in chosen
    ensures |Filter(allowed, chosen)| <= |allowed|
    decreases |allowed|
  {
    if allowed != [] {
      FilterMembers(allowed[1..], chosen, w);
      assert w in allowed <==> w == allowed[0] || w in allowed[1..];
    }
  }

  lemma {:induction false} FilterAgrees(allowed: seq<string>, a: seq<string>, b: seq<string>)
    requires forall w :: w in allowed ==> (w in a <==> w in b)
    ensures Filter(allowed, a) == Filter(allowed, b)
    decreases |allowed|
  {
    if allowed != [] {
      assert forall w :: w in allowed[1..] ==> w in allowed;
      FilterAgrees(allowed[1..], a, b);
    }
  }

  lemma FilterIsIdempotent(allowed: seq<string>, chosen: seq<string>)
    ensures Filter(allowed, Filter(allowed, chosen)) == Filter(allowed, chosen)
  {
    forall w | w in allowed
      ensures w in Filter(allowed, chosen) <==> w in chosen
    {
      FilterMembers(allowed, chosen, w);
    }
    FilterAgrees(allowed, Filter(allowed, chosen), chosen);
  }

  lemma FilterKeepsWords(allowed: seq<string>, chosen: seq<string>)
    requires AreWords(allowed)
    ensures AreWords(Filter(allowed, chosen)) && |Filter(allowed, chosen)| <= |allowed|
  {
    var out := Filter(allowed, chosen);
    FilterMembers(allowed, chosen, "");
    forall i | 0 <= i < |out|
      ensures IsWord(out[i])
    {
      FilterMembers(allowed, chosen, out[i]);
      assert out[i] in out;
    }
  }

  lemma {:induction false} JoinFacts(words: seq<string>)
    requires AreWords(words)
    ensures |Join(words, ',')| <= 11 * |words| && IsAscii(Join(words, ','))
    ensures words != [] ==> Join(words, ',') != []
    decreases |words|
  {
    if |words| > 1 {
      JoinFacts(words[1..]);
    }
  }

  lemma {:induction false} FilterNothing(allowed: seq<string>)
    ensures Filter(allowed, []) == []
  {
    if allowed != [] {
      FilterNothing(allowed[1..]);
    }
  }

  /** What a list's joined text says: nothing when it is empty or too long, else its parts between the commas. */
  function Said(words: seq<string>): seq<string> {
    var text := Join(words, ',');
    if text == "" || |text| > 200 then [] else Split(text, ',')
  }

  lemma PickSaid(allowed: seq<string>, words: seq<string>)
    ensures PickAll(Text(Some(Join(words, ','))), allowed) == Filter(allowed, Said(words))
  {
    FilterNothing(allowed);
  }

  /** Values without commas say themselves. */
  lemma PlainWordsAreSaid(allowed: seq<string>, words: seq<string>)
    requires AllLack(words, ',') && |Join(words, ',')| <= 200 && "" !in allowed
    ensures Filter(allowed, Said(words)) == Filter(allowed, words)
  {
    if words != [] {
      SplitJoined(words, ',');
      if Join(words, ',') == "" {
        FilterAgrees(allowed, words, []);
      }
    }
  }

  /** A comma list of words is read as the vocabulary's own list of them. */
  lemma PickJoined(allowed: seq<string>, words: seq<string>)
    requires AreWords(words) && |words| <= 5
    ensures PickAll(Text(Some(Join(words, ','))), allowed) == Filter(allowed, words)
  {
    JoinFacts(words);
    if words == [] {
      FilterNothing(allowed);
    } else {
      SplitJoined(words, ',');
    }
  }

  lemma VocabLacksEmpty(tab: Tab, g: Group, basis: Option<Basis>)
    ensures "" !in Vocab(tab, g, basis)
  {
    VocabIsWords(tab, g, basis);
    hide Vocab;
  }

  lemma PickText(allowed: seq<string>, text: string, members: seq<string>)
    requires |text| <= 200 && "" !in allowed && forall w :: w in Split(text, ',') <==> w in members
    ensures PickAll(Text(Some(text)), allowed) == Filter(allowed, members)
  {
    if text == "" {
      FilterNothing(allowed);
      assert Split(text, ',') == [""];
      FilterAgrees(allowed, members, []);
    } else {
      FilterAgrees(allowed, Split(text, ','), members);
    }
  }

  /**
   * One address for one set: a comma list, and repeated parameters, which may be comma lists themselves, with the same
   * members in any order and however often each is repeated, are one state and are written as one address.
   */
  lemma ListsAndRepeatsAgree(number: string -> Option<int>, raw: Raw, g: Group, list: string, repeated: seq<string>)
    requires ReadsDecimals(number) && repeated != [] && |list| <= 200 && |Join(repeated, ',')| <= 200
    requires forall w :: w in Split(list, ',') <==> w in Members(repeated, ',')
    ensures var p, q := ParseParams(number, raw[Name(g) := One(list)]), ParseParams(number, raw[Name(g) := Many(repeated)]);
      p == q && AreAscii(Present(Entries(p))) && Href(p) == Href(q)
  {
    var a, b := raw[Name(g) := One(list)], raw[Name(g) := Many(repeated)];
    AddressReadsBack(number, a);
    hide ReadsDecimals, Href, Entries, AreAscii, Present, Members, Join;
    SplitJoinedLists(repeated, ',');
    SameElsewhere(raw, g, One(list), Many(repeated));
    hide Split;
    forall tab, basis, h
      ensures Picked(a, tab, basis, h) == Picked(b, tab, basis, h)
    {
      SamePicked(raw, g, list, repeated, tab, basis, h);
    }
    SameParsed(number, a, b);
  }

  lemma SamePicked(raw: Raw, g: Group, list: string, repeated: seq<string>, tab: Tab, basis: Option<Basis>, h: Group)
    requires |list| <= 200 && |Join(repeated, ',')| <= 200
    requires forall w :: w in Split(list, ',') <==> w in Split(Join(repeated, ','), ',')
    ensures Picked(raw[Name(g) := One(list)], tab, basis, h) == Picked(raw[Name(g) := Many(repeated)], tab, basis, h)
  {
    if g == h {
      VocabLacksEmpty(tab, h, basis);
      PickText(Vocab(tab, h, basis), list, Split(list, ','));
      PickText(Vocab(tab, h, basis), Join(repeated, ','), Split(list, ','));
    } else {
      NamesDiffer(g, h);
    }
  }

  /** Two values of one group leave every other parameter alone, and whether the filters are explicit. */
  lemma SameElsewhere(raw: Raw, g: Group, v: Value, w: Value)
    ensures var a, b := raw[Name(g) := v], raw[Name(g) := w];
      && Given(a, "tab") == Given(b, "tab") && Given(a, "basis") == Given(b, "basis") && Given(a, "badge") == Given(b, "badge")
      && Given(a, "job") == Given(b, "job") && Given(a, "page") == Given(b, "page") && Given(a, "posted") == Given(b, "posted")
      && (IsExplicit(a) <==> IsExplicit(b))
  {
    NamesDiffer(g, g);
    assert g in Groups();
  }

  lemma SameParsed(number: string -> Option<int>, a: Raw, b: Raw)
    requires Given(a, "tab") == Given(b, "tab") && Given(a, "basis") == Given(b, "basis") && Given(a, "badge") == Given(b, "badge")
    requires Given(a, "job") == Given(b, "job") && Given(a, "page") == Given(b, "page") && Given(a, "posted") == Given(b, "posted")
    requires IsExplicit(a) <==> IsExplicit(b)
    requires forall tab, basis, h :: Picked(a, tab, basis, h) == Picked(b, tab, basis, h)
    ensures ParseParams(number, a) == ParseParams(number, b)
  {
    hide IsExplicit, Picked, Pick, IsSlug, HasFilters;
  }

  // ----------------------------------------------------------------------------------------
  // Parsed states
  // ----------------------------------------------------------------------------------------

  predicate IsSelection(words: seq<string>, allowed: seq<string>) {
    Filter(allowed, words) == words
  }

  /** What parsing yields, whatever it is given. */
  predicate IsParsed(p: Params) {
    && (p.tab.Engineering? <==> p.basis.None?)
    && (p.posted.Some? ==> p.posted.value in Windows())
    && (forall g :: g in Groups() ==> IsSelection(Of(p.chosen, g), Vocab(p.tab, g, p.basis)))
    && (p.badge.Some? ==> IsSlug(p.badge.value))
    && (p.job.Some? ==> 1 <= p.job.value <= MAX_SAFE_INTEGER)
    && 1 <= p.page <= 10000
    && (p.unfiltered ==> !HasFilters(p))
  }

  lemma PickAllSelects(raw: Option<string>, allowed: seq<string>)
    ensures IsSelection(PickAll(raw, allowed), allowed)
  {
    if raw.Some? && raw.value != "" {
      FilterIsIdempotent(allowed, Split(raw.value, ','));
    } else {
      FilterNothing(allowed);
    }
  }

  lemma {:induction false} FirstInIsAllowed(words: seq<string>, allowed: seq<string>)
    ensures FirstIn(words, allowed).Some? ==> FirstIn(words, allowed).value in allowed
  {
    if words != [] {
      FirstInIsAllowed(words[1..], allowed);
    }
  }

  lemma PostedIsOffered(raw: Option<string>)
    ensures Pick(raw, Windows()).Some? ==> Pick(raw, Windows()).value in Windows()
  {
    if raw.Some? {
      FirstInIsAllowed(Split(raw.value, ','), Windows());
    }
  }

  lemma ParsingYieldsParsed(number: string -> Option<int>, raw: Raw)
    ensures IsParsed(ParseParams(number, raw))
  {
    var p := ParseParams(number, raw);
    PostedIsOffered(Text(First(Given(raw, "posted"))));
    forall g | g in Groups()
      ensures IsSelection(Of(p.chosen, g), Vocab(p.tab, g, p.basis))
    {
      ParsedFields(number, raw, g);
      PickAllSelects(Text(Collect(Given(raw, Name(g)))), Vocab(p.tab, g, p.basis));
    }
    NoFiltersKept(p.(unfiltered := false), p);
    hide IsSelection, Vocab, Picked, Pick, IsSlug, HasFilters, IsExplicit, Windows;
  }

  lemma NoFiltersKept(p: Params, q: Params)
    requires q.posted == p.posted && q.badge == p.badge && q.chosen == p.chosen
    ensures HasFilters(p) <==> HasFilters(q)
  {
  }

  // ----------------------------------------------------------------------------------------
  // What is written is read back
  // ----------------------------------------------------------------------------------------

  /** `Number` reads what `String` writes. */
  ghost predicate ReadsDecimals(number: string -> Option<int>) {
    forall n: nat :: n <= MAX_SAFE_INTEGER ==> number(Unsigned(n)) == Some(n)
  }

  lemma {:induction false} UnsignedIsAscii(n: nat)
    ensures IsAscii(Unsigned(n))
  {
    if n >= 10 {
      UnsignedIsAscii(n / 10);
    }
  }

  predicate IsAsciiEntry(e: Entry) {
    IsAscii(e.key) && (e.value.Some? ==> IsAscii(e.value.value))
  }

  lemma {:induction false} PresentIsAscii(entries: seq<Entry>)
    requires forall i :: 0 <= i < |entries| ==> IsAsciiEntry(entries[i])
    ensures AreAscii(Present(entries))
  {
    if entries != [] {
      PresentIsAscii(entries[1..]);
    }
  }

  lemma SelectionFacts(p: Params, g: Group)
    requires IsParsed(p)
    ensures var words := Of(p.chosen, g);
      AreWords(words) && |words| <= 4 && IsSelection(words, Vocab(p.tab, g, p.basis)) && IsAscii(Join(words, ','))
  {
    var words := Of(p.chosen, g);
    assert g in Groups();
    VocabIsWords(p.tab, g, p.basis);
    FilterKeepsWords(Vocab(p.tab, g, p.basis), words);
    JoinFacts(words);
  }

  lemma KeysAreAscii()
    ensures IsAscii("tab") && IsAscii("basis") && IsAscii("filters") && IsAscii("posted") && IsAscii("badge")
    ensures IsAscii("job") && IsAscii("page") && IsAscii("all") && IsAscii("engineering") && IsAscii("freelance")
    ensures IsAscii("type") && IsAscii("pay") && IsAscii("mode") && IsAscii("season") && IsAscii("level")
  {
  }

  lemma SlugIsAscii(s: string)
    requires IsSlug(s)
    ensures IsAscii(s)
  {
  }

  /** Every address the board writes is ASCII. */
  lemma EntriesAreAscii(p: Params)
    requires IsParsed(p)
    ensures AreAscii(Present(Entries(p)))
  {
    hide Entries, IsAsciiEntry, IsParsed;
    HeadIsAscii(p);
    GroupsAreAscii(p);
    TailIsAscii(p);
    PresentIsAscii(Entries(p));
  }

  lemma HeadIsAscii(p: Params)
    requires IsParsed(p)
    ensures |Entries(p)| == 12 && forall i :: 0 <= i < 4 ==> IsAsciiEntry(Entries(p)[i])
  {
    KeysAreAscii();
    SinglesAreAscii(p);
    hide IsAscii, HasFilters, IsParsed, Listed, Written, Name, Of;
  }

  lemma GroupsAreAscii(p: Params)
    requires IsParsed(p)
    ensures forall i :: 4 <= i < 9 ==> IsAsciiEntry(Entries(p)[i])
  {
    KeysAreAscii();
    GroupIsAscii(p, Type);
    GroupIsAscii(p, Pay);
    GroupIsAscii(p, Mode);
    GroupIsAscii(p, Season);
    GroupIsAscii(p, Level);
    hide IsAscii, HasFilters, IsParsed, Listed, Written;
  }

  lemma TailIsAscii(p: Params)
    requires IsParsed(p)
    ensures forall i :: 9 <= i < 12 ==> IsAsciiEntry(Entries(p)[i])
  {
    KeysAreAscii();
    SinglesAreAscii(p);
    hide IsAscii, HasFilters, IsParsed, Listed, Written, Name, Of;
  }

  lemma GroupIsAscii(p: Params, g: Group)
    requires IsParsed(p)
    ensures Listed(Of(p.chosen, g)).Some? ==> IsAscii(Listed(Of(p.chosen, g)).value)
  {
    SelectionFacts(p, g);
  }

  lemma SinglesAreAscii(p: Params)
    requires IsParsed(p)
    ensures p.badge.Some? ==> IsAscii(p.badge.value)
    ensures p.posted.Some? ==> IsAscii(p.posted.value)
    ensures (p.job.Some? ==> IsAscii(Written(p.job.value))) && IsAscii(Written(p.page))
  {
    if p.badge.Some? {
      SlugIsAscii(p.badge.value);
    }
    if p.job.Some? {
      UnsignedIsAscii(p.job.value);
    }
    UnsignedIsAscii(p.page);
    if p.posted.Some? {
      WindowsAreWords();
      var i :| 0 <= i < |Windows()| && Windows()[i] == p.posted.value;
      assert IsWord(p.posted.value);
    }
  }

  lemma KeysAreDistinct(p: Params)
    ensures KeysDistinct(Entries(p))
  {
    assert |"tab"| == 3 && |"basis"| == 5 && |"filters"| == 7 && |"posted"| == 6 && |"type"| == 4 && |"pay"| == 3;
    assert |"mode"| == 4 && |"season"| == 6 && |"level"| == 5 && |"badge"| == 5 && |"job"| == 3 && |"page"| == 4;
    assert "tab"[0] == 't' && "type"[0] == 't' && "mode"[0] == 'm' && "page"[0] == 'p' && "pay"[0] == 'p' && "job"[0] == 'j';
    assert "basis"[2] == 's' && "badge"[2] == 'd' && "level"[0] == 'l' && "posted"[0] == 'p' && "season"[0] == 's';
  }

  lemma QueryNotEmpty(pairs: seq<Pair>)
    requires AreAscii(pairs)
    ensures QueryText(pairs) == "" <==> pairs == []
  {
    if pairs != [] {
      PairReadsBack(pairs[0]);
    }
  }

  /** Visiting an address gives the parameters that were written into it. */
  lemma VisitReadsBack(p: Params)
    requires AreAscii(Present(Entries(p)))
    ensures Visited(Href(p)) == RawOf(Present(Entries(p)))
  {
    var pairs := Present(Entries(p));
    QueryReadsBack(pairs);
    QueryNotEmpty(pairs);
    if pairs != [] {
      assert Href(p)[..2] == "/?" && Href(p)[2..] == QueryText(pairs);
    }
  }

  lemma GivenEntry(p: Params, key: string)
    requires AreAscii(Present(Entries(p)))
    ensures Given(Visited(Href(p)), key) == AsOne(ValueOf(Entries(p), key))
  {
    VisitReadsBack(p);
    KeysAreDistinct(p);
    GivenBack(Entries(p), key);
  }

  lemma {:induction false} EntryAt(entries: seq<Entry>, i: nat)
    requires KeysDistinct(entries) && i < |entries|
    ensures ValueOf(entries, entries[i].key) == entries[i].value
  {
    if i > 0 {
      assert entries[1..][i - 1] == entries[i] && entries[0].key != entries[i].key;
      EntryAt(entries[1..], i - 1);
    }
  }

  lemma GivenAt(p: Params, i: nat)
    requires AreAscii(Present(Entries(p))) && i < |Entries(p)|
    ensures Given(Visited(Href(p)), Entries(p)[i].key) == AsOne(Entries(p)[i].value)
  {
    KeysAreDistinct(p);
    EntryAt(Entries(p), i);
    GivenEntry(p, Entries(p)[i].key);
  }

  lemma ReadGroup(p: Params, raw: Raw, g: Group)
    requires IsParsed(p) && Given(raw, Name(g)) == AsOne(Listed(Of(p.chosen, g)))
    ensures Picked(raw, p.tab, p.basis, g) == Of(p.chosen, g)
    ensures Name(g) in raw <==> Of(p.chosen, g) != []
  {
    SelectionFacts(p, g);
    var words := Of(p.chosen, g);
    if words != [] {
      PickJoined(Vocab(p.tab, g, p.basis), words);
    }
  }

  lemma ReadPosted(p: Params, raw: Raw)
    requires IsParsed(p) && Given(raw, "posted") == AsOne(p.posted)
    ensures Pick(Text(First(Given(raw, "posted"))), Windows()) == p.posted
  {
    if p.posted.Some? {
      WindowsAreWords();
      var w := p.posted.value;
      var i :| 0 <= i < |Windows()| && Windows()[i] == w;
      assert IsWord(w);
      SplitJoined([w], ',');
      assert Join([w], ',') == w;
    }
  }

  /** A raw input that gives each parameter of `p` as `p` writes it. */
  predicate Writes(p: Params, raw: Raw) {
    && Given(raw, "tab") == AsOne(Entries(p)[0].value) && Given(raw, "basis") == AsOne(Entries(p)[1].value)
    && Given(raw, "filters") == AsOne(Entries(p)[2].value) && Given(raw, "posted") == AsOne(p.posted)
    && Given(raw, "badge") == AsOne(p.badge)
    && Given(raw, "job") == AsOne(Entries(p)[10].value) && Given(raw, "page") == AsOne(Entries(p)[11].value)
    && (forall g :: g in Groups() ==> Given(raw, Name(g)) == AsOne(Listed(Of(p.chosen, g))))
  }

  lemma VisitWrites(p: Params)
    requires AreAscii(Present(Entries(p)))
    ensures Writes(p, Visited(Href(p)))
  {
    hide Visited, Href, HasFilters, Written, Listed, AreAscii, Present;
    GivenAt(p, 0); GivenAt(p, 1); GivenAt(p, 2); GivenAt(p, 3); GivenAt(p, 4); GivenAt(p, 5);
    GivenAt(p, 6); GivenAt(p, 7); GivenAt(p, 8); GivenAt(p, 9); GivenAt(p, 10); GivenAt(p, 11);
  }

  lemma ReadNumbers(number: string -> Option<int>, p: Params, raw: Raw)
    requires ReadsDecimals(number) && IsParsed(p) && Writes(p, raw)
    ensures var job, page := First(Given(raw, "job")), Whole(number, First(Given(raw, "page")), 10000);
      && (if job == Some("") then None else Whole(number, job, MAX_SAFE_INTEGER)) == p.job
      && (if page.Some? then page.value else 1) == p.page
  {
    if p.job.Some? {
      assert number(Unsigned(p.job.value)) == Some(p.job.value);
    }
    if p.page > 1 {
      assert number(Unsigned(p.page)) == Some(p.page);
    }
  }

  lemma ReadTab(p: Params, raw: Raw)
    requires IsParsed(p) && Writes(p, raw)
    ensures TabOf(First(Given(raw, "tab"))) == p.tab && BasisOf(p.tab, First(Given(raw, "basis"))) == p.basis
  {
    if p.basis.Some? {
      match p.basis.value
      case Employed =>
      case Freelance =>
    }
  }

  lemma ReadExplicit(p: Params, raw: Raw)
    requires IsParsed(p) && Writes(p, raw)
    ensures IsExplicit(raw) <==> p.unfiltered || HasFilters(p)
  {
    forall g | g in Groups()
      ensures Name(g) in raw <==> Of(p.chosen, g) != []
    {
      ReadGroup(p, raw, g);
    }
    assert First(Given(raw, "filters")) == Some("all") <==> p.unfiltered && !HasFilters(p);
  }

  lemma WrittenIsRead(number: string -> Option<int>, p: Params, raw: Raw)
    requires ReadsDecimals(number) && IsParsed(p) && Writes(p, raw)
    ensures ParseParams(number, raw) == p
  {
    ReadTab(p, raw);
    ReadPosted(p, raw);
    ReadNumbers(number, p, raw);
    ReadExplicit(p, raw);
    assert Type in Groups() && Pay in Groups() && Mode in Groups() && Season in Groups() && Level in Groups();
    ReadGroup(p, raw, Type);
    ReadGroup(p, raw, Pay);
    ReadGroup(p, raw, Mode);
    ReadGroup(p, raw, Season);
    ReadGroup(p, raw, Level);
    var q := ParseParams(number, raw);
    assert q.chosen == p.chosen && q.badge == p.badge && q.posted == p.posted;
    NoFiltersKept(p, q);
  }

  /** For every input, parsing the address written for its state gives the state back. */
  lemma AddressReadsBack(number: string -> Option<int>, raw: Raw)
    requires ReadsDecimals(number)
    ensures var p := ParseParams(number, raw);
      AreAscii(Present(Entries(p))) && ParseParams(number, Visited(Href(p))) == p
  {
    var p := ParseParams(number, raw);
    ParsingYieldsParsed(number, raw);
    EntriesAreAscii(p);
    VisitWrites(p);
    WrittenIsRead(number, p, Visited(Href(p)));
  }

  // ----------------------------------------------------------------------------------------
  // Toggling
  // ----------------------------------------------------------------------------------------

  lemma RawEntriesDistinct(p: Params)
    ensures KeysDistinct(RawEntries(p))
  {
    assert |"tab"| == 3 && |"basis"| == 5 && |"filters"| == 7 && |"posted"| == 6 && |"type"| == 4 && |"pay"| == 3;
    assert |"mode"| == 4 && |"season"| == 6 && |"level"| == 5 && |"badge"| == 5;
    assert "tab"[0] == 't' && "type"[0] == 't' && "mode"[0] == 'm' && "pay"[0] == 'p';
    assert "basis"[2] == 's' && "badge"[2] == 'd' && "level"[0] == 'l' && "posted"[0] == 'p' && "season"[0] == 's';
  }

  lemma RawAt(p: Params, i: nat)
    requires i < |RawEntries(p)|
    ensures Given(ToRaw(p), RawEntries(p)[i].key) == AsOne(RawEntries(p)[i].value)
  {
    RawEntriesDistinct(p);
    EntryAt(RawEntries(p), i);
    GivenBack(RawEntries(p), RawEntries(p)[i].key);
  }

  lemma RawFacts(p: Params)
    ensures var raw := ToRaw(p);
      && Given(raw, "tab") == Some(One(TabName(p.tab)))
      && Given(raw, "basis") == AsOne(if p.basis.Some? then Some(BasisName(p.basis.value)) else None)
      && Given(raw, "posted") == AsOne(p.posted) && Given(raw, "badge") == AsOne(p.badge)
      && (forall g :: g in Groups() ==> Given(raw, Name(g)) == AsOne(Listed(Of(p.chosen, g))))
  {
    hide ToRaw, Listed, TabName, BasisName;
    RawAt(p, 0); RawAt(p, 1); RawAt(p, 2); RawAt(p, 3); RawAt(p, 4); RawAt(p, 5); RawAt(p, 6); RawAt(p, 7); RawAt(p, 8);
  }

  /** The names of the groups are theirs alone. */
  lemma NamesDiffer(g: Group, h: Group)
    ensures Name(g) == Name(h) <==> g == h
    ensures Name(g) != "tab" && Name(g) != "basis" && Name(g) != "posted" && Name(g) != "badge"
    ensures Name(g) != "job" && Name(g) != "page" && Name(g) != "filters"
  {
    assert |"job"| == 3 && |"page"| == 4 && |"filters"| == 7 && "job"[0] == 'j' && "page"[0] == 'p';
    assert |"tab"| == 3 && |"basis"| == 5 && |"posted"| == 6 && |"type"| == 4 && |"pay"| == 3 && |"badge"| == 5;
    assert |"mode"| == 4 && |"season"| == 6 && |"level"| == 5;
    assert "tab"[0] == 't' && "type"[0] == 't' && "mode"[0] == 'm' && "pay"[0] == 'p' && "basis"[0] == 'b' && "badge"[0] == 'b';
    assert "level"[0] == 'l' && "posted"[0] == 'p' && "season"[0] == 's';
  }

  /** The filters of a state: everything but the open job, the page and the unfiltered flag. */
  predicate SameFilters(p: Params, q: Params) {
    p.tab == q.tab && p.basis == q.basis && p.posted == q.posted && p.badge == q.badge && p.chosen == q.chosen
  }

  /** `raw` gives the filters of `p`, but for the group `g`, which it gives the words of. */
  predicate GivesWithGroup(p: Params, raw: Raw, g: Group, words: seq<string>) {
    && Given(raw, "tab") == Some(One(TabName(p.tab)))
    && Given(raw, "basis") == AsOne(if p.basis.Some? then Some(BasisName(p.basis.value)) else None)
    && Given(raw, "posted") == AsOne(p.posted) && Given(raw, "badge") == AsOne(p.badge)
    && Given(raw, Name(g)) == Some(One(Join(words, ',')))
    && (forall h :: h in Groups() && h != g ==> Given(raw, Name(h)) == AsOne(Listed(Of(p.chosen, h))))
  }

  lemma RawWithGroup(p: Params, g: Group, words: seq<string>)
    ensures GivesWithGroup(p, ToRaw(p)[Name(g) := One(Join(words, ','))], g, words)
  {
    hide ToRaw, Name, Listed, TabName, BasisName;
    RawFacts(p);
    NamesDiffer(g, g);
    forall h | h in Groups() && h != g
      ensures Name(h) != Name(g)
    {
      NamesDiffer(g, h);
    }
  }

  /** The filters but one are the same, and that one holds what the vocabulary has of the words. */
  predicate Replaces(p: Params, q: Params, g: Group, words: seq<string>) {
    && q.tab == p.tab && q.basis == p.basis && q.posted == p.posted && q.badge == p.badge
    && Of(q.chosen, g) == Filter(Vocab(p.tab, g, p.basis), words)
    && (forall h :: h in Groups() && h != g ==> Of(q.chosen, h) == Of(p.chosen, h))
  }

  lemma PickedWithGroup(p: Params, raw: Raw, g: Group, words: seq<string>, h: Group)
    requires IsParsed(p) && GivesWithGroup(p, raw, g, words) && h in Groups()
    ensures Picked(raw, p.tab, p.basis, h) == if h == g then Filter(Vocab(p.tab, g, p.basis), Said(words)) else Of(p.chosen, h)
  {
    if h == g {
      PickSaid(Vocab(p.tab, g, p.basis), words);
    } else {
      ReadGroup(p, raw, h);
    }
  }

  /** Replacing one group's list leaves the other filters, and reads that group off the vocabulary. */
  lemma ReplacedGroup(number: string -> Option<int>, p: Params, g: Group, words: seq<string>)
    requires IsParsed(p)
    ensures Replaces(p, WithFilter(number, p, g, words), g, Said(words))
  {
    hide IsParsed, Said, GivesWithGroup, ParseParams, ToRaw, Replaces;
    RawWithGroup(p, g, words);
    ParsedWithGroup(number, p, ToRaw(p)[Name(g) := One(Join(words, ','))], g, words);
  }

  /** So the group becomes the offered values of any list of values without commas that is not too long. */
  lemma ReplacedByList(number: string -> Option<int>, p: Params, g: Group, words: seq<string>)
    requires IsParsed(p) && AllLack(words, ',') && |Join(words, ',')| <= 200
    ensures Replaces(p, WithFilter(number, p, g, words), g, words)
  {
    ReplacedGroup(number, p, g, words);
    VocabLacksEmpty(p.tab, g, p.basis);
    PlainWordsAreSaid(Vocab(p.tab, g, p.basis), words);
    hide WithFilter, IsParsed, Vocab, Said;
  }

  lemma ParsedFields(number: string -> Option<int>, raw: Raw, g: Group)
    ensures var q := ParseParams(number, raw);
      && q.tab == TabOf(First(Given(raw, "tab"))) && q.basis == BasisOf(q.tab, First(Given(raw, "basis")))
      && q.posted == Pick(Text(First(Given(raw, "posted"))), Windows())
      && (First(Given(raw, "badge")).Some? && IsSlug(First(Given(raw, "badge")).value) ==> q.badge == First(Given(raw, "badge")))
      && (First(Given(raw, "badge")).None? ==> q.badge.None?)
      && Of(q.chosen, g) == Picked(raw, q.tab, q.basis, g)
  {
  }

  lemma ParsedWithGroup(number: string -> Option<int>, p: Params, raw: Raw, g: Group, words: seq<string>)
    requires IsParsed(p) && GivesWithGroup(p, raw, g, words)
    ensures Replaces(p, ParseParams(number, raw), g, Said(words))
  {
    var q := ParseParams(number, raw);
    ParsedFields(number, raw, g);
    ReadPosted(p, raw);
    ReadNamedTab(p, raw);
    assert First(Given(raw, "badge")) == p.badge;
    assert q.badge == p.badge;
    assert g in Groups();
    hide ParseParams, Picked, Pick, Vocab, Name, IsSlug, IsParsed, Said;
    PickedWithGroup(p, raw, g, words, g);
    forall h | h in Groups() && h != g
      ensures Of(q.chosen, h) == Of(p.chosen, h)
    {
      ParsedFields(number, raw, h);
      PickedWithGroup(p, raw, g, words, h);
    }
  }

  lemma ReadNamedTab(p: Params, raw: Raw)
    requires p.tab.Engineering? <==> p.basis.None?
    requires Given(raw, "tab") == Some(One(TabName(p.tab)))
    requires Given(raw, "basis") == AsOne(if p.basis.Some? then Some(BasisName(p.basis.value)) else None)
    ensures TabOf(First(Given(raw, "tab"))) == p.tab && BasisOf(p.tab, First(Given(raw, "basis"))) == p.basis
  {
    assert |"design"| == 6 && |"engineering"| == 11 && |"employed"| == 8 && |"freelance"| == 9;
    if p.basis.Some? {
      match p.basis.value
      case Employed =>
      case Freelance =>
    }
  }

  lemma NextWords(current: seq<string>, v: string, w: string)
    requires AreWords(current) && IsWord(v) && |current| <= 4
    ensures AreWords(Next(current, v)) && |Next(current, v)| <= 5
    ensures w in Next(current, v) <==> (if w == v then v !in current else w in current)
  {
    if v in current {
      RemovedWords(current, v, w);
    } else {
      assert w in current + [v] <==> w in current || w == v;
    }
  }

  lemma {:induction false} RemovedWords(words: seq<string>, v: string, w: string)
    requires AreWords(words)
    ensures AreWords(Removed(words, v)) && |Removed(words, v)| <= |words|
    ensures w in Removed(words, v) <==> w in words && w != v
    decreases |words|
  {
    if words != [] {
      RemovedWords(words[1..], v, w);
      assert w in words <==> w == words[0] || w in words[1..];
    }
  }

  /** `q` is `p` with the value `v` of `g` added to the selection or taken away. */
  ghost predicate IsToggle(p: Params, q: Params, g: Group, v: string) {
    && q.tab == p.tab && q.basis == p.basis && q.posted == p.posted && q.badge == p.badge
    && (forall h :: h in Groups() && h != g ==> Of(q.chosen, h) == Of(p.chosen, h))
    && (forall w :: w in Vocab(p.tab, g, p.basis) ==>
          (w in Of(q.chosen, g) <==> (if w == v then v !in Of(p.chosen, g) else w in Of(p.chosen, g))))
  }

  lemma ToggledWords(allowed: seq<string>, current: seq<string>, v: string)
    requires AreWords(current) && |current| <= 4 && IsWord(v)
    ensures forall w :: w in allowed ==>
              (w in Filter(allowed, Next(current, v)) <==> (if w == v then v !in current else w in current))
  {
    forall w | w in allowed
      ensures w in Filter(allowed, Next(current, v)) <==> (if w == v then v !in current else w in current)
    {
      NextWords(current, v, w);
      FilterMembers(allowed, Next(current, v), w);
    }
  }

  lemma OfferedIsWord(p: Params, g: Group, v: string)
    requires v in Vocab(p.tab, g, p.basis)
    ensures IsWord(v)
  {
    VocabIsWords(p.tab, g, p.basis);
    var allowed := Vocab(p.tab, g, p.basis);
    var i :| 0 <= i < |allowed| && allowed[i] == v;
    hide Vocab;
    assert IsWord(allowed[i]);
  }

  lemma NextIsPlain(p: Params, g: Group, v: string)
    requires IsParsed(p) && v in Vocab(p.tab, g, p.basis)
    ensures AreWords(Of(p.chosen, g)) && |Of(p.chosen, g)| <= 4 && IsWord(v)
    ensures AllLack(Next(Of(p.chosen, g), v), ',') && |Join(Next(Of(p.chosen, g), v), ',')| <= 200
  {
    SelectionFacts(p, g);
    OfferedIsWord(p, g, v);
    hide IsParsed, Vocab, Next;
    NextWords(Of(p.chosen, g), v, v);
    JoinFacts(Next(Of(p.chosen, g), v));
  }

  /** Toggling a value the tab offers changes that value's choice and no other filter. */
  lemma ToggledGroup(number: string -> Option<int>, p: Params, g: Group, v: string)
    requires IsParsed(p) && v in Vocab(p.tab, g, p.basis)
    ensures IsParsed(Toggled(number, p, g, v)) && IsToggle(p, Toggled(number, p, g, v), g, v)
  {
    ParsingYieldsParsed(number, ToRaw(p)[Name(g) := One(Join(Next(Of(p.chosen, g), v), ','))]);
    hide IsParsed, IsWord, AreWords, Vocab, ParseParams, ToRaw, Next, AllLack, Join;
    NextIsPlain(p, g, v);
    ReplacedByList(number, p, g, Next(Of(p.chosen, g), v));
    ToggledWords(Vocab(p.tab, g, p.basis), Of(p.chosen, g), v);
  }

  lemma TogglesCancel(p: Params, q: Params, r: Params, g: Group, v: string)
    requires IsParsed(p) && IsParsed(r) && IsToggle(p, q, g, v) && IsToggle(q, r, g, v)
    ensures SameFilters(r, p)
  {
    hide Vocab, IsParsed;
    SameSelection(p, r, g);
    assert Type in Groups() && Pay in Groups() && Mode in Groups() && Season in Groups() && Level in Groups();
  }

  lemma SameSelection(p: Params, r: Params, g: Group)
    requires IsParsed(p) && IsParsed(r) && r.tab == p.tab && r.basis == p.basis
    requires forall w :: w in Vocab(p.tab, g, p.basis) ==> (w in Of(r.chosen, g) <==> w in Of(p.chosen, g))
    ensures Of(r.chosen, g) == Of(p.chosen, g)
  {
    SelectionFacts(p, g);
    SelectionFacts(r, g);
    hide Vocab, IsParsed;
    FilterAgrees(Vocab(p.tab, g, p.basis), Of(r.chosen, g), Of(p.chosen, g));
  }

  lemma ToggledReadsBack(number: string -> Option<int>, p: Params, g: Group, v: string)
    requires ReadsDecimals(number)
    ensures var q := Toggled(number, p, g, v);
      AreAscii(Present(Entries(q))) && ParseParams(number, Visited(Href(q))) == q
  {
    AddressReadsBack(number, ToRaw(p)[Name(g) := One(Join(Next(Of(p.chosen, g), v), ','))]);
  }

  /** Toggling a value the tab offers twice, through two addresses, restores every filter. */
  lemma TogglingTwiceRestores(number: string -> Option<int>, raw: Raw, g: Group, v: string)
    requires ReadsDecimals(number)
    requires var p := ParseParams(number, raw); v in Vocab(p.tab, g, p.basis)
    ensures var p := ParseParams(number, raw);
      AreAscii(Present(Entries(Toggled(number, p, g, v)))) &&
      var q := ParseParams(number, Visited(Href(Toggled(number, p, g, v))));
      AreAscii(Present(Entries(Toggled(number, q, g, v)))) &&
      SameFilters(ParseParams(number, Visited(Href(Toggled(number, q, g, v)))), p)
  {
    var p := ParseParams(number, raw);
    ParsingYieldsParsed(number, raw);
    hide ParseParams, IsParsed, Toggled, Vocab, IsToggle, Visited, Href, Entries, AreAscii, Present, ReadsDecimals;
    ToggledReadsBack(number, p, g, v);
    ToggledGroup(number, p, g, v);
    var q := Toggled(number, p, g, v);
    SameVocab(p, q, g, v);
    ToggledReadsBack(number, q, g, v);
    ToggledGroup(number, q, g, v);
    TogglesCancel(p, q, Toggled(number, q, g, v), g, v);
  }

  lemma SameVocab(p: Params, q: Params, g: Group, v: string)
    requires IsToggle(p, q, g, v)
    ensures Vocab(q.tab, g, q.basis) == Vocab(p.tab, g, p.basis)
  {
  }
}
