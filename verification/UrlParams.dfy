/**
 * The board's state in its URL (lib/params.ts). `number` is JavaScript's `Number` on a string, where it gives a safe
 * integer; all that is asked of it is that it reads back what `String` writes.
 */
module UrlParams {
  import opened Options
  import opened Decimal
  import opened UrlCodec

  datatype Tab = Design | Engineering
  datatype Basis = Employed | Freelance
  datatype Group = Type | Pay | Mode | Season | Level

  const MAX_SAFE_INTEGER: int := 9007199254740991

  function Groups(): seq<Group> {
    [Type, Pay, Mode, Season, Level]
  }

  function TabName(t: Tab): string {
    if t.Design? then "design" else "engineering"
  }

  function BasisName(b: Basis): string {
    if b.Employed? then "employed" else "freelance"
  }

  function Name(g: Group): string {
    match g
    case Type => "type"
    case Pay => "pay"
    case Mode => "mode"
    case Season => "season"
    case Level => "level"
  }

  function Windows(): seq<string> {
    ["hour", "day", "week", "month"]
  }

  function Vocab(tab: Tab, g: Group, basis: Option<Basis>): seq<string> {
    match g
    case Type =>
      if tab.Engineering? then ["full-time", "internship"]
      else if basis == Some(Freelance) then ["freelance", "contract"]
      else ["full-time", "part-time", "internship"]
    case Pay => ["paid", "unpaid", "unknown"]
    case Mode => ["remote", "hybrid", "onsite"]
    case Season => if tab.Design? then [] else ["summer", "fall", "winter", "spring"]
    case Level => if tab.Design? then ["entry", "junior", "mid", "senior+"] else ["entry", "junior", "mid"]
  }

  /** The values chosen in each group. */
  datatype Choices = Choices(types: seq<string>, pay: seq<string>, mode: seq<string>, season: seq<string>, level: seq<string>)

  function Of(c: Choices, g: Group): seq<string> {
    match g
    case Type => c.types
    case Pay => c.pay
    case Mode => c.mode
    case Season => c.season
    case Level => c.level
  }

  datatype Params = Params(
    tab: Tab, basis: Option<Basis>, posted: Option<string>, chosen: Choices,
    badge: Option<string>, job: Option<int>, page: int, unfiltered: bool)

  // ----------------------------------------------------------------------------------------
  // Parsing
  // ----------------------------------------------------------------------------------------

  /** A parameter given once, or repeated. */
  datatype Value = One(s: string) | Many(all: seq<string>)

  type Raw = map<string, Value>

  function Given(raw: Raw, key: string): Option<Value> {
    if key in raw then Some(raw[key]) else None
  }

  function First(v: Option<Value>): Option<string> {
    if v.None? then None
    else if v.value.One? then Some(v.value.s)
    else if v.value.all == [] then None else Some(v.value.all[0])
  }

  function Collect(v: Option<Value>): Option<string> {
    if v.None? then None else if v.value.One? then Some(v.value.s) else Some(Join(v.value.all, ','))
  }

  function Text(s: Option<string>): Option<string> {
    if s.Some? && |s.value| <= 200 then s else None
  }

  function Filter(allowed: seq<string>, chosen: seq<string>): seq<string> {
    if allowed == [] then []
    else if allowed[0] in chosen then [allowed[0]] + Filter(allowed[1..], chosen)
    else Filter(allowed[1..], chosen)
  }

  function PickAll(raw: Option<string>, allowed: seq<string>): seq<string> {
    if raw.None? || raw.value == "" then [] else Filter(allowed, Split(raw.value, ','))
  }

  function FirstIn(words: seq<string>, allowed: seq<string>): Option<string> {
    if words == [] then None else if words[0] in allowed then Some(words[0]) else FirstIn(words[1..], allowed)
  }

  function Pick(raw: Option<string>, allowed: seq<string>): Option<string> {
    if raw.None? || raw.value == "" then None else FirstIn(Split(raw.value, ','), allowed)
  }

  predicate IsSlugChar(c: char) {
    'a' <= c <= 'z' || '0' <= c <= '9' || c == '-'
  }

  predicate IsSlug(s: string) {
    1 <= |s| <= 32 && forall i :: 0 <= i < |s| ==> IsSlugChar(s[i])
  }

  function Whole(number: string -> Option<int>, s: Option<string>, max: int): Option<int> {
    if s.None? then None
    else
      var n := number(s.value);
      if n.Some? && 1 <= n.value <= max then n else None
  }

  function TabOf(s: Option<string>): Tab {
    if s == Some(TabName(Engineering)) then Engineering else Design
  }

  function BasisOf(tab: Tab, s: Option<string>): Option<Basis> {
    if tab.Engineering? then None else if s == Some(BasisName(Freelance)) then Some(Freelance) else Some(Employed)
  }

  predicate HasFilters(p: Params) {
    p.badge.Some? || p.posted.Some? || exists g :: g in Groups() && Of(p.chosen, g) != []
  }

  predicate IsExplicit(raw: Raw) {
    First(Given(raw, "filters")) == Some("all") || "posted" in raw || "badge" in raw
    || exists g :: g in Groups() && Name(g) in raw
  }

  function Picked(raw: Raw, tab: Tab, basis: Option<Basis>, g: Group): seq<string> {
    PickAll(Text(Collect(Given(raw, Name(g)))), Vocab(tab, g, basis))
  }

  function ParseParams(number: string -> Option<int>, raw: Raw): Params {
    var tab := TabOf(First(Given(raw, "tab")));
    var basis := BasisOf(tab, First(Given(raw, "basis")));
    var badge := First(Given(raw, "badge"));
    var job := First(Given(raw, "job"));
    var page := Whole(number, First(Given(raw, "page")), 10000);
    var p := Params(
      tab, basis, Pick(Text(First(Given(raw, "posted"))), Windows()),
      Choices(Picked(raw, tab, basis, Type), Picked(raw, tab, basis, Pay), Picked(raw, tab, basis, Mode),
              Picked(raw, tab, basis, Season), Picked(raw, tab, basis, Level)),
      if badge.Some? && IsSlug(badge.value) then badge else None,
      if job == Some("") then None else Whole(number, job, MAX_SAFE_INTEGER),
      if page.Some? then page.value else 1, false);
    p.(unfiltered := IsExplicit(raw) && !HasFilters(p))
  }

  // ----------------------------------------------------------------------------------------
  // Writing
  // ----------------------------------------------------------------------------------------

  /** A parameter with its value, if it is written. */
  datatype Entry = Entry(key: string, value: Option<string>)

  function Present(entries: seq<Entry>): seq<Pair> {
    if entries == [] then []
    else (if entries[0].value.Some? then [Pair(entries[0].key, entries[0].value.value)] else []) + Present(entries[1..])
  }

  function Listed(words: seq<string>): Option<string> {
    if words == [] then None else Some(Join(words, ','))
  }

  function Entries(p: Params): seq<Entry> {
    [Entry("tab", if p.tab.Design? then None else Some(TabName(p.tab))),
     Entry("basis", if p.basis == Some(Freelance) then Some(BasisName(Freelance)) else None),
     Entry("filters", if p.unfiltered && !HasFilters(p) then Some("all") else None),
     Entry("posted", p.posted),
     Entry(Name(Type), Listed(p.chosen.types)), Entry(Name(Pay), Listed(p.chosen.pay)), Entry(Name(Mode), Listed(p.chosen.mode)),
     Entry(Name(Season), Listed(p.chosen.season)), Entry(Name(Level), Listed(p.chosen.level)),
     Entry("badge", p.badge),
     Entry("job", if p.job.Some? then Some(Written(p.job.value)) else None),
     Entry("page", if p.page > 1 then Some(Written(p.page)) else None)]
  }

  /** The address of a state: a bare path when nothing is written. */
  function Href(p: Params): string
    requires AreAscii(Present(Entries(p)))
  {
    var query := QueryText(Present(Entries(p)));
    if query == "" then "/" else "/?" + query
  }

  // ----------------------------------------------------------------------------------------
  // What the router reads
  // ----------------------------------------------------------------------------------------

  function WithPair(raw: Raw, p: Pair): Raw {
    raw[p.key :=
      if p.key !in raw then One(p.value)
      else if raw[p.key].One? then Many([raw[p.key].s, p.value])
      else Many(raw[p.key].all + [p.value])]
  }

  function RawOf(pairs: seq<Pair>): Raw {
    if pairs == [] then map[] else WithPair(RawOf(pairs[..|pairs| - 1]), pairs[|pairs| - 1])
  }

  function Visited(url: string): Raw {
    if |url| >= 2 && url[..2] == "/?" then RawOf(ParsedQuery(url[2..])) else map[]
  }

  predicate KeysDistinct(entries: seq<Entry>) {
    forall i, j :: 0 <= i < j < |entries| ==> entries[i].key != entries[j].key
  }

  function ValueOf(entries: seq<Entry>, key: string): Option<string> {
    if entries == [] then None else if entries[0].key == key then entries[0].value else ValueOf(entries[1..], key)
  }

  function AsOne(s: Option<string>): Option<Value> {
    if s.Some? then Some(One(s.value)) else None
  }

  lemma {:induction false} PresentSplits(a: seq<Entry>, b: seq<Entry>)
    ensures Present(a + b) == Present(a) + Present(b)
  {
    if a == [] {
      assert a + b == b;
    } else {
      assert (a + b)[0] == a[0] && (a + b)[1..] == a[1..] + b;
      PresentSplits(a[1..], b);
      var first := if a[0].value.Some? then [Pair(a[0].key, a[0].value.value)] else [];
      assert first + (Present(a[1..]) + Present(b)) == (first + Present(a[1..])) + Present(b);
    }
  }

  lemma {:induction false} ValueOfLast(entries: seq<Entry>, last: Entry, key: string)
    requires forall i :: 0 <= i < |entries| ==> entries[i].key != last.key
    ensures ValueOf(entries + [last], key) == if key == last.key then last.value else ValueOf(entries, key)
  {
    if entries != [] {
      assert (entries + [last])[1..] == entries[1..] + [last];
      ValueOfLast(entries[1..], last, key);
    }
  }

  /** Parameters written once each are read as they were written. */
  lemma {:induction false} GivenBack(entries: seq<Entry>, key: string)
    requires KeysDistinct(entries)
    ensures Given(RawOf(Present(entries)), key) == AsOne(ValueOf(entries, key))
    decreases |entries|
  {
    if entries != [] {
      var n := |entries| - 1;
      var rest, last := entries[..n], entries[n];
      assert entries == rest + [last];
      GivenBack(rest, key);
      GivenBack(rest, last.key);
      ValueOfLast(rest, last, key);
      NotListed(rest, last.key);
      PresentSplits(rest, [last]);
      assert [last][1..] == [];
      var pairs := Present(entries);
      if last.value.Some? {
        assert pairs == Present(rest) + [Pair(last.key, last.value.value)];
        assert pairs[..|pairs| - 1] == Present(rest);
      } else {
        assert pairs == Present(rest);
      }
    }
  }

  lemma {:induction false} NotListed(entries: seq<Entry>, key: string)
    requires forall i :: 0 <= i < |entries| ==> entries[i].key != key
    ensures ValueOf(entries, key).None?
  {
    if entries != [] {
      NotListed(entries[1..], key);
    }
  }

  // ----------------------------------------------------------------------------------------
  // Changing one filter
  // ----------------------------------------------------------------------------------------

  function RawEntries(p: Params): seq<Entry> {
    [Entry("tab", Some(TabName(p.tab))),
     Entry("basis", if p.basis.Some? then Some(BasisName(p.basis.value)) else None),
     Entry("posted", p.posted),
     Entry(Name(Type), Listed(p.chosen.types)), Entry(Name(Pay), Listed(p.chosen.pay)), Entry(Name(Mode), Listed(p.chosen.mode)),
     Entry(Name(Season), Listed(p.chosen.season)), Entry(Name(Level), Listed(p.chosen.level)),
     Entry("badge", p.badge), Entry("filters", if p.unfiltered then Some("all") else None)]
  }

  /** The state as raw parameters, without the open job and the page. */
  function ToRaw(p: Params): Raw {
    RawOf(Present(RawEntries(p)))
  }

  /** The state `withFilter` writes the address of. */
  function WithFilter(number: string -> Option<int>, p: Params, g: Group, words: seq<string>): Params {
    ParseParams(number, ToRaw(p)[Name(g) := One(Join(words, ','))])
  }

  function Removed(words: seq<string>, v: string): seq<string> {
    if words == [] then [] else (if words[0] == v then [] else [words[0]]) + Removed(words[1..], v)
  }

  function Next(current: seq<string>, v: string): seq<string> {
    if v in current then Removed(current, v) else current + [v]
  }

  /** The state `toggleFilter` writes the address of. */
  function Toggled(number: string -> Option<int>, p: Params, g: Group, v: string): Params {
    WithFilter(number, p, g, Next(Of(p.chosen, g), v))
  }
}
