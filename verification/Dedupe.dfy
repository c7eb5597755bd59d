/**
 * Collapsing raw postings into one group per job: exact keys first, then three greedy passes over
 * groups ranked by their best record (lib/dedupe.ts).
 *
 * The normalizers, the URL parser and the hash are not modelled: a raw posting carries what they
 * return for it, and a dedupe key is the tuple that is hashed.
 */
module Dedupe {
  import opened Options
  import opened TextOrder

  datatype SourceKind = Ats | Aggregator | Rss | Scrape | Repo

  function Priority(kind: SourceKind): nat {
    match kind
    case Ats => 1
    case Aggregator => 2
    case Rss => 3
    case Scrape => 4
    case Repo => 5
  }

  /** A normalized location; an empty part counts as missing. */
  datatype Location = Location(isRemote: bool, city: string, state: string, country: string)

  datatype LocationKey = RemoteKey | UnknownKey | OnsiteKey(city: string, state: string, country: string)

  function LocationKeyOf(l: Location): LocationKey {
    if l.isRemote then RemoteKey
    else if l.city == "" && l.state == "" && l.country == "" then UnknownKey
    else OnsiteKey(l.city, l.state, l.country)
  }

  /**
   * One connector's report. `publisherId` is what `publisherIdOf` returns, `page` the canonical job
   * page (none unless the URL is http), `address` the canonical source URL, `postedAt` none for a
   * date that did not parse, `applyHref` and `href` the two URLs when a browser may navigate to them.
   */
  datatype Raw = Raw(
    source: string, kind: SourceKind, url: string, address: string, page: Option<string>,
    href: Option<string>, applyHref: Option<string>,
    publisherId: Option<string>, postedAt: Option<int>,
    company: string, title: string, location: Location)

  datatype Key = Key(company: string, title: string, place: LocationKey, identity: Option<(string, string)>)

  function IdentityOf(r: Raw): Option<(string, string)> {
    if r.publisherId.Some? then Some((r.source, r.publisherId.value)) else None
  }

  function KeyOf(r: Raw): Key {
    Key(r.company, r.title, LocationKeyOf(r.location), IdentityOf(r))
  }

  /** A group of records; its company, title and location key are the components of its key. */
  datatype AnyGroup = Group(
    key: Key, location: Location, sources: seq<Raw>, ids: map<string, string>, pages: set<string>)

  type Group = g: AnyGroup | g.sources != [] witness NewGroup(Raw("", Ats, "", "", None, None, None, None, None, "", "", Location(false, "", "", "")))

  // ----------------------------------------------------------------------------------------
  // Ranking
  // ----------------------------------------------------------------------------------------

  const MAX_SAFE_INTEGER: int := 9007199254740991

  function OrderableTime(t: Option<int>): int {
    if t.Some? then t.value else MAX_SAFE_INTEGER
  }

  /** `compareSources(a, b) < 0`: priority, then date, then URL. */
  predicate Ahead(a: Raw, b: Raw) {
    var pa, pb := Priority(a.kind), Priority(b.kind);
    var ta, tb := OrderableTime(a.postedAt), OrderableTime(b.postedAt);
    pa < pb || (pa == pb && (ta < tb || (ta == tb && Before(a.url, b.url))))
  }

  predicate Tied(a: Raw, b: Raw) {
    !Ahead(a, b) && !Ahead(b, a)
  }

  /** The first element of the stable sort of `s`. */
  function Best(s: seq<Raw>): (b: Raw)
    requires s != []
    ensures b in s
  {
    if |s| == 1 then s[0]
    else
      var b := Best(s[..|s| - 1]);
      if Ahead(s[|s| - 1], b) then s[|s| - 1] else b
  }

  function RankInsert(ranked: seq<Group>, g: Group): seq<Group> {
    if ranked == [] then [g]
    else
      var last := ranked[|ranked| - 1];
      if Ahead(Best(g.sources), Best(last.sources)) then RankInsert(ranked[..|ranked| - 1], g) + [last]
      else ranked + [g]
  }

  /** The stable sort of the groups by their best records. */
  function Ranked(groups: seq<Group>): seq<Group> {
    if groups == [] then [] else RankInsert(Ranked(groups[..|groups| - 1]), groups[|groups| - 1])
  }

  // ----------------------------------------------------------------------------------------
  // Title similarity
  // ----------------------------------------------------------------------------------------

  predicate IsTokenChar(c: char) {
    'a' <= c <= 'z' || 'A' <= c <= 'Z' || '0' <= c <= '9'
  }

  function Lower(c: char): char {
    if 'A' <= c <= 'Z' then c - 'A' + 'a' else c
  }

  /** The maximal alphanumeric runs of `s`, lower-cased, `run` being the one already open. */
  function TokensFrom(s: string, run: string): set<string> {
    if s == [] then if run == [] then {} else {run}
    else if IsTokenChar(s[0]) then TokensFrom(s[1..], run + [Lower(s[0])])
    else (if run == [] then {} else {run}) + TokensFrom(s[1..], [])
  }

  function Tokens(title: string): set<string> {
    TokensFrom(title, [])
  }

  /** `tokenSetRatio(a, b) >= percent / 100`; an empty side scores 0. */
  predicate TitlesAlike(a: string, b: string, percent: nat) {
    var left, right := Tokens(a), Tokens(b);
    |left| != 0 && |right| != 0 && 100 * 2 * |left * right| >= percent * (|left| + |right|)
  }

  // ----------------------------------------------------------------------------------------
  // Pass conditions
  // ----------------------------------------------------------------------------------------

  datatype Pass = SharedIdentity | NearDuplicate | RemoteVersusCity

  predicate Conflict(a: map<string, string>, b: map<string, string>) {
    exists s :: s in a && s in b && a[s] != b[s]
  }

  predicate ShareAnId(a: map<string, string>, b: map<string, string>) {
    exists s :: s in a && s in b && a[s] == b[s]
  }

  predicate HasAts(sources: seq<Raw>) {
    exists r :: r in sources && r.kind == Ats
  }

  predicate CanMerge(pass: Pass, a: Group, b: Group) {
    && a.key.company == b.key.company
    && !Conflict(a.ids, b.ids)
    && match pass
       case SharedIdentity =>
         ShareAnId(a.ids, b.ids) || ((HasAts(a.sources) || HasAts(b.sources)) && a.pages * b.pages != {})
       case NearDuplicate =>
         a.key.place == b.key.place && TitlesAlike(a.key.title, b.key.title, 90)
       case RemoteVersusCity =>
         a.location.isRemote != b.location.isRemote && TitlesAlike(a.key.title, b.key.title, 95)
  }

  // ----------------------------------------------------------------------------------------
  // Grouping by exact key
  // ----------------------------------------------------------------------------------------

  function PagesOf(r: Raw): set<string> {
    if r.page.Some? then {r.page.value} else {}
  }

  function IdsOf(r: Raw): map<string, string> {
    if r.publisherId.Some? then map[r.source := r.publisherId.value] else map[]
  }

  function NewGroup(r: Raw): (g: AnyGroup)
    ensures g.sources == [r]
  {
    Group(KeyOf(r), r.location, [r], IdsOf(r), PagesOf(r))
  }

  function Joined(g: Group, r: Raw): Group {
    g.(sources := g.sources + [r], pages := g.pages + PagesOf(r))
  }

  function IndexOfKey(groups: seq<Group>, k: Key): (i: nat)
    ensures i <= |groups|
    ensures i < |groups| ==> groups[i].key == k
    ensures forall j :: 0 <= j < i ==> groups[j].key != k
  {
    if groups == [] then 0
    else
      var i := IndexOfKey(groups[..|groups| - 1], k);
      if i < |groups| - 1 || groups[|groups| - 1].key == k then i else |groups|
  }

  function AddRaw(groups: seq<Group>, r: Raw): seq<Group> {
    var i := IndexOfKey(groups, KeyOf(r));
    if i < |groups| then groups[i := Joined(groups[i], r)] else groups + [NewGroup(r)]
  }

  function Grouped(raws: seq<Raw>): seq<Group> {
    if raws == [] then [] else AddRaw(Grouped(raws[..|raws| - 1]), raws[|raws| - 1])
  }

  method GroupByKey(raws: seq<Raw>) returns (groups: seq<Group>)
    ensures groups == Grouped(raws)
  {
    groups := [];
    for n := 0 to |raws|
      invariant groups == Grouped(raws[..n])
    {
      var key := KeyOf(raws[n]);
      var i := 0;
      while i < |groups| && groups[i].key != key
        invariant 0 <= i <= |groups|
        invariant forall j :: 0 <= j < i ==> groups[j].key != key
      {
        i := i + 1;
      }
      assert i == IndexOfKey(groups, key);
      if i < |groups| {
        groups := groups[i := Joined(groups[i], raws[n])];
      } else {
        groups := groups + [NewGroup(raws[n])];
      }
      assert raws[..n + 1][..n] == raws[..n];
    }
    assert raws[..|raws|] == raws;
  }

  // ----------------------------------------------------------------------------------------
  // One greedy pass
  // ----------------------------------------------------------------------------------------

  function Absorb(t: Group, g: Group): Group {
    t.(sources := t.sources + g.sources, ids := t.ids + g.ids, pages := t.pages + g.pages)
  }

  /** The first kept group, from `start` on, that may take `g`, or `|kept|`. */
  function TargetFrom(kept: seq<Group>, g: Group, pass: Pass, start: nat): (i: nat)
    requires start <= |kept|
    ensures start <= i <= |kept|
    decreases |kept| - start
  {
    if start == |kept| || CanMerge(pass, kept[start], g) then start else TargetFrom(kept, g, pass, start + 1)
  }

  function Place(kept: seq<Group>, g: Group, pass: Pass): seq<Group> {
    var i := TargetFrom(kept, g, pass, 0);
    if i < |kept| then kept[i := Absorb(kept[i], g)] else kept + [g]
  }

  function PlaceAll(ranked: seq<Group>, pass: Pass): seq<Group> {
    if ranked == [] then [] else Place(PlaceAll(ranked[..|ranked| - 1], pass), ranked[|ranked| - 1], pass)
  }

  function Merged(groups: seq<Group>, pass: Pass): seq<Group> {
    PlaceAll(Ranked(groups), pass)
  }

  method FindTarget(kept: seq<Group>, g: Group, pass: Pass) returns (i: nat)
    ensures i == TargetFrom(kept, g, pass, 0)
  {
    i := 0;
    while i < |kept| && !CanMerge(pass, kept[i], g)
      invariant 0 <= i <= |kept|
      invariant TargetFrom(kept, g, pass, 0) == TargetFrom(kept, g, pass, i)
    {
      i := i + 1;
    }
  }

  method MergePass(groups: seq<Group>, pass: Pass) returns (kept: seq<Group>)
    ensures kept == Merged(groups, pass)
  {
    var ranked := Ranked(groups);
    kept := [];
    for n := 0 to |ranked|
      invariant kept == PlaceAll(ranked[..n], pass)
    {
      var i := FindTarget(kept, ranked[n], pass);
      if i < |kept| {
        kept := kept[i := Absorb(kept[i], ranked[n])];
      } else {
        kept := kept + [ranked[n]];
      }
      assert ranked[..n + 1][..n] == ranked[..n];
    }
    assert ranked[..|ranked|] == ranked;
  }

  function DedupedGroups(raws: seq<Raw>): seq<Group> {
    Merged(Merged(Merged(Grouped(raws), SharedIdentity), NearDuplicate), RemoteVersusCity)
  }

  // ----------------------------------------------------------------------------------------
  // One posting per group
  // ----------------------------------------------------------------------------------------

  datatype RecordIdentity = ById(source: string, id: string) | ByAddress(address: string)

  function RecordIdentityOf(r: Raw): RecordIdentity {
    if r.publisherId.Some? then ById(r.source, r.publisherId.value) else ByAddress(r.address)
  }

  function Earliest(a: Option<int>, b: Option<int>): Option<int> {
    if a.None? then b else if b.None? then a else Some(if a.value <= b.value then a.value else b.value)
  }

  function IndexOfIdentity(rows: seq<Raw>, id: RecordIdentity): (i: nat)
    ensures i <= |rows|
    ensures i < |rows| ==> RecordIdentityOf(rows[i]) == id
    ensures forall j :: 0 <= j < i ==> RecordIdentityOf(rows[j]) != id
  {
    if rows == [] then 0
    else
      var i := IndexOfIdentity(rows[..|rows| - 1], id);
      if i < |rows| - 1 || RecordIdentityOf(rows[|rows| - 1]) == id then i else |rows|
  }

  /** The better-ranked record of two under one identity, with the earlier of their dates. */
  function Combined(held: Raw, r: Raw): Raw {
    (if Priority(r.kind) < Priority(held.kind) then r else held).(postedAt := Earliest(held.postedAt, r.postedAt))
  }

  function AddRecord(rows: seq<Raw>, r: Raw): seq<Raw> {
    var i := IndexOfIdentity(rows, RecordIdentityOf(r));
    if i < |rows| then rows[i := Combined(rows[i], r)] else rows + [r]
  }

  function Collapsed(sources: seq<Raw>): seq<Raw> {
    if sources == [] then [] else AddRecord(Collapsed(sources[..|sources| - 1]), sources[|sources| - 1])
  }

  /** The row already held under an identity, or `|rows|`. */
  method FindRecord(rows: seq<Raw>, id: RecordIdentity) returns (i: nat)
    ensures i == IndexOfIdentity(rows, id)
  {
    i := 0;
    while i < |rows| && RecordIdentityOf(rows[i]) != id
      invariant i <= |rows|
      invariant forall j :: 0 <= j < i ==> RecordIdentityOf(rows[j]) != id
    {
      i := i + 1;
    }
  }

  method CollapseSourceUrls(sources: seq<Raw>) returns (rows: seq<Raw>)
    ensures rows == Collapsed(sources)
  {
    hide Combined, IndexOfIdentity, RecordIdentityOf;
    rows := [];
    for n := 0 to |sources|
      invariant rows == Collapsed(sources[..n])
    {
      var i := FindRecord(rows, RecordIdentityOf(sources[n]));
      if i < |rows| {
        rows := rows[i := Combined(rows[i], sources[n])];
      } else {
        rows := rows + [sources[n]];
      }
      assert sources[..n + 1][..n] == sources[..n];
    }
    assert sources[..|sources|] == sources;
  }

  /** The least parsed date of `rows`, counting ATS rows alone when `atsOnly`. */
  function LeastDate(rows: seq<Raw>, atsOnly: bool): Option<int> {
    if rows == [] then None
    else
      var r := rows[|rows| - 1];
      var rest := LeastDate(rows[..|rows| - 1], atsOnly);
      if atsOnly && r.kind != Ats then rest else Earliest(rest, r.postedAt)
  }

  function PostedAt(rows: seq<Raw>, fallback: int): int {
    var least := LeastDate(rows, false);
    var ats := LeastDate(rows, true);
    var all := if least.Some? then least.value else fallback;
    if ats.Some? && ats.value > all then ats.value else all
  }

  function RecordInsert(sorted: seq<Raw>, r: Raw): (s: seq<Raw>)
    ensures s != []
  {
    if sorted == [] then [r]
    else if Ahead(r, sorted[|sorted| - 1]) then
      RecordInsert(sorted[..|sorted| - 1], r) + [sorted[|sorted| - 1]]
    else sorted + [r]
  }

  function SortedRecords(rows: seq<Raw>): (s: seq<Raw>)
    ensures rows != [] ==> s != []
  {
    if rows == [] then [] else RecordInsert(SortedRecords(rows[..|rows| - 1]), rows[|rows| - 1])
  }

  /** The best-ranked ATS record when there is one, else the best-ranked record of all. */
  function Winner(rows: seq<Raw>): Raw
    requires rows != []
  {
    if exists i :: 0 <= i < |rows| && rows[i].kind == Ats then FirstAts(rows) else rows[0]
  }

  function FirstAts(rows: seq<Raw>): (r: Raw)
    requires exists i :: 0 <= i < |rows| && rows[i].kind == Ats
    ensures r in rows && r.kind == Ats
  {
    if rows[0].kind == Ats then rows[0] else FirstAts(rows[1..])
  }

  datatype Posting = Posting(key: Key, location: Location, sources: seq<Raw>, postedAt: int, canonicalUrl: string)

  function Materialized(g: Group, fallback: int): Posting {
    var rows := SortedRecords(Collapsed(g.sources));
    CollapsedKeepsSome(g.sources);
    var winner := Winner(rows);
    Posting(g.key, g.location, rows, PostedAt(rows, fallback),
            if winner.applyHref.Some? then winner.applyHref.value
            else if winner.href.Some? then winner.href.value else "")
  }

  lemma CollapsedKeepsSome(sources: seq<Raw>)
    ensures sources != [] ==> Collapsed(sources) != []
  {
  }

  function MaterializedAll(groups: seq<Group>, fallback: int): (ps: seq<Posting>)
    ensures |ps| == |groups|
  {
    if groups == [] then []
    else MaterializedAll(groups[..|groups| - 1], fallback) + [Materialized(groups[|groups| - 1], fallback)]
  }

  method MaterializeAll(groups: seq<Group>, fallback: int) returns (postings: seq<Posting>)
    ensures postings == MaterializedAll(groups, fallback)
  {
    hide Materialized;
    postings := [];
    for n := 0 to |groups|
      invariant postings == MaterializedAll(groups[..n], fallback)
    {
      postings := postings + [Materialized(groups[n], fallback)];
      assert groups[..n + 1][..n] == groups[..n];
    }
    assert groups[..|groups|] == groups;
  }

  method DedupePostings(raws: seq<Raw>, fallback: int) returns (postings: seq<Posting>)
    ensures postings == MaterializedAll(DedupedGroups(raws), fallback)
  {
    var groups := GroupByKey(raws);
    groups := MergePass(groups, SharedIdentity);
    groups := MergePass(groups, NearDuplicate);
    groups := MergePass(groups, RemoteVersusCity);
    hide Grouped, Merged, MaterializedAll;
    postings := MaterializeAll(groups, fallback);
  }
}
