/** What the posting of a job shows, said of the reports: its key, date, page and rows. */
module DedupeDisplay {
  import opened Options
  import opened TextOrder
  import opened Dedupe
  import opened DedupeLaws
  import opened DedupeOrder
  import opened DedupeRows

  // ----------------------------------------------------------------------------------------
  // Which of two reports is believed
  // ----------------------------------------------------------------------------------------

  /** An ATS over an aggregator, that over a feed, that over a scraped page, and any over a list in a repository. */
  predicate IsBetterKind(a: SourceKind, b: SourceKind) {
    match a
    case Ats => b != Ats
    case Aggregator => b == Rss || b == Scrape || b == Repo
    case Rss => b == Scrape || b == Repo
    case Scrape => b == Repo
    case Repo => false
  }

  /** The earlier date, an unparsed one counting as the largest safe integer. */
  predicate IsEarlier(a: Option<int>, b: Option<int>) {
    var x, y := if a.None? then 9007199254740991 else a.value, if b.None? then 9007199254740991 else b.value;
    x < y
  }

  /** The better kind, then the earlier date, then the lesser URL. */
  predicate Outranks(a: Raw, b: Raw) {
    || IsBetterKind(a.kind, b.kind)
    || (a.kind == b.kind && IsEarlier(a.postedAt, b.postedAt))
    || (a.kind == b.kind && !IsEarlier(a.postedAt, b.postedAt) && !IsEarlier(b.postedAt, a.postedAt) && Before(a.url, b.url))
  }

  lemma OutranksIff(a: Raw, b: Raw)
    ensures Ahead(a, b) <==> Outranks(a, b)
    ensures Priority(a.kind) < Priority(b.kind) <==> IsBetterKind(a.kind, b.kind)
    ensures Priority(a.kind) == Priority(b.kind) <==> a.kind == b.kind
  {
  }

  // ----------------------------------------------------------------------------------------
  // The rows and what they say
  // ----------------------------------------------------------------------------------------

  /** Two reports of one job in one place: one id of one publisher, or one address when neither has an id. */
  predicate IsSameRow(a: Raw, b: Raw) {
    if a.publisherId.Some? then b.publisherId == a.publisherId && a.source == b.source
    else b.publisherId.None? && a.address == b.address
  }

  ghost predicate HasDateUnder(sources: seq<Raw>, r: Raw, date: int) {
    exists j :: 0 <= j < |sources| && IsSameRow(r, sources[j]) && sources[j].postedAt == Some(date)
  }

  /** The earliest date that a report of the row gives, none when none does. */
  ghost predicate IsFirstDate(sources: seq<Raw>, r: Raw, date: Option<int>) {
    if date.Some? then HasDateUnder(sources, r, date.value) && forall d :: HasDateUnder(sources, r, d) ==> date.value <= d
    else forall d :: !HasDateUnder(sources, r, d)
  }

  /** Report `i` is the first of the best kind among those of its row. */
  predicate IsLead(sources: seq<Raw>, i: nat)
    requires i < |sources|
  {
    forall j :: 0 <= j < |sources| && j != i && IsSameRow(sources[i], sources[j]) ==>
      IsBetterKind(sources[i].kind, sources[j].kind) || (i < j && sources[i].kind == sources[j].kind)
  }

  ghost predicate IsRowOf(c: Raw, sources: seq<Raw>, i: nat)
    requires i < |sources|
  {
    IsLead(sources, i) && c == sources[i].(postedAt := c.postedAt) && IsFirstDate(sources, c, c.postedAt)
  }

  lemma SameRowIff(a: Raw, b: Raw)
    ensures IsSameRow(a, b) <==> RecordIdentityOf(a) == RecordIdentityOf(b)
  {
  }

  lemma LeadIff(sources: seq<Raw>, i: nat)
    requires i < |sources|
    ensures Leads(sources, i) <==> IsLead(sources, i)
  {
    forall j | 0 <= j < |sources|
      ensures IsSameRow(sources[i], sources[j]) <==> RecordIdentityOf(sources[j]) == RecordIdentityOf(sources[i])
      ensures Priority(sources[i].kind) < Priority(sources[j].kind) <==> IsBetterKind(sources[i].kind, sources[j].kind)
      ensures Priority(sources[i].kind) == Priority(sources[j].kind) <==> sources[i].kind == sources[j].kind
    {
      SameRowIff(sources[i], sources[j]);
      OutranksIff(sources[i], sources[j]);
    }
    hide Priority, IsBetterKind, IsSameRow, RecordIdentityOf;
  }

  lemma FirstDateIs(sources: seq<Raw>, r: Raw)
    ensures IsFirstDate(sources, r, DateUnder(sources, RecordIdentityOf(r)))
  {
    DateUnderIsEarliest(sources, RecordIdentityOf(r));
    forall j | 0 <= j < |sources|
      ensures sources[j] in sources && (IsSameRow(r, sources[j]) <==> RecordIdentityOf(sources[j]) == RecordIdentityOf(r))
    {
      SameRowIff(r, sources[j]);
    }
    hide DateUnder, IsSameRow, RecordIdentityOf;
    var date := DateUnder(sources, RecordIdentityOf(r));
    if date.Some? {
      var x :| x in sources && RecordIdentityOf(x) == RecordIdentityOf(r) && x.postedAt == date;
      var j :| 0 <= j < |sources| && sources[j] == x;
      assert HasDateUnder(sources, r, date.value);
    }
  }

  ghost predicate HasRow(c: Raw, sources: seq<Raw>) {
    exists i :: 0 <= i < |sources| && IsRowOf(c, sources, i)
  }

  predicate IsAmong(r: Raw, rows: seq<Raw>) {
    exists i :: 0 <= i < |rows| && IsSameRow(r, rows[i])
  }

  /** Every row is its first best report, with the first date of all; no report is without its row; and no row is outranked later. */
  ghost predicate AreRowsOf(rows: seq<Raw>, sources: seq<Raw>) {
    && (forall c :: c in rows ==> HasRow(c, sources))
    && (forall r :: r in sources ==> IsAmong(r, rows))
    && (forall i, j :: 0 <= i < j < |rows| ==> !Outranks(rows[j], rows[i]) && !IsSameRow(rows[i], rows[j]))
  }

  lemma RowsAre(sources: seq<Raw>)
    ensures AreRowsOf(SortedRecords(Collapsed(sources)), sources)
  {
    var rows := SortedRecords(Collapsed(sources));
    forall c | c in rows
      ensures HasRow(c, sources)
    {
      RowIs(sources, c);
    }
    forall r | r in sources
      ensures IsAmong(r, rows)
    {
      var k := RowOf(sources, RecordIdentityOf(r));
      SortedRecordsMembers(Collapsed(sources), Collapsed(sources)[k]);
      SameRowIff(r, Collapsed(sources)[k]);
      var i :| 0 <= i < |rows| && rows[i] == Collapsed(sources)[k];
    }
    RowsStand(sources);
    hide RecordIdentityOf, IsSameRow, Ahead, Outranks;
    forall i, j | 0 <= i < j < |rows|
      ensures !Outranks(rows[j], rows[i]) && !IsSameRow(rows[i], rows[j])
    {
      assert StandsBefore(sources, rows[i], rows[j]);
      AheadIsAsymmetric(rows[i], rows[j]);
      OutranksIff(rows[j], rows[i]);
      SameRowIff(rows[i], rows[j]);
      OneRowPerIdentity(sources, i, j);
    }
  }

  lemma RowIs(sources: seq<Raw>, c: Raw)
    requires c in SortedRecords(Collapsed(sources))
    ensures HasRow(c, sources)
  {
    SortedRecordsMembers(Collapsed(sources), c);
    var a :| 0 <= a < |Collapsed(sources)| && Collapsed(sources)[a] == c;
    var i := CollapsedIsBest(sources, a);
    LeadIff(sources, i);
    FirstDateIs(sources, c);
    assert RecordIdentityOf(c) == RecordIdentityOf(sources[i]);
    hide Leads, IsLead, DateUnder, IsFirstDate, Collapsed;
    assert IsRowOf(c, sources, i);
  }

  lemma OneRowPerIdentity(sources: seq<Raw>, i: nat, j: nat)
    requires i < j < |SortedRecords(Collapsed(sources))|
    ensures var rows := SortedRecords(Collapsed(sources)); RecordIdentityOf(rows[i]) != RecordIdentityOf(rows[j])
  {
    var rows := SortedRecords(Collapsed(sources));
    SortedRecordsMembers(Collapsed(sources), rows[i]);
    SortedRecordsMembers(Collapsed(sources), rows[j]);
    RowsStand(sources);
    assert StandsBefore(sources, rows[i], rows[j]);
    AheadIsAsymmetric(rows[i], rows[i]);
    var a :| 0 <= a < |Collapsed(sources)| && Collapsed(sources)[a] == rows[i];
    var b :| 0 <= b < |Collapsed(sources)| && Collapsed(sources)[b] == rows[j];
    if a != b {
      DistinctRows(sources, a, b);
    }
  }

  /** The least date of some rows, those of an ATS alone or all. */
  ghost predicate IsLeastDate(rows: seq<Raw>, atsOnly: bool, date: int) {
    && (exists c :: c in rows && (atsOnly ==> c.kind == Ats) && c.postedAt == Some(date))
    && forall c :: c in rows && (atsOnly ==> c.kind == Ats) && c.postedAt.Some? ==> date <= c.postedAt.value
  }

  ghost predicate HasNoDate(rows: seq<Raw>, atsOnly: bool) {
    forall c :: c in rows && (atsOnly ==> c.kind == Ats) ==> c.postedAt.None?
  }

  ghost predicate IsEarliestOr(rows: seq<Raw>, fallback: int, date: int) {
    if HasNoDate(rows, false) then date == fallback else IsLeastDate(rows, false, date)
  }

  /** No ATS gives a later date for all its rows than `early`, which stands; or the least of theirs does. */
  ghost predicate IsFloored(rows: seq<Raw>, early: int, date: int) {
    if HasNoDate(rows, true) then date == early
    else exists ats :: IsLeastDate(rows, true, ats) && date == if ats > early then ats else early
  }

  /** The earliest date of all, the fallback when there is none, or the earliest of an ATS when that is later. */
  ghost predicate IsPostedAt(rows: seq<Raw>, fallback: int, date: int) {
    exists early :: IsEarliestOr(rows, fallback, early) && IsFloored(rows, early, date)
  }

  lemma LeastDateIs(rows: seq<Raw>, atsOnly: bool)
    ensures var least := LeastDate(rows, atsOnly);
      if least.Some? then IsLeastDate(rows, atsOnly, least.value) && !HasNoDate(rows, atsOnly) else HasNoDate(rows, atsOnly)
  {
    var least := LeastDate(rows, atsOnly);
    forall c | c in rows && (atsOnly ==> c.kind == Ats) && c.postedAt.Some?
      ensures least.Some? && least.value <= c.postedAt.value
    {
      LeastDateIsLeast(rows, atsOnly, c);
    }
    if least.Some? {
      var c := LeastDateIsReached(rows, atsOnly);
    }
  }

  lemma PostedAtIs(rows: seq<Raw>, fallback: int)
    ensures IsPostedAt(rows, fallback, PostedAt(rows, fallback))
  {
    LeastDateIs(rows, false);
    LeastDateIs(rows, true);
    hide IsLeastDate, HasNoDate, LeastDate;
    var least := LeastDate(rows, false);
    var early := if least.Some? then least.value else fallback;
    assert IsEarliestOr(rows, fallback, early) && IsFloored(rows, early, PostedAt(rows, fallback));
  }

  // ----------------------------------------------------------------------------------------
  // The posting
  // ----------------------------------------------------------------------------------------

  /** The report's company, title, place and publisher id make the key. */
  predicate IsKeyOf(r: Raw, k: Key) {
    && k.company == r.company && k.title == r.title
    && (if r.location.isRemote then k.place == RemoteKey
        else if r.location.city == r.location.state == r.location.country == "" then k.place == UnknownKey
        else k.place == OnsiteKey(r.location.city, r.location.state, r.location.country))
    && k.identity == (if r.publisherId.Some? then Some((r.source, r.publisherId.value)) else None)
  }

  /** The first report of a batch with the key has this location. */
  ghost predicate IsFirstPlaced(raws: seq<Raw>, k: Key, l: Location) {
    exists i :: 0 <= i < |raws| && IsKeyOf(raws[i], k) && raws[i].location == l && forall j :: 0 <= j < i ==> !IsKeyOf(raws[j], k)
  }

  ghost predicate IsUnoutranked(r: Raw, records: seq<Raw>) {
    forall s :: s in records ==> !Outranks(s, r)
  }

  /** What a posting shows of the reports of its job: the key of one that none outranks, and the page of the first row. */
  ghost predicate Displays(p: Posting, records: seq<Raw>, fallback: int) {
    && (exists r :: r in records && IsKeyOf(r, p.key) && IsUnoutranked(r, records))
    && p.sources != [] && AreRowsOf(p.sources, records) && IsPostedAt(p.sources, fallback, p.postedAt)
    && var first := p.sources[0];
       p.canonicalUrl == if first.applyHref.Some? then first.applyHref.value else if first.href.Some? then first.href.value else ""
  }

  lemma KeyIff(r: Raw, k: Key)
    ensures IsKeyOf(r, k) <==> KeyOf(r) == k
  {
  }

  /** The best ATS row is the first of all the rows. */
  lemma WinnerIsFirst(sources: seq<Raw>)
    requires sources != []
    ensures var rows := SortedRecords(Collapsed(sources)); rows != [] && Winner(rows) == rows[0]
  {
    var rows := SortedRecords(Collapsed(sources));
    CollapsedKeepsSome(sources);
    if rows[0].kind != Ats && exists i :: 0 <= i < |rows| && rows[i].kind == Ats {
      var i :| 0 <= i < |rows| && rows[i].kind == Ats;
      RowsStand(sources);
      assert StandsBefore(sources, rows[0], rows[i]);
      assert Ahead(rows[i], rows[0]);
      AheadIsAsymmetric(rows[i], rows[0]);
    }
  }

  lemma BestIsUnoutranked(records: seq<Raw>)
    requires records != []
    ensures IsUnoutranked(Best(records), records)
  {
    forall s | s in records
      ensures !Outranks(s, Best(records))
    {
      NobodyIsAheadOfBest(records, s);
      OutranksIff(s, Best(records));
    }
  }

  lemma MaterializedDisplays(g: Group, fallback: int)
    requires g.key == KeyOf(Best(g.sources))
    ensures Displays(Materialized(g, fallback), g.sources, fallback)
  {
    var p := Materialized(g, fallback);
    RowsAre(g.sources);
    WinnerIsFirst(g.sources);
    PostedAtIs(p.sources, fallback);
    BestIsUnoutranked(g.sources);
    KeyIff(Best(g.sources), p.key);
    MaterializedIs(g, fallback);
    hide Materialized, AreRowsOf, IsPostedAt, IsUnoutranked, SortedRecords, Collapsed, IsKeyOf, Best, Winner, PostedAt, KeyOf;
  }

  lemma MaterializedIs(g: Group, fallback: int)
    ensures var p, rows := Materialized(g, fallback), SortedRecords(Collapsed(g.sources));
      && p.key == g.key && p.sources == rows && p.postedAt == PostedAt(rows, fallback) && rows != []
      && p.canonicalUrl == if Winner(rows).applyHref.Some? then Winner(rows).applyHref.value
                           else if Winner(rows).href.Some? then Winner(rows).href.value else ""
  {
    CollapsedKeepsSome(g.sources);
    hide SortedRecords, Collapsed, Winner, PostedAt;
  }

  // ----------------------------------------------------------------------------------------
  // The whole batch
  // ----------------------------------------------------------------------------------------

  /** Every group keeps its key and location through a pass. */
  predicate ComesFrom(g: Group, groups: seq<Group>) {
    exists i :: 0 <= i < |groups| && groups[i].key == g.key && groups[i].location == g.location
  }

  lemma {:induction false} PlacedComeFrom(ranked: seq<Group>, pass: Pass)
    ensures forall g :: g in PlaceAll(ranked, pass) ==> ComesFrom(g, ranked)
  {
    hide CanMerge;
    if ranked != [] {
      var front, last := ranked[..|ranked| - 1], ranked[|ranked| - 1];
      PlacedComeFrom(front, pass);
      var kept := PlaceAll(front, pass);
      forall g | g in Place(kept, last, pass)
        ensures ComesFrom(g, ranked)
      {
        var k := TargetFrom(kept, last, pass, 0);
        if g in kept || (k < |kept| && g == Absorb(kept[k], last)) {
          var h := if g in kept then g else kept[k];
          assert h in kept && ComesFrom(h, front);
          var i :| 0 <= i < |front| && front[i].key == h.key && front[i].location == h.location;
          assert ranked[i].key == g.key && ranked[i].location == g.location;
        } else {
          assert g == last && ranked[|ranked| - 1] == last;
        }
      }
    }
  }

  lemma PassComesFrom(groups: seq<Group>, pass: Pass, g: Group)
    requires g in Merged(groups, pass)
    ensures ComesFrom(g, groups)
  {
    PlacedComeFrom(Ranked(groups), pass);
    var i :| 0 <= i < |Ranked(groups)| && Ranked(groups)[i].key == g.key && Ranked(groups)[i].location == g.location;
    RankedMembers(groups, Ranked(groups)[i]);
    var j :| 0 <= j < |groups| && groups[j] == Ranked(groups)[i];
  }

  lemma {:induction false} GroupedPlaced(raws: seq<Raw>, g: Group)
    requires g in Grouped(raws)
    ensures IsFirstPlaced(raws, g.key, g.location)
  {
    var front, r := raws[..|raws| - 1], raws[|raws| - 1];
    var groups := Grouped(front);
    var i := IndexOfKey(groups, KeyOf(r));
    hide IsKeyOf;
    KeyIff(r, g.key);
    if h :| h in groups && h.key == g.key && h.location == g.location {
      GroupedPlaced(front, h);
      var k :| 0 <= k < |front| && IsKeyOf(front[k], g.key) && front[k].location == g.location && forall j :: 0 <= j < k ==> !IsKeyOf(front[j], g.key);
      assert raws[k] == front[k] && forall j :: 0 <= j < k ==> raws[j] == front[j];
    } else {
      if i < |groups| {
        NotAddedAnew(groups, r, g, i);
      } else {
        assert g == NewGroup(r);
        NoneHasKey(front, KeyOf(r));
        assert raws[|raws| - 1] == r && forall j :: 0 <= j < |front| ==> raws[j] == front[j];
      }
    }
  }

  lemma NotAddedAnew(groups: seq<Group>, r: Raw, g: Group, i: nat)
    requires i < |groups| && g in groups[i := Joined(groups[i], r)]
    ensures exists h :: h in groups && h.key == g.key && h.location == g.location
  {
    var k :| 0 <= k < |groups| && groups[i := Joined(groups[i], r)][k] == g;
    assert groups[k] in groups && groups[k].key == g.key && groups[k].location == g.location;
  }

  lemma AddingKeepsKeys(groups: seq<Group>, r: Raw)
    ensures exists h :: h in AddRaw(groups, r) && h.key == KeyOf(r)
    ensures forall g :: g in groups ==> exists h :: h in AddRaw(groups, r) && h.key == g.key
  {
    hide KeyOf;
    var i := IndexOfKey(groups, KeyOf(r));
    var all := AddRaw(groups, r);
    assert all[i] in all && all[i].key == KeyOf(r);
    forall g | g in groups
      ensures exists h :: h in all && h.key == g.key
    {
      var n :| 0 <= n < |groups| && groups[n] == g;
      assert all[n] in all && all[n].key == g.key;
    }
  }

  lemma {:induction false} KeyIsGrouped(raws: seq<Raw>, j: nat)
    requires j < |raws|
    ensures exists g :: g in Grouped(raws) && g.key == KeyOf(raws[j])
  {
    hide KeyOf, AddRaw;
    var front, r := raws[..|raws| - 1], raws[|raws| - 1];
    AddingKeepsKeys(Grouped(front), r);
    if j < |front| {
      KeyIsGrouped(front, j);
      assert front[j] == raws[j];
    }
  }

  lemma NoneHasKey(raws: seq<Raw>, k: Key)
    requires forall g :: g in Grouped(raws) ==> g.key != k
    ensures forall j :: 0 <= j < |raws| ==> !IsKeyOf(raws[j], k)
  {
    hide Grouped, KeyOf, IsKeyOf;
    forall j | 0 <= j < |raws|
      ensures !IsKeyOf(raws[j], k)
    {
      KeyIsGrouped(raws, j);
      KeyIff(raws[j], k);
    }
  }

  lemma DedupedComeFrom(raws: seq<Raw>, g: Group)
    requires g in DedupedGroups(raws)
    ensures IsFirstPlaced(raws, g.key, g.location)
  {
    hide Merged, Grouped, IsFirstPlaced;
    var a := Merged(Grouped(raws), SharedIdentity);
    var b := Merged(a, NearDuplicate);
    PassComesFrom(b, RemoteVersusCity, g);
    var i :| 0 <= i < |b| && b[i].key == g.key && b[i].location == g.location;
    PassComesFrom(a, NearDuplicate, b[i]);
    var j :| 0 <= j < |a| && a[j].key == g.key && a[j].location == g.location;
    PassComesFrom(Grouped(raws), SharedIdentity, a[j]);
    var k :| 0 <= k < |Grouped(raws)| && Grouped(raws)[k].key == g.key && Grouped(raws)[k].location == g.location;
    GroupedPlaced(raws, Grouped(raws)[k]);
  }

  /** So every posting of a batch displays the reports of its job, and has the location first reported under its key. */
  lemma BatchDisplays(raws: seq<Raw>, fallback: int, i: nat)
    requires i < |DedupedGroups(raws)|
    ensures var p, g := MaterializedAll(DedupedGroups(raws), fallback)[i], DedupedGroups(raws)[i];
      Displays(p, g.sources, fallback) && IsFirstPlaced(raws, p.key, p.location)
  {
    var g := DedupedGroups(raws)[i];
    MaterializedAt(DedupedGroups(raws), fallback, i);
    DedupedGroupsAreSound(raws);
    assert g in DedupedGroups(raws);
    DedupedComeFrom(raws, g);
    hide DedupedGroups, MaterializedAll, Displays, IsFirstPlaced;
    MaterializedDisplays(g, fallback);
  }
}
