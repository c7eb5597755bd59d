/** The rows that two layouts of the same records show: exactly when they are the same rows in the same order. */
module DedupeShown {
  import opened Options
  import opened Dedupe
  import opened DedupeLaws
  import opened DedupeOrder
  import opened DedupeParts
  import opened DedupeRows

  /** A record apart from its date. */
  function Undated(r: Raw): Raw {
    r.(postedAt := None)
  }

  /** What a source row of a posting holds of a record: not its page, company, title and location. */
  function Row(r: Raw): Raw {
    r.(page := None, company := "", title := "", location := Location(false, "", "", ""))
  }

  function RowsOf(rows: seq<Raw>): (s: seq<Raw>)
    ensures |s| == |rows| && forall i :: 0 <= i < |rows| ==> s[i] == Row(rows[i])
  {
    if rows == [] then [] else RowsOf(rows[..|rows| - 1]) + [Row(rows[|rows| - 1])]
  }

  /** The rows of a posting, as they are shown. */
  function ShownRows(s: seq<Raw>): seq<Raw> {
    RowsOf(SortedRecords(Collapsed(s)))
  }

  // ----------------------------------------------------------------------------------------
  // The condition
  // ----------------------------------------------------------------------------------------

  /** Of one key, identity and rank. */
  predicate Rivals(r: Raw, q: Raw) {
    RecordIdentityOf(r) == RecordIdentityOf(q) && Priority(r.kind) == Priority(q.kind) && KeyOf(r) == KeyOf(q)
  }

  /** The record that a row is of looks like each of its rivals, their dates aside. */
  ghost predicate LeadersSettled(sources: seq<Raw>) {
    forall i, j :: 0 <= i < |sources| && 0 <= j < |sources| && Leads(sources, i) && Rivals(sources[i], sources[j]) ==>
      Undated(Row(sources[i])) == Undated(Row(sources[j]))
  }

  /** The key of the first record under an identity. */
  function FirstKey(sources: seq<Raw>, id: RecordIdentity): Option<Key> {
    var i := IndexOfIdentity(sources, id);
    if i < |sources| then Some(KeyOf(sources[i])) else None
  }

  /** The first records of two tied rows are of different keys. */
  ghost predicate TiesSettled(sources: seq<Raw>) {
    var rows := Collapsed(sources);
    forall a, b :: 0 <= a < |rows| && 0 <= b < |rows| && a != b && Tied(rows[a], rows[b]) ==>
      FirstKey(sources, RecordIdentityOf(rows[a])) != FirstKey(sources, RecordIdentityOf(rows[b]))
  }

  // ----------------------------------------------------------------------------------------
  // Rows of two layouts of the same parts
  // ----------------------------------------------------------------------------------------

  /** Layouts of one bag of records, their keys in one order. */
  ghost predicate SameLayout(s: seq<Raw>, t: seq<Raw>, keys: seq<Key>) {
    multiset(s) == multiset(t) && InOrder(s, keys) && InOrder(t, keys)
  }

  lemma IndexIn(s: seq<Raw>, t: seq<Raw>, i: nat) returns (j: nat)
    requires multiset(s) == multiset(t) && i < |s|
    ensures j < |t| && t[j] == s[i]
  {
    assert s[i] in multiset(t);
    j :| 0 <= j < |t| && t[j] == s[i];
  }

  lemma SameLeaderKey(s: seq<Raw>, t: seq<Raw>, keys: seq<Key>, i: nat, j: nat)
    requires SameLayout(s, t, keys)
    requires i < |s| && j < |t| && Leads(s, i) && Leads(t, j) && RecordIdentityOf(s[i]) == RecordIdentityOf(t[j])
    ensures Rivals(s[i], t[j])
  {
    hide KeyOf, InOrder;
    var m := IndexIn(s, t, i);
    var n := IndexIn(t, s, j);
    FirstsShareAKey(s, t, keys, i, j, m, n);
  }

  /** Two layouts of settled parts give an identity one row. */
  lemma SameRow(s: seq<Raw>, t: seq<Raw>, keys: seq<Key>, a: nat, b: nat)
    requires SameLayout(s, t, keys) && LeadersSettled(s)
    requires a < |Collapsed(s)| && b < |Collapsed(t)| && RecordIdentityOf(Collapsed(s)[a]) == RecordIdentityOf(Collapsed(t)[b])
    ensures Row(Collapsed(s)[a]) == Row(Collapsed(t)[b])
  {
    var i := CollapsedIsBest(s, a);
    var j := CollapsedIsBest(t, b);
    SameRecordsSameSummary(s, t, RecordIdentityOf(s[i]));
    hide Collapsed, KeyOf, InOrder;
    SameLeaderKey(s, t, keys, i, j);
    var n := IndexIn(t, s, j);
    assert Undated(Row(s[i])) == Undated(Row(s[n]));
    UndatedRow(s[i], t[j], DateUnder(s, RecordIdentityOf(s[i])));
  }

  lemma UndatedRow(r: Raw, q: Raw, d: Option<int>)
    requires Undated(Row(r)) == Undated(Row(q))
    ensures Row(r.(postedAt := d)) == Row(q.(postedAt := d))
  {
    assert Row(r.(postedAt := d)) == Undated(Row(r)).(postedAt := d);
    assert Row(q.(postedAt := d)) == Undated(Row(q)).(postedAt := d);
  }

  lemma SameFirstKey(s: seq<Raw>, t: seq<Raw>, keys: seq<Key>, id: RecordIdentity)
    requires SameLayout(s, t, keys) && IndexOfIdentity(s, id) < |s|
    ensures IndexOfIdentity(t, id) < |t| && FirstKey(s, id) == FirstKey(t, id)
  {
    hide KeyOf, InOrder, RecordIdentityOf;
    var i, j := IndexOfIdentity(s, id), IndexOfIdentity(t, id);
    var m := IndexIn(s, t, i);
    var n := IndexIn(t, s, j);
    FirstsShareAKey(s, t, keys, i, j, m, n);
  }

  lemma PlacesDecide(s: seq<Raw>, keys: seq<Key>, i: nat, j: nat)
    requires InOrder(s, keys) && i < |s| && j < |s| && KeyOf(s[i]) != KeyOf(s[j])
    ensures i < j <==> PlaceOf(keys, KeyOf(s[i])) < PlaceOf(keys, KeyOf(s[j]))
  {
    hide KeyOf;
  }

  lemma EarlierInBoth(s: seq<Raw>, t: seq<Raw>, keys: seq<Key>, id: RecordIdentity, id': RecordIdentity)
    requires SameLayout(s, t, keys) && IndexOfIdentity(s, id) < |s| && IndexOfIdentity(s, id') < |s|
    requires FirstKey(s, id) != FirstKey(s, id') && IndexOfIdentity(t, id) < IndexOfIdentity(t, id')
    ensures IndexOfIdentity(s, id) < IndexOfIdentity(s, id')
  {
    hide InOrder, RecordIdentityOf, IndexOfIdentity, PlaceOf, KeyOf;
    SameFirstKey(s, t, keys, id);
    SameFirstKey(s, t, keys, id');
    PlacesDecide(t, keys, IndexOfIdentity(t, id), IndexOfIdentity(t, id'));
    PlacesDecide(s, keys, IndexOfIdentity(s, id), IndexOfIdentity(s, id'));
  }

  lemma IdentityAppears(s: seq<Raw>, a: nat)
    requires a < |Collapsed(s)|
    ensures IndexOfIdentity(s, RecordIdentityOf(Collapsed(s)[a])) < |s|
  {
    var i := CollapsedIsBest(s, a);
    SameIdentity(Collapsed(s)[a], s, i);
  }

  /** Each row of `s` is one of `t`. */
  lemma PartnerIndex(s: seq<Raw>, t: seq<Raw>, a: nat) returns (b: nat)
    requires multiset(s) == multiset(t) && a < |Collapsed(s)|
    ensures b < |Collapsed(t)| && RecordIdentityOf(Collapsed(s)[a]) == RecordIdentityOf(Collapsed(t)[b])
  {
    CollapsedSummarizes(s, a);
    SameRecordsSameSummary(s, t, RecordIdentityOf(Collapsed(s)[a]));
    b := RowOf(t, RecordIdentityOf(Collapsed(s)[a]));
  }

  lemma RowAlike(c: Raw, d: Raw, e: Raw, f: Raw)
    requires Row(c) == Row(d) && Row(e) == Row(f)
    ensures RecordIdentityOf(c) == RecordIdentityOf(d) && RecordIdentityOf(e) == RecordIdentityOf(f)
    ensures (Ahead(c, e) <==> Ahead(d, f)) && (Tied(c, e) <==> Tied(d, f))
  {
    SameRank(c);
    SameRank(d);
    SameRank(e);
    SameRank(f);
  }

  lemma SameRank(c: Raw)
    ensures RecordIdentityOf(Row(c)) == RecordIdentityOf(c)
    ensures Row(c).kind == c.kind && Row(c).postedAt == c.postedAt && Row(c).url == c.url
  {
  }

  /** Two rows of `t` stand as they would in `s`, when the parts are settled. */
  lemma StandAlike(s: seq<Raw>, t: seq<Raw>, keys: seq<Key>, a: nat, b: nat)
    requires SameLayout(s, t, keys) && LeadersSettled(s) && TiesSettled(s)
    requires a < |Collapsed(t)| && b < |Collapsed(t)| && a != b && StandsBefore(t, Collapsed(t)[a], Collapsed(t)[b])
    ensures StandsBefore(s, Collapsed(t)[a], Collapsed(t)[b])
  {
    var c, d := Collapsed(t)[a], Collapsed(t)[b];
    var m := PartnerIndex(t, s, a);
    var n := PartnerIndex(t, s, b);
    DistinctRows(t, a, b);
    SameRow(s, t, keys, m, a);
    SameRow(s, t, keys, n, b);
    IdentityAppears(s, m);
    IdentityAppears(s, n);
    hide Collapsed, Ahead, LeadersSettled, SameLayout, RecordIdentityOf, Row, FirstKey;
    RowAlike(Collapsed(s)[m], c, Collapsed(s)[n], d);
    if !Ahead(c, d) {
      EarlierInBoth(s, t, keys, RecordIdentityOf(c), RecordIdentityOf(d));
    }
  }

  // ----------------------------------------------------------------------------------------
  // Settled groups have one list of rows
  // ----------------------------------------------------------------------------------------

  lemma RowAt(s: seq<Raw>, i: nat) returns (a: nat)
    requires i < |SortedRecords(Collapsed(s))|
    ensures a < |Collapsed(s)| && Collapsed(s)[a] == SortedRecords(Collapsed(s))[i]
  {
    var c := SortedRecords(Collapsed(s))[i];
    SortedRecordsMembers(Collapsed(s), c);
    a :| 0 <= a < |Collapsed(s)| && Collapsed(s)[a] == c;
  }

  lemma RowIsShown(s: seq<Raw>, a: nat) returns (i: nat)
    requires a < |Collapsed(s)|
    ensures i < |ShownRows(s)| && ShownRows(s)[i] == Row(Collapsed(s)[a])
  {
    var c := Collapsed(s)[a];
    SortedRecordsMembers(Collapsed(s), c);
    i :| 0 <= i < |SortedRecords(Collapsed(s))| && SortedRecords(Collapsed(s))[i] == c;
  }

  lemma ShownStandAlike(s: seq<Raw>, c: Raw, d: Raw)
    ensures StandsBefore(s, Row(c), Row(d)) <==> StandsBefore(s, c, d)
  {
    SameRank(c);
    SameRank(d);
    hide RecordIdentityOf, Row, IndexOfIdentity;
  }

  lemma SortedStandAlike(s: seq<Raw>, t: seq<Raw>, keys: seq<Key>)
    requires SameLayout(s, t, keys) && LeadersSettled(s) && TiesSettled(s)
    ensures AllStand(s, ShownRows(t))
  {
    hide Collapsed, SortedRecords, SameLayout, LeadersSettled, TiesSettled, StandsBefore, Row;
    RowsStand(t);
    var y := SortedRecords(Collapsed(t));
    forall i, j | 0 <= i < j < |y|
      ensures StandsBefore(s, ShownRows(t)[i], ShownRows(t)[j])
    {
      var a := RowAt(t, i);
      var b := RowAt(t, j);
      StandingIsAsymmetric(t, y[i], y[j]);
      StandAlike(s, t, keys, a, b);
      ShownStandAlike(s, y[i], y[j]);
    }
  }

  lemma ShownInBoth(s: seq<Raw>, t: seq<Raw>, keys: seq<Key>, i: nat) returns (j: nat)
    requires SameLayout(s, t, keys) && LeadersSettled(s) && i < |ShownRows(s)|
    ensures j < |ShownRows(t)| && ShownRows(t)[j] == ShownRows(s)[i]
  {
    var a := RowAt(s, i);
    var b := PartnerIndex(s, t, a);
    SameRow(s, t, keys, a, b);
    j := RowIsShown(t, b);
  }

  lemma ShownInBothBack(s: seq<Raw>, t: seq<Raw>, keys: seq<Key>, j: nat) returns (i: nat)
    requires SameLayout(s, t, keys) && LeadersSettled(s) && j < |ShownRows(t)|
    ensures i < |ShownRows(s)| && ShownRows(t)[j] == ShownRows(s)[i]
  {
    var b := RowAt(t, j);
    var a := PartnerIndex(t, s, b);
    SameRow(s, t, keys, a, b);
    i := RowIsShown(s, a);
  }

  /** Two layouts of settled parts show the same rows in the same order. */
  lemma SettledShowTheSame(s: seq<Raw>, t: seq<Raw>, keys: seq<Key>)
    requires SameLayout(s, t, keys) && LeadersSettled(s) && TiesSettled(s)
    ensures ShownRows(s) == ShownRows(t)
  {
    hide ShownRows, LeadersSettled, TiesSettled;
    SortedStandAlike(s, s, keys);
    SortedStandAlike(s, t, keys);
    hide SameLayout;
    forall c
      ensures c in ShownRows(s) <==> c in ShownRows(t)
    {
      if c in ShownRows(s) {
        var i :| 0 <= i < |ShownRows(s)| && ShownRows(s)[i] == c;
        var j := ShownInBoth(s, t, keys, i);
      }
      if c in ShownRows(t) {
        var j :| 0 <= j < |ShownRows(t)| && ShownRows(t)[j] == c;
        var i := ShownInBothBack(s, t, keys, j);
      }
    }
    StandingIsUnique(s, ShownRows(s), ShownRows(t));
  }

  // ----------------------------------------------------------------------------------------
  // Rows that are not settled change when a record comes first of its key
  // ----------------------------------------------------------------------------------------

  lemma ShownRowsAgree(s: seq<Raw>, t: seq<Raw>, a: nat, b: nat)
    requires ShownRows(s) == ShownRows(t)
    requires a < |Collapsed(s)| && b < |Collapsed(t)| && RecordIdentityOf(Collapsed(s)[a]) == RecordIdentityOf(Collapsed(t)[b])
    ensures Row(Collapsed(s)[a]) == Row(Collapsed(t)[b])
  {
    var i := RowIsShown(s, a);
    var b' := RowAt(t, i);
    SameRank(Collapsed(s)[a]);
    SameRank(Collapsed(t)[b']);
    hide RecordIdentityOf, Collapsed;
    if b' != b {
      DistinctRows(t, b, b');
    }
  }

  /** What stands before the first record of a key in one layout stands before every record of the key in the other. */
  lemma StandsEarlier(s: seq<Raw>, t: seq<Raw>, keys: seq<Key>, i: nat, m: nat, n: nat) returns (j: nat)
    requires SameLayout(s, t, keys) && i < |s| && n < m < |t| && FirstOfKey(t, m) && KeyOf(s[i]) == KeyOf(t[m])
    ensures j < i && s[j] == t[n]
  {
    hide KeyOf;
    j := IndexIn(t, s, n);
    assert KeyOf(t[n]) != KeyOf(t[m]);
  }

  lemma LeadsFromTheFront(s: seq<Raw>, t: seq<Raw>, keys: seq<Key>, i: nat, m: nat)
    requires SameLayout(s, t, keys) && i < |s| && m < |t| && Leads(s, i) && Rivals(s[i], t[m]) && FirstOfKey(t, m)
    ensures Leads(t, m)
  {
    hide RecordIdentityOf, Priority, SameLayout, FirstOfKey, KeyOf;
    forall n | 0 <= n < |t| && RecordIdentityOf(t[n]) == RecordIdentityOf(t[m])
      ensures Priority(t[m].kind) <= Priority(t[n].kind) && (n < m ==> Priority(t[m].kind) < Priority(t[n].kind))
    {
      if n < m {
        var j := StandsEarlier(s, t, keys, i, m, n);
      } else {
        var j := IndexBack(s, t, keys, n);
      }
    }
  }

  lemma IndexBack(s: seq<Raw>, t: seq<Raw>, keys: seq<Key>, n: nat) returns (j: nat)
    requires SameLayout(s, t, keys) && n < |t|
    ensures j < |s| && s[j] == t[n]
  {
    j := IndexIn(t, s, n);
  }

  lemma UndatedAgain(r: Raw, d: Option<int>)
    ensures Undated(Row(r.(postedAt := d))) == Undated(Row(r))
  {
  }

  lemma LeadersDiffer(s: seq<Raw>, t: seq<Raw>, i: nat, m: nat)
    requires i < |s| && m < |t| && Leads(s, i) && Leads(t, m) && RecordIdentityOf(s[i]) == RecordIdentityOf(t[m])
    requires Undated(Row(s[i])) != Undated(Row(t[m]))
    ensures ShownRows(t) != ShownRows(s)
  {
    var id := RecordIdentityOf(s[i]);
    var a := RowOf(s, id);
    var b := RowOf(t, id);
    var j := CollapsedIsBest(s, a);
    var n := CollapsedIsBest(t, b);
    assert j == i && n == m;
    UndatedAgain(s[i], DateUnder(s, id));
    UndatedAgain(t[m], DateUnder(t, id));
    hide RecordIdentityOf, Collapsed, Row, Undated, KeyOf, Leads;
    if ShownRows(t) == ShownRows(s) {
      ShownRowsAgree(s, t, a, b);
    }
  }

  /** A rival of a leader that looks different changes its row when it comes first of their key. */
  lemma LeaderIsSeen(s: seq<Raw>, t: seq<Raw>, keys: seq<Key>, i: nat, m: nat)
    requires SameLayout(s, t, keys) && i < |s| && m < |t| && Leads(s, i) && FirstOfKey(t, m)
    requires Rivals(s[i], t[m]) && Undated(Row(s[i])) != Undated(Row(t[m]))
    ensures ShownRows(t) != ShownRows(s)
  {
    LeadsFromTheFront(s, t, keys, i, m);
    hide RecordIdentityOf, SameLayout, Leads, Row, Undated;
    LeadersDiffer(s, t, i, m);
  }

  /** The first record under an identity, moved to the front of its key, overtakes the identities that the key began with. */
  lemma FirstOvertakes(s: seq<Raw>, t: seq<Raw>, keys: seq<Key>, id: RecordIdentity, id': RecordIdentity, m: nat)
    requires SameLayout(s, t, keys) && IndexOfIdentity(s, id) < IndexOfIdentity(s, id') < |s|
    requires FirstKey(s, id) == FirstKey(s, id') && m < |t| && FirstOfKey(t, m) && t[m] == s[IndexOfIdentity(s, id')]
    ensures IndexOfIdentity(t, id') < IndexOfIdentity(t, id)
  {
    hide RecordIdentityOf, SameLayout, FirstOfKey, KeyOf;
    var i := IndexOfIdentity(s, id);
    forall n | 0 <= n < m
      ensures RecordIdentityOf(t[n]) != id
    {
      var j := StandsEarlier(s, t, keys, i, m, n);
    }
    assert RecordIdentityOf(t[m]) == id' != id;
  }

  lemma OrderIsSeen(s: seq<Raw>, t: seq<Raw>, a: nat, b: nat)
    requires a < |Collapsed(s)| && b < |Collapsed(s)| && Tied(Collapsed(s)[a], Collapsed(s)[b])
    requires var id, id' := RecordIdentityOf(Collapsed(s)[a]), RecordIdentityOf(Collapsed(s)[b]);
      IndexOfIdentity(s, id) < IndexOfIdentity(s, id') && IndexOfIdentity(t, id') < IndexOfIdentity(t, id)
    ensures ShownRows(s) != ShownRows(t)
  {
    var c, d := Collapsed(s)[a], Collapsed(s)[b];
    var i := RowIsShown(s, a);
    var j := RowIsShown(s, b);
    SameRank(c);
    SameRank(d);
    ShownStand(s);
    ShownStand(t);
    hide RecordIdentityOf, Row, ShownRows, Collapsed;
    TiedStand(s, ShownRows(s), i, j);
    if ShownRows(s) == ShownRows(t) {
      TiedStand(t, ShownRows(t), i, j);
    }
  }

  lemma TiedStand(s: seq<Raw>, rows: seq<Raw>, i: nat, j: nat)
    requires AllStand(s, rows) && i < |rows| && j < |rows| && Tied(rows[i], rows[j])
    ensures i < j ==> IndexOfIdentity(s, RecordIdentityOf(rows[i])) < IndexOfIdentity(s, RecordIdentityOf(rows[j]))
    ensures j < i ==> IndexOfIdentity(s, RecordIdentityOf(rows[j])) < IndexOfIdentity(s, RecordIdentityOf(rows[i]))
  {
    if i < j {
      assert StandsBefore(s, rows[i], rows[j]);
    } else if j < i {
      assert StandsBefore(s, rows[j], rows[i]);
    }
  }

  lemma ShownStand(s: seq<Raw>)
    ensures AllStand(s, ShownRows(s))
  {
    RowsStand(s);
    hide StandsBefore, Row, Collapsed;
    var y := SortedRecords(Collapsed(s));
    forall i, j | 0 <= i < j < |y|
      ensures StandsBefore(s, ShownRows(s)[i], ShownRows(s)[j])
    {
      ShownStandAlike(s, y[i], y[j]);
    }
  }

  /** Two tied rows whose first records are of one key, in the order in which these appear. */
  ghost predicate TiedInOneKey(s: seq<Raw>, a: nat, b: nat) {
    && a < |Collapsed(s)| && b < |Collapsed(s)| && Tied(Collapsed(s)[a], Collapsed(s)[b])
    && var id, id' := RecordIdentityOf(Collapsed(s)[a]), RecordIdentityOf(Collapsed(s)[b]);
       FirstKey(s, id) == FirstKey(s, id') && IndexOfIdentity(s, id) < IndexOfIdentity(s, id') < |s|
  }

  lemma UnsettledTie(s: seq<Raw>) returns (a: nat, b: nat)
    requires !TiesSettled(s)
    ensures TiedInOneKey(s, a, b)
  {
    hide RecordIdentityOf, Collapsed, FirstKey, Tied;
    var rows := Collapsed(s);
    a, b :| 0 <= a < |rows| && 0 <= b < |rows| && a != b && Tied(rows[a], rows[b]) &&
      FirstKey(s, RecordIdentityOf(rows[a])) == FirstKey(s, RecordIdentityOf(rows[b]));
    IdentityAppears(s, a);
    IdentityAppears(s, b);
    DistinctRows(s, a, b);
    TiedIsSymmetric(rows[a], rows[b]);
    if IndexOfIdentity(s, RecordIdentityOf(rows[a])) > IndexOfIdentity(s, RecordIdentityOf(rows[b])) {
      a, b := b, a;
    }
  }

  /** They trade places, or change, when the later one comes first of its key. */
  lemma TieIsSeen(s: seq<Raw>, t: seq<Raw>, keys: seq<Key>, a: nat, b: nat, m: nat)
    requires SameLayout(s, t, keys) && TiedInOneKey(s, a, b)
    requires m < |t| && FirstOfKey(t, m) && t[m] == s[IndexOfIdentity(s, RecordIdentityOf(Collapsed(s)[b]))]
    ensures ShownRows(t) != ShownRows(s)
  {
    hide RecordIdentityOf, Collapsed, ShownRows, KeyOf, SameLayout, FirstOfKey, FirstKey, Tied;
    FirstOvertakes(s, t, keys, RecordIdentityOf(Collapsed(s)[a]), RecordIdentityOf(Collapsed(s)[b]), m);
    OrderIsSeen(s, t, a, b);
  }
}
