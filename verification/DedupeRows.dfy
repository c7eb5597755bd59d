/** The rows of a posting: which record each of them is, and in what order they stand. */
module DedupeRows {
  import opened Options
  import opened TextOrder
  import opened Dedupe
  import opened DedupeLaws
  import opened DedupeOrder

  // ----------------------------------------------------------------------------------------
  // Which record a row is
  // ----------------------------------------------------------------------------------------

  /** The first of the best-ranked records under its identity. */
  ghost predicate Leads(sources: seq<Raw>, i: nat)
    requires i < |sources|
  {
    forall j :: 0 <= j < |sources| && RecordIdentityOf(sources[j]) == RecordIdentityOf(sources[i]) ==>
      && Priority(sources[i].kind) <= Priority(sources[j].kind)
      && (j < i ==> Priority(sources[i].kind) < Priority(sources[j].kind))
  }

  ghost predicate IsRow(c: Raw, sources: seq<Raw>, i: nat)
    requires i < |sources|
  {
    Leads(sources, i) && c == sources[i].(postedAt := DateUnder(sources, RecordIdentityOf(sources[i])))
  }

  lemma DistinctRows(sources: seq<Raw>, a: nat, b: nat)
    requires a < |Collapsed(sources)| && b < |Collapsed(sources)| && a != b
    ensures RecordIdentityOf(Collapsed(sources)[a]) != RecordIdentityOf(Collapsed(sources)[b])
  {
    CollapsedSummarizes(sources, a);
    CollapsedSummarizes(sources, b);
  }

  lemma RowOverMore(c: Raw, front: seq<Raw>, r: Raw, i: nat)
    requires i < |front| && IsRow(c, front, i) && RecordIdentityOf(r) != RecordIdentityOf(c)
    ensures IsRow(c, front + [r], i)
  {
    NextRecord(front, r, RecordIdentityOf(c));
  }

  lemma CombinedIsRow(held: Raw, front: seq<Raw>, r: Raw, i: nat)
    requires i < |front| && IsRow(held, front, i) && RecordIdentityOf(r) == RecordIdentityOf(held)
    ensures IsRow(Combined(held, r), front + [r], if Priority(r.kind) < Priority(held.kind) then |front| else i)
  {
    NextRecord(front, r, RecordIdentityOf(held));
  }

  lemma NewIsRow(front: seq<Raw>, r: Raw)
    requires IndexOfIdentity(Collapsed(front), RecordIdentityOf(r)) == |Collapsed(front)|
    ensures IsRow(r, front + [r], |front|)
  {
    if NamedIn(front, RecordIdentityOf(r)) {
      var j := RowOf(front, RecordIdentityOf(r));
    }
    UnnamedHasNoDate(front, RecordIdentityOf(r));
    NextRecord(front, r, RecordIdentityOf(r));
  }

  /** Each row is the first of the best-ranked records under its identity, with the earliest date among them. */
  lemma {:induction false} CollapsedIsBest(sources: seq<Raw>, a: nat) returns (i: nat)
    requires a < |Collapsed(sources)|
    ensures i < |sources| && IsRow(Collapsed(sources)[a], sources, i)
  {
    var front, r := sources[..|sources| - 1], sources[|sources| - 1];
    assert sources == front + [r];
    var rows := Collapsed(front);
    var k := IndexOfIdentity(rows, RecordIdentityOf(r));
    hide IsRow, Combined;
    if a < |rows| {
      i := CollapsedIsBest(front, a);
      if a == k {
        CombinedIsRow(rows[a], front, r, i);
        i := if Priority(r.kind) < Priority(rows[a].kind) then |front| else i;
      } else {
        if k < |rows| {
          DistinctRows(front, a, k);
        }
        RowOverMore(rows[a], front, r, i);
      }
    } else {
      i := |front|;
      NewIsRow(front, r);
    }
  }

  // ----------------------------------------------------------------------------------------
  // The order of rows
  // ----------------------------------------------------------------------------------------

  lemma FirstInMore(front: seq<Raw>, r: Raw, id: RecordIdentity)
    ensures IndexOfIdentity(front + [r], id) ==
      if IndexOfIdentity(front, id) < |front| then IndexOfIdentity(front, id)
      else if RecordIdentityOf(r) == id then |front| else |front| + 1
  {
    assert (front + [r])[..|front|] == front;
  }

  lemma AddingKeepsIdentities(rows: seq<Raw>, r: Raw, a: nat)
    requires a < |AddRecord(rows, r)|
    ensures RecordIdentityOf(AddRecord(rows, r)[a]) == if a < |rows| then RecordIdentityOf(rows[a]) else RecordIdentityOf(r)
    ensures a >= |rows| ==> forall j :: 0 <= j < |rows| ==> RecordIdentityOf(rows[j]) != RecordIdentityOf(r)
  {
  }

  lemma {:induction false} RowsComeInOrder(sources: seq<Raw>, a: nat, b: nat)
    requires a < b < |Collapsed(sources)|
    ensures IndexOfIdentity(sources, RecordIdentityOf(Collapsed(sources)[a])) <
      IndexOfIdentity(sources, RecordIdentityOf(Collapsed(sources)[b]))
  {
    var front, r := sources[..|sources| - 1], sources[|sources| - 1];
    assert sources == front + [r];
    var rows := Collapsed(front);
    AddingKeepsIdentities(rows, r, a);
    AddingKeepsIdentities(rows, r, b);
    hide RecordIdentityOf, AddRecord, IsRow, IndexOfIdentity;
    var i := CollapsedIsBest(front, a);
    SameIdentity(rows[a], front, i);
    FirstInMore(front, r, RecordIdentityOf(rows[a]));
    if b < |rows| {
      RowsComeInOrder(front, a, b);
      var j := CollapsedIsBest(front, b);
      SameIdentity(rows[b], front, j);
      FirstInMore(front, r, RecordIdentityOf(rows[b]));
    } else {
      NewIsFirst(front, r);
      FirstInMore(front, r, RecordIdentityOf(r));
    }
  }

  lemma NewIsFirst(front: seq<Raw>, r: Raw)
    requires forall j :: 0 <= j < |Collapsed(front)| ==> RecordIdentityOf(Collapsed(front)[j]) != RecordIdentityOf(r)
    ensures IndexOfIdentity(front, RecordIdentityOf(r)) == |front|
  {
    if NamedIn(front, RecordIdentityOf(r)) {
      var j := RowOf(front, RecordIdentityOf(r));
    }
  }

  lemma SameIdentity(c: Raw, sources: seq<Raw>, i: nat)
    requires i < |sources| && IsRow(c, sources, i)
    ensures RecordIdentityOf(c) == RecordIdentityOf(sources[i])
    ensures IndexOfIdentity(sources, RecordIdentityOf(c)) <= i
  {
  }

  /** Ranked ahead, or tied and under the identity that appears first. */
  ghost predicate StandsBefore(sources: seq<Raw>, c: Raw, d: Raw) {
    || Ahead(c, d)
    || (Tied(c, d) && IndexOfIdentity(sources, RecordIdentityOf(c)) < IndexOfIdentity(sources, RecordIdentityOf(d)))
  }

  ghost predicate AllStand(sources: seq<Raw>, rows: seq<Raw>) {
    forall i, j :: 0 <= i < j < |rows| ==> StandsBefore(sources, rows[i], rows[j])
  }

  lemma OneAfterAnother(sources: seq<Raw>, c: Raw, last: Raw, r: Raw)
    requires StandsBefore(sources, c, last) && !Ahead(r, last)
    requires IndexOfIdentity(sources, RecordIdentityOf(c)) < IndexOfIdentity(sources, RecordIdentityOf(r))
    ensures StandsBefore(sources, c, r)
  {
    AheadIsAsymmetric(c, last);
    NotBehindIsTransitive(r, last, c);
  }

  lemma {:induction false} InsertedStand(sources: seq<Raw>, sorted: seq<Raw>, r: Raw)
    requires AllStand(sources, sorted)
    requires forall c :: c in sorted ==>
      IndexOfIdentity(sources, RecordIdentityOf(c)) < IndexOfIdentity(sources, RecordIdentityOf(r))
    ensures AllStand(sources, RecordInsert(sorted, r))
  {
    hide RecordIdentityOf, Ahead, IndexOfIdentity;
    if sorted != [] {
      var front, last := sorted[..|sorted| - 1], sorted[|sorted| - 1];
      assert last in sorted && forall c :: c in front ==> c in sorted;
      if Ahead(r, last) {
        InsertedStand(sources, front, r);
        var inner := RecordInsert(front, r);
        forall i | 0 <= i < |inner|
          ensures StandsBefore(sources, inner[i], last)
        {
          RecordInsertMembers(front, r, inner[i]);
        }
      } else {
        forall i | 0 <= i < |sorted|
          ensures StandsBefore(sources, sorted[i], r)
        {
          if i < |sorted| - 1 {
            OneAfterAnother(sources, sorted[i], last, r);
          }
        }
      }
    }
  }

  lemma {:induction false} SortedStand(sources: seq<Raw>, rows: seq<Raw>)
    requires forall a, b :: 0 <= a < b < |rows| ==>
      IndexOfIdentity(sources, RecordIdentityOf(rows[a])) < IndexOfIdentity(sources, RecordIdentityOf(rows[b]))
    ensures AllStand(sources, SortedRecords(rows))
  {
    hide RecordIdentityOf, StandsBefore, IndexOfIdentity;
    if rows != [] {
      var front, last := rows[..|rows| - 1], rows[|rows| - 1];
      SortedStand(sources, front);
      forall c | c in SortedRecords(front)
        ensures IndexOfIdentity(sources, RecordIdentityOf(c)) < IndexOfIdentity(sources, RecordIdentityOf(last))
      {
        SortedRecordsMembers(front, c);
        var a :| 0 <= a < |front| && front[a] == c;
        assert rows[a] == c;
      }
      InsertedStand(sources, SortedRecords(front), last);
    }
  }

  /** The rows of a posting stand by rank, and tied ones in the order in which their identities appear. */
  lemma RowsStand(sources: seq<Raw>)
    ensures AllStand(sources, SortedRecords(Collapsed(sources)))
  {
    forall a, b | 0 <= a < b < |Collapsed(sources)|
      ensures IndexOfIdentity(sources, RecordIdentityOf(Collapsed(sources)[a])) <
        IndexOfIdentity(sources, RecordIdentityOf(Collapsed(sources)[b]))
    {
      RowsComeInOrder(sources, a, b);
    }
    SortedStand(sources, Collapsed(sources));
  }

  lemma StandingIsAsymmetric(sources: seq<Raw>, c: Raw, d: Raw)
    ensures !(StandsBefore(sources, c, d) && StandsBefore(sources, d, c))
  {
    AheadIsAsymmetric(c, d);
  }

  lemma HeadStandsFirst(sources: seq<Raw>, x: seq<Raw>, c: Raw)
    requires AllStand(sources, x) && c in x
    ensures c == x[0] || StandsBefore(sources, x[0], c)
  {
    var i :| 0 <= i < |x| && x[i] == c;
  }

  lemma {:induction false} StandingIsUnique(sources: seq<Raw>, x: seq<Raw>, y: seq<Raw>)
    requires AllStand(sources, x) && AllStand(sources, y)
    requires forall c :: c in x <==> c in y
    ensures x == y
  {
    if x != [] {
      var head := x[0];
      assert head in x && head in y;
    }
    if y != [] {
      var head := y[0];
      assert head in y && head in x;
    }
    if x != [] {
      HeadStandsFirst(sources, x, y[0]);
      HeadStandsFirst(sources, y, x[0]);
      StandingIsAsymmetric(sources, x[0], y[0]);
      TailsAgree(sources, x, y);
      StandingIsUnique(sources, x[1..], y[1..]);
      assert x == [x[0]] + x[1..] && y == [y[0]] + y[1..];
    }
  }

  lemma NotBeforeItself(sources: seq<Raw>, x: seq<Raw>)
    requires AllStand(sources, x) && x != []
    ensures x[0] !in x[1..]
  {
    AheadIsAsymmetric(x[0], x[0]);
    forall i | 0 <= i < |x[1..]|
      ensures x[1..][i] != x[0]
    {
      assert StandsBefore(sources, x[0], x[i + 1]);
    }
  }

  lemma TailsAgree(sources: seq<Raw>, x: seq<Raw>, y: seq<Raw>)
    requires AllStand(sources, x) && AllStand(sources, y)
    requires (forall c :: c in x <==> c in y) && x != [] && y != [] && x[0] == y[0]
    ensures forall c :: c in x[1..] <==> c in y[1..]
    ensures AllStand(sources, x[1..]) && AllStand(sources, y[1..])
  {
    NotBeforeItself(sources, x);
    NotBeforeItself(sources, y);
    assert x == [x[0]] + x[1..] && y == [y[0]] + y[1..];
    forall c
      ensures c in x[1..] <==> c in y[1..]
    {
      assert c in x <==> c == x[0] || c in x[1..];
      assert c in y <==> c == y[0] || c in y[1..];
    }
  }
}
