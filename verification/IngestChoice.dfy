/** Which stored posting a job of a batch goes to, and what it writes there, said of rows and postings. */
module IngestChoice {
  import opened Options
  import opened Rows
  import opened TextOrder
  import opened Ingest
  import opened IngestLaws
  import opened IngestFates
  import D = Dedupe

  // ----------------------------------------------------------------------------------------
  // The rows a job refers to
  // ----------------------------------------------------------------------------------------

  /** The id of a row: the stored one, else that of the batch's report of its URL, else the one its own fields give. */
  ghost predicate IsKnownAs(b: Batch, r: Source, id: string) {
    || r.publisherId == Some(id)
    || (r.publisherId.None? && r.url in b.display && b.display[r.url].publisherId == Some(id))
    || (r.publisherId.None? && (r.url in b.display ==> b.display[r.url].publisherId.None?) && r.derivedId == Some(id))
  }

  /** One publisher knows the report and the row under two ids. */
  ghost predicate AreTwoJobs(b: Batch, s: D.Raw, r: Source) {
    s.source == r.source && exists id :: IsKnownAs(b, r, id) && s.publisherId.Some? && s.publisherId != Some(id)
  }

  /** A report refers to a row: its URL, or its publisher's id at the same company, and not another id of the publisher. */
  ghost predicate RefersTo(was: Tables, b: Batch, company: string, s: D.Raw, r: int)
    requires r in was.sources
  {
    var row := was.sources[r];
    && !AreTwoJobs(b, s, row)
    && (|| s.url == row.url
        || (&& s.source == row.source && s.publisherId.Some? && IsKnownAs(b, row, s.publisherId.value)
            && row.posting in was.posts && was.posts[row.posting].norm.company == company))
  }

  /** One of a job's first `n` reports refers to the row. */
  ghost predicate IsReferredTo(was: Tables, b: Batch, job: D.Posting, n: nat, r: int)
    requires n <= |job.sources|
  {
    r in was.sources && exists i :: 0 <= i < n && RefersTo(was, b, job.key.company, job.sources[i], r)
  }

  lemma KnownAsIff(b: Batch, r: Source, id: string)
    ensures IsKnownAs(b, r, id) <==> NativeId(b, r) == Some(id)
  {
  }

  lemma RefersIff(was: Tables, b: Batch, job: D.Posting, s: D.Raw, r: int)
    requires r in was.sources
    ensures RefersTo(was, b, job.key.company, s, r)
      <==> !Contradicts(b, s, was.sources[r]) && (s.url == was.sources[r].url || SamePublisher(was, b, job, s, was.sources[r]))
  {
    var row := was.sources[r];
    hide NativeId, IsKnownAs;
    forall id
      ensures IsKnownAs(b, row, id) <==> NativeId(b, row) == Some(id)
    {
      KnownAsIff(b, row, id);
    }
    if Contradicts(b, s, row) {
      assert IsKnownAs(b, row, NativeId(b, row).value);
    }
  }

  lemma {:induction false} AddsMatches(was: Tables, b: Batch, job: D.Posting, s: D.Raw, byUrl: bool, ids: seq<int>, refs: seq<int>, r: int)
    requires AreRows(was, ids)
    ensures r in AddMatches(was, b, job, s, byUrl, ids, refs)
      <==> r in refs || (r in ids && !Contradicts(b, s, was.sources[r])
                         && if byUrl then was.sources[r].url == s.url else SamePublisher(was, b, job, s, was.sources[r]))
    decreases ids
  {
    hide SamePublisher, Contradicts;
    if ids != [] {
      AddsMatches(was, b, job, s, byUrl, ids[1..], refs, r);
      AddsMatches(was, b, job, s, byUrl, ids[1..], Appended(refs, ids[0]), r);
      assert r in ids <==> r == ids[0] || r in ids[1..];
    }
  }

  lemma {:induction false} ReferencesIff(was: Tables, b: Batch, job: D.Posting, n: nat, r: int)
    requires n <= |job.sources| && IdsInRange(was)
    ensures r in References(was, b, job, n) <==> IsReferredTo(was, b, job, n, r)
  {
    if n > 0 {
      ReferencesOfOne(was, b, job, n, r);
      hide References, IdsInRange, IsReferredTo, RefersTo;
      ReferencesIff(was, b, job, n - 1, r);
      ReferredToNext(was, b, job, n - 1, r);
    }
  }

  /** What the last report adds. */
  lemma ReferencesOfOne(was: Tables, b: Batch, job: D.Posting, n: nat, r: int)
    requires 0 < n <= |job.sources| && IdsInRange(was)
    ensures r in References(was, b, job, n)
       <==> r in References(was, b, job, n - 1) || (r in was.sources && RefersTo(was, b, job.key.company, job.sources[n - 1], r))
  {
    var ids := Ids(was.sources, was.nextSource);
    assert r in was.sources <==> r in ids;
    var s := job.sources[n - 1];
    var front := References(was, b, job, n - 1);
    assert References(was, b, job, n) == AddMatches(was, b, job, s, false, ids, AddMatches(was, b, job, s, true, ids, front));
    hide References, AddMatches, Ids, IdsInRange, SamePublisher, Contradicts, RefersTo;
    AddsMatches(was, b, job, s, true, ids, front, r);
    AddsMatches(was, b, job, s, false, ids, AddMatches(was, b, job, s, true, ids, front), r);
    if r in was.sources {
      RefersIff(was, b, job, s, r);
    }
  }

  lemma ReferredToNext(was: Tables, b: Batch, job: D.Posting, n: nat, r: int)
    requires n < |job.sources|
    ensures IsReferredTo(was, b, job, n + 1, r)
      <==> IsReferredTo(was, b, job, n, r) || (r in was.sources && RefersTo(was, b, job.key.company, job.sources[n], r))
  {
    hide RefersTo;
  }

  // ----------------------------------------------------------------------------------------
  // Which postings are open to a job
  // ----------------------------------------------------------------------------------------

  /** Row `q` comes after row `r`: by priority, then date, then URL, then id. */
  predicate ComesAfter(t: Tables, q: int, r: int)
    requires q in t.sources && r in t.sources
  {
    var a, c := t.sources[r], t.sources[q];
    if a.priority != c.priority then a.priority < c.priority
    else if a.postedAt != c.postedAt then a.postedAt < c.postedAt
    else if a.url != c.url then Before(a.url, c.url)
    else r < q
  }

  /** The row is on the page of its posting's application, or the batch reports its URL with that application. */
  predicate IsOnPage(was: Tables, b: Batch, r: int)
    requires r in was.sources
  {
    var row := was.sources[r];
    var url := if row.posting in was.posts then was.posts[row.posting].canonicalUrl else "";
    b.page(row.url) == b.page(url) || (row.url in b.display && b.display[row.url].applyUrl == url)
  }

  /** The row that speaks for a posting: the first that is on its page, or the first of all when none is. */
  ghost predicate IsPrimary(was: Tables, b: Batch, id: int, r: int) {
    && IsAt(was, r, id)
    && forall q :: IsAt(was, q, id) && q != r ==>
         if IsOnPage(was, b, q) == IsOnPage(was, b, r) then ComesAfter(was, q, r) else IsOnPage(was, b, r)
  }

  /** A posting open to a job: no other job has claimed it, and the job is not another one of its primary row's publisher. */
  ghost predicate IsOpenTo(was: Tables, b: Batch, claimed: map<int, D.Key>, job: D.Posting, id: int) {
    && (id in claimed ==> claimed[id] == job.key)
    && forall r, i :: IsPrimary(was, b, id, r) && 0 <= i < |job.sources| ==> !AreTwoJobs(b, job.sources[i], was.sources[r])
  }

  lemma BeforeOnce(a: string, c: string)
    ensures !(Before(a, c) && Before(c, a)) && (Before(a, c) || Before(c, a) || a == c) && !Before(a, a)
  {
    BeforeIsTotal(a, c);
    BeforeIsIrreflexive(a);
  }

  lemma AfterOnce(t: Tables, q: int, r: int)
    requires q in t.sources && r in t.sources && q != r
    ensures ComesAfter(t, q, r) <==> !ComesAfter(t, r, q)
    ensures q > r ==> (ComesAfter(t, q, r) <==> !RowAhead(t.sources[q], t.sources[r]))
    ensures q < r ==> (ComesAfter(t, q, r) <==> RowAhead(t.sources[r], t.sources[q]))
  {
    BeforeOnce(t.sources[q].url, t.sources[r].url);
    hide Before;
  }

  lemma AfterIsTransitive(t: Tables, p: int, q: int, r: int)
    requires p in t.sources && q in t.sources && r in t.sources && ComesAfter(t, p, q) && ComesAfter(t, q, r)
    ensures ComesAfter(t, p, r)
  {
    var a, c, d := t.sources[r].url, t.sources[q].url, t.sources[p].url;
    if a != c && c != d && Before(a, c) && Before(c, d) {
      BeforeIsTransitive(a, c, d);
      BeforeIsIrreflexive(a);
    }
    hide Before;
  }

  /** The first of the rows of a posting among `ids`, counting those on its page alone when `shown`. */
  ghost predicate IsFirst(was: Tables, b: Batch, id: int, shown: bool, ids: seq<int>, r: int) {
    && r in ids && Counts(was, b, id, shown, r)
    && forall q :: q in ids && q != r && Counts(was, b, id, shown, q) ==> ComesAfter(was, q, r)
  }

  predicate Counts(was: Tables, b: Batch, id: int, shown: bool, r: int) {
    IsAt(was, r, id) && (shown ==> IsOnPage(was, b, r))
  }

  ghost predicate AreInOrder(ids: seq<int>) {
    forall i, j :: 0 <= i < j < |ids| ==> ids[i] < ids[j]
  }

  lemma {:induction false} IdsAreInOrder<T>(rows: map<int, T>, n: int)
    ensures AreInOrder(Ids(rows, n)) && forall id :: id in Ids(rows, n) ==> id < n
    decreases n
  {
    if n > 1 {
      IdsAreInOrder(rows, n - 1);
      var front, ids := Ids(rows, n - 1), Ids(rows, n);
      assert ids == front || ids == front + [n - 1];
      hide Ids;
      assert forall i :: 0 <= i < |front| ==> front[i] in front && front[i] < n - 1;
    }
  }

  lemma {:induction false} FirstRowIs(was: Tables, b: Batch, id: int, shown: bool, ids: seq<int>) returns (r: int)
    requires AreRows(was, ids) && AreInOrder(ids)
    ensures FirstRow(was, b, id, shown, ids).None? ==> forall q :: q in ids ==> !Counts(was, b, id, shown, q)
    ensures FirstRow(was, b, id, shown, ids).Some? ==>
      IsFirst(was, b, id, shown, ids, r) && FirstRow(was, b, id, shown, ids) == Some(was.sources[r])
    decreases |ids|
  {
    r := 0;
    if ids != [] {
      var front, last := ids[..|ids| - 1], ids[|ids| - 1];
      r := FirstRowIs(was, b, id, shown, front);
      assert forall q :: q in ids <==> q in front || q == last;
      assert forall q :: q in front ==> q < last;
      var rest := FirstRow(was, b, id, shown, front);
      if was.sources[last].posting == id {
        var url := if id in was.posts then was.posts[id].canonicalUrl else "";
        assert ShowsApplication(b, url, was.sources[last]) <==> IsOnPage(was, b, last);
      }
      hide ShowsApplication, IsOnPage, RowAhead, ComesAfter, AreInOrder;
      if Counts(was, b, id, shown, last) {
        if rest.Some? {
          AfterOnce(was, last, r);
          if RowAhead(was.sources[last], was.sources[r]) {
            LastIsFirst(was, b, id, shown, front, r, last);
            r := last;
          }
        } else {
          r := last;
        }
      }
    }
  }

  lemma LastIsFirst(was: Tables, b: Batch, id: int, shown: bool, front: seq<int>, r: int, last: int)
    requires AreRows(was, front) && last in was.sources && IsFirst(was, b, id, shown, front, r) && Counts(was, b, id, shown, last)
    requires ComesAfter(was, r, last)
    ensures IsFirst(was, b, id, shown, front + [last], last)
  {
    forall q | q in front + [last] && q != last && Counts(was, b, id, shown, q)
      ensures ComesAfter(was, q, last)
    {
      if q != r {
        AfterIsTransitive(was, q, r, last);
      }
    }
  }

  /** The primary row, when the posting has rows, is the only one that stands so. */
  lemma PrimaryIs(was: Tables, b: Batch, id: int) returns (r: int)
    requires IdsInRange(was)
    ensures Primary(was, b, id).None? ==> forall q :: !IsPrimary(was, b, id, q)
    ensures Primary(was, b, id).Some? ==>
      r in was.sources && Primary(was, b, id) == Some(was.sources[r]) && forall q :: IsPrimary(was, b, id, q) <==> q == r
  {
    var ids := Ids(was.sources, was.nextSource);
    IdsAreInOrder(was.sources, was.nextSource);
    assert forall q :: q in was.sources ==> q in ids;
    r := FirstRowIs(was, b, id, true, ids);
    var shown := FirstRow(was, b, id, true, ids).Some?;
    if !shown {
      r := FirstRowIs(was, b, id, false, ids);
    }
    hide FirstRow, IsOnPage, ComesAfter, Ids, AreInOrder, IdsInRange;
    if Primary(was, b, id).Some? {
      assert IsPrimary(was, b, id, r);
      OnePrimary(was, b, id, r);
    }
  }

  lemma OnePrimary(was: Tables, b: Batch, id: int, r: int)
    requires IsPrimary(was, b, id, r)
    ensures forall q :: IsPrimary(was, b, id, q) ==> q == r
  {
    forall q | IsPrimary(was, b, id, q)
      ensures q == r
    {
      if q != r {
        AfterOnce(was, q, r);
      }
    }
  }

  lemma OpenIff(was: Tables, b: Batch, claimed: map<int, D.Key>, job: D.Posting, id: int)
    requires IdsInRange(was)
    ensures Compatible(was, b, claimed, job, id) <==> IsOpenTo(was, b, claimed, job, id)
  {
    var r := PrimaryIs(was, b, id);
    hide Primary, IsPrimary, IdsInRange;
    var primary := Primary(was, b, id);
    if primary.Some? {
      TwoJobsIff(b, job, primary.value);
    }
  }

  lemma TwoJobsIff(b: Batch, job: D.Posting, row: Source)
    ensures NativeId(b, row).None? || !OffersOtherId(job, row, NativeId(b, row).value)
      <==> forall i :: 0 <= i < |job.sources| ==> !AreTwoJobs(b, job.sources[i], row)
  {
    forall id
      ensures IsKnownAs(b, row, id) <==> NativeId(b, row) == Some(id)
    {
      KnownAsIff(b, row, id);
    }
    hide NativeId, IsKnownAs;
    if NativeId(b, row).Some? && OffersOtherId(job, row, NativeId(b, row).value) {
      var id := NativeId(b, row).value;
      var i :| 0 <= i < |job.sources| && job.sources[i].source == row.source
               && job.sources[i].publisherId.Some? && job.sources[i].publisherId.value != id;
      assert IsKnownAs(b, row, id);
      assert AreTwoJobs(b, job.sources[i], row);
    }
  }

  // ----------------------------------------------------------------------------------------
  // The posting of a job
  // ----------------------------------------------------------------------------------------

  /** An open posting with a row that the job refers to. */
  ghost predicate IsReferred(was: Tables, b: Batch, claimed: map<int, D.Key>, job: D.Posting, id: int) {
    IsOpenTo(was, b, claimed, job, id) && exists r :: IsReferredTo(was, b, job, |job.sources|, r) && was.sources[r].posting == id
  }

  predicate HoldsKey(t: Tables, job: D.Posting, id: int) {
    id in t.posts && t.posts[id].key == Hashed(job.key)
  }

  /** An open posting that the snapshot has under the job's company, title and place. */
  ghost predicate IsNamesake(was: Tables, b: Batch, claimed: map<int, D.Key>, job: D.Posting, id: int) {
    && id in was.posts && IsOpenTo(was, b, claimed, job, id)
    && was.posts[id].norm.company == job.key.company && was.posts[id].norm.title == job.key.title
    && was.posts[id].norm.place == job.key.place
  }

  /**
   * The job goes to the oldest open posting it refers to; without one, to the open posting that holds its key; without
   * that, to its only open namesake.
   */
  ghost predicate GoesTo(was: Tables, b: Batch, t: Tables, claimed: map<int, D.Key>, job: D.Posting, id: int) {
    if exists p :: IsReferred(was, b, claimed, job, p) then
      IsReferred(was, b, claimed, job, id) && forall p :: IsReferred(was, b, claimed, job, p) ==> id <= p
    else if exists p :: HoldsKey(t, job, p) && IsOpenTo(was, b, claimed, job, p) then HoldsKey(t, job, id)
    else IsNamesake(was, b, claimed, job, id) && forall p :: IsNamesake(was, b, claimed, job, p) ==> p == id
  }

  lemma {:induction false} LeastReferredIs(was: Tables, b: Batch, claimed: map<int, D.Key>, job: D.Posting, refs: seq<int>, id: int)
    requires AreRows(was, refs)
    ensures var least := LeastReferenced(was, b, claimed, job, refs);
      && (least.None? ==> forall i :: 0 <= i < |refs| ==> !Compatible(was, b, claimed, job, was.sources[refs[i]].posting))
      && (least.Some? ==> forall i :: 0 <= i < |refs| && Compatible(was, b, claimed, job, was.sources[refs[i]].posting) ==>
                            least.value <= was.sources[refs[i]].posting)
    decreases refs
  {
    hide Compatible;
    if refs != [] {
      LeastReferredIs(was, b, claimed, job, refs[1..], id);
      assert forall i :: 1 <= i < |refs| ==> refs[i] == refs[1..][i - 1];
    }
  }

  lemma ReferredIff(was: Tables, b: Batch, claimed: map<int, D.Key>, job: D.Posting, p: int)
    requires IdsInRange(was)
    ensures AreRows(was, RefsOf(was, b, job))
    ensures IsReferred(was, b, claimed, job, p) <==>
      Compatible(was, b, claimed, job, p)
      && exists i :: 0 <= i < |RefsOf(was, b, job)| && was.sources[RefsOf(was, b, job)[i]].posting == p
  {
    RefsAreRows(was, b, job, |job.sources|);
    OpenIff(was, b, claimed, job, p);
    var refs := RefsOf(was, b, job);
    hide Compatible, IsOpenTo;
    forall r
      ensures r in refs <==> IsReferredTo(was, b, job, |job.sources|, r)
    {
      ReferencesIff(was, b, job, |job.sources|, r);
    }
    hide References, RefersTo, RefsOf, IsReferredTo;
    if IsReferred(was, b, claimed, job, p) {
      var r :| IsReferredTo(was, b, job, |job.sources|, r) && was.sources[r].posting == p;
      var i :| 0 <= i < |refs| && refs[i] == r;
    }
    if Compatible(was, b, claimed, job, p) && exists i :: 0 <= i < |refs| && was.sources[refs[i]].posting == p {
      var i :| 0 <= i < |refs| && was.sources[refs[i]].posting == p;
      assert IsReferredTo(was, b, job, |job.sources|, refs[i]);
    }
  }

  /** The least posting referred to is the oldest open one, if there is any. */
  lemma OldestReferred(was: Tables, b: Batch, claimed: map<int, D.Key>, job: D.Posting)
    requires IdsInRange(was)
    ensures AreRows(was, RefsOf(was, b, job))
    ensures var least := LeastReferenced(was, b, claimed, job, RefsOf(was, b, job));
      if least.None? then forall p :: !IsReferred(was, b, claimed, job, p)
      else IsReferred(was, b, claimed, job, least.value) && forall p :: IsReferred(was, b, claimed, job, p) ==> least.value <= p
  {
    RefsAreRows(was, b, job, |job.sources|);
    LeastReferredIs(was, b, claimed, job, RefsOf(was, b, job), 0);
    forall p
      ensures IsReferred(was, b, claimed, job, p) <==>
        Compatible(was, b, claimed, job, p)
        && exists i :: 0 <= i < |RefsOf(was, b, job)| && was.sources[RefsOf(was, b, job)[i]].posting == p
    {
      ReferredIff(was, b, claimed, job, p);
    }
    hide Compatible, IsReferred, RefsOf;
  }

  lemma {:induction false} CandidatesAre(was: Tables, b: Batch, claimed: map<int, D.Key>, job: D.Posting, ids: seq<int>, p: int)
    requires forall i :: 0 <= i < |ids| ==> ids[i] in was.posts
    requires AreInOrder(ids)
    ensures var c := Candidates(was, b, claimed, job, ids);
      && (p in c <==> p in ids && was.posts[p].norm == NormOf(job) && Compatible(was, b, claimed, job, p))
      && AreInOrder(c) && forall q :: q in c ==> q in ids
    decreases |ids|
  {
    hide Compatible;
    if ids != [] {
      var front, last := ids[..|ids| - 1], ids[|ids| - 1];
      CandidatesAre(was, b, claimed, job, front, p);
      assert forall q :: q in ids <==> q in front || q == last;
      assert forall q :: q in front ==> q < last;
      var rest := Candidates(was, b, claimed, job, front);
      assert forall i :: 0 <= i < |rest| ==> rest[i] in rest && rest[i] in front;
    }
  }

  lemma OnlyNamesake(was: Tables, b: Batch, claimed: map<int, D.Key>, job: D.Posting, id: int)
    requires IdsInRange(was)
    ensures var c := Candidates(was, b, claimed, job, Ids(was.posts, was.nextPost));
      |c| == 1 && c[0] == id <==> IsNamesake(was, b, claimed, job, id) && forall p :: IsNamesake(was, b, claimed, job, p) ==> p == id
  {
    var ids := Ids(was.posts, was.nextPost);
    var c := Candidates(was, b, claimed, job, ids);
    IdsAreInOrder(was.posts, was.nextPost);
    forall p
      ensures p in c <==> IsNamesake(was, b, claimed, job, p)
      ensures AreInOrder(c)
    {
      CandidatesAre(was, b, claimed, job, ids, p);
      OpenIff(was, b, claimed, job, p);
      assert p in was.posts ==> p in ids;
    }
    hide Candidates, IsNamesake, Ids, IdsInRange;
    if id in c {
      OneEntry(c, id);
    }
  }

  lemma OneEntry(c: seq<int>, id: int)
    requires AreInOrder(c) && id in c
    ensures |c| == 1 <==> forall p :: p in c ==> p == id
  {
    if |c| > 1 {
      assert c[0] in c && c[1] in c && c[0] < c[1];
    }
  }

  lemma OneHolder(t: Tables, job: D.Posting)
    requires IdsInRange(t) && UniqueKeys(t)
    ensures forall p :: HoldsKey(t, job, p) <==> Holder(t, Hashed(job.key)) == Some(p)
  {
    forall p
      ensures HoldsKey(t, job, p) <==> Holder(t, Hashed(job.key)) == Some(p)
    {
      if HoldsKey(t, job, p) && Holder(t, Hashed(job.key)).None? {
        HolderIsComplete(t, Hashed(job.key), p);
      }
    }
  }

  /** The posting a job goes to, whatever is stored: the one so described, and a new one exactly when there is none. */
  lemma ChosenIff(was: Tables, b: Batch, t: Tables, claimed: map<int, D.Key>, job: D.Posting, id: int)
    requires IdsInRange(was) && IdsInRange(t) && UniqueKeys(t)
    ensures Chosen(was, b, claimed, job, Holder(t, Hashed(job.key))) == Some(id) <==> GoesTo(was, b, t, claimed, job, id)
  {
    hide Compatible, IsReferred, RefsOf, IsNamesake, IsOpenTo, HoldsKey, Candidates, Holder, IdsInRange, UniqueKeys;
    hide LeastReferenced, Ids, NormOf;
    OldestReferred(was, b, claimed, job);
    OneHolder(t, job);
    var exact := Holder(t, Hashed(job.key));
    var least := LeastReferenced(was, b, claimed, job, RefsOf(was, b, job));
    if least.Some? {
      assert exists p :: IsReferred(was, b, claimed, job, p);
    } else {
      if exact.Some? {
        OpenIff(was, b, claimed, job, exact.value);
      }
      OnlyNamesake(was, b, claimed, job, id);
    }
  }

  // ----------------------------------------------------------------------------------------
  // What the job writes there
  // ----------------------------------------------------------------------------------------

  /** The job's best report ranks no worse than any row of the posting. */
  ghost predicate RanksWith(t: Tables, job: D.Posting, id: int) {
    forall r :: IsAt(t, r, id) ==> job.sources != [] && D.Priority(job.sources[0].kind) <= t.sources[r].priority
  }

  predicate IsAtsRow(t: Tables, id: int, r: int) {
    IsAt(t, r, id) && t.sources[r].priority == D.Priority(D.Ats)
  }

  /** `early`, or the earliest date an ATS gave the posting when they are all later. */
  ghost predicate IsDated(t: Tables, id: int, early: int, date: int) {
    if (exists r :: IsAtsRow(t, id, r)) && forall r :: IsAtsRow(t, id, r) ==> early < t.sources[r].postedAt then
      (exists r :: IsAtsRow(t, id, r) && t.sources[r].postedAt == date) && forall r :: IsAtsRow(t, id, r) ==> date <= t.sources[r].postedAt
    else date == early
  }

  /** The text of the job's best report, none when the batch has none under its URL. */
  predicate IsTextOf(b: Batch, job: D.Posting, text: string) {
    if job.sources != [] && job.sources[0].url in b.display then text == b.display[job.sources[0].url].text else text == ""
  }

  predicate IsNormOf(job: D.Posting, n: Norm) {
    n.company == job.key.company && n.title == job.key.title && n.place == job.key.place
  }

  /** The posting takes the job's names, text and page when the job ranks with it, and its key if no other posting has it. */
  ghost predicate IsRewritten(t: Tables, u: Tables, b: Batch, id: int, job: D.Posting) {
    && id in t.posts && id in u.posts && u.posts == t.posts[id := u.posts[id]] && u.nextPost == t.nextPost
    && var p, q := t.posts[id], u.posts[id];
       && q.delisted == p.delisted
       && IsDated(t, id, if job.postedAt < p.postedAt then job.postedAt else p.postedAt, q.postedAt)
       && (if RanksWith(t, job, id) then
             && IsNormOf(job, q.norm) && IsTextOf(b, job, q.text) && q.canonicalUrl == job.canonicalUrl
             && (if exists o :: o != id && HoldsKey(t, job, o) then q.key == p.key else q.key == Hashed(job.key))
           else q.norm == p.norm && q.text == p.text && q.canonicalUrl == p.canonicalUrl && q.key == p.key)
  }

  /** A new posting holds the job as reported; a posting that held its key keeps its own id as key, and all else stays. */
  ghost predicate IsMadeFor(t: Tables, u: Tables, b: Batch, id: int, job: D.Posting) {
    && id == t.nextPost && u.nextPost == id + 1 && u.posts.Keys == t.posts.Keys + {id}
    && (var q := u.posts[id];
        && q.key == Hashed(job.key) && IsNormOf(job, q.norm) && IsTextOf(b, job, q.text)
        && q.canonicalUrl == job.canonicalUrl && q.postedAt == job.postedAt && q.delisted.None?)
    && (forall p :: p in t.posts && !HoldsKey(t, job, p) ==> u.posts[p] == t.posts[p])
    && (forall p :: HoldsKey(t, job, p) ==> u.posts[p] == t.posts[p].(key := Retained(p)))
  }

  lemma {:induction false} StoredPriorityIs(t: Tables, job: D.Posting, id: int, ids: seq<int>)
    requires AreRows(t, ids)
    ensures var stored := StoredPriority(t, id, ids);
      stored.None? || (job.sources != [] && D.Priority(job.sources[0].kind) <= stored.value)
      <==> forall r :: r in ids && IsAt(t, r, id) ==> job.sources != [] && D.Priority(job.sources[0].kind) <= t.sources[r].priority
  {
    hide D.Priority;
    if ids != [] {
      StoredPriorityIs(t, job, id, ids[1..]);
      assert forall r :: r in ids <==> r == ids[0] || r in ids[1..];
    }
  }

  lemma {:induction false} StoredAtsIs(t: Tables, id: int, ids: seq<int>)
    requires AreRows(t, ids)
    ensures var ats := StoredAts(t, id, ids);
      if ats.None? then forall r :: r in ids ==> !IsAtsRow(t, id, r)
      else (exists r :: r in ids && IsAtsRow(t, id, r) && t.sources[r].postedAt == ats.value)
           && forall r :: r in ids && IsAtsRow(t, id, r) ==> ats.value <= t.sources[r].postedAt
  {
    hide D.Priority;
    if ids != [] {
      StoredAtsIs(t, id, ids[1..]);
      assert forall r :: r in ids <==> r == ids[0] || r in ids[1..];
      var rest := StoredAts(t, id, ids[1..]);
      if rest.Some? {
        var r :| r in ids[1..] && IsAtsRow(t, id, r) && t.sources[r].postedAt == rest.value;
        assert r in ids;
      }
    }
  }

  lemma FlooredDateIs(t: Tables, id: int, stored: int, reported: int)
    requires IdsInRange(t)
    ensures IsDated(t, id, if reported < stored then reported else stored,
      FlooredDate(stored, reported, StoredAts(t, id, Ids(t.sources, t.nextSource))))
  {
    var ids := Ids(t.sources, t.nextSource);
    StoredAtsIs(t, id, ids);
    assert forall r :: r in t.sources <==> r in ids;
    hide D.Priority, Ids, IdsInRange;
  }

  lemma UpdateRewrites(t: Tables, b: Batch, id: int, job: D.Posting)
    requires IdsInRange(t) && UniqueKeys(t) && id in t.posts
    ensures IsRewritten(t, Updated(t, b, id, job), b, id, job)
  {
    RanksAre(t, job, id);
    FlooredDateIs(t, id, t.posts[id].postedAt, job.postedAt);
    KeyIsTaken(t, job, id);
    hide D.Priority, Ids, IdsInRange, UniqueKeys, IsDated, Holder, HoldsKey, StoredPriority, StoredAts, RanksWith;
  }

  lemma RanksAre(t: Tables, job: D.Posting, id: int)
    requires IdsInRange(t)
    ensures var stored := StoredPriority(t, id, Ids(t.sources, t.nextSource));
      stored.None? || (job.sources != [] && D.Priority(job.sources[0].kind) <= stored.value) <==> RanksWith(t, job, id)
  {
    var ids := Ids(t.sources, t.nextSource);
    StoredPriorityIs(t, job, id, ids);
    assert forall r :: r in t.sources <==> r in ids;
    hide D.Priority, Ids, IdsInRange, StoredPriority;
  }

  lemma KeyIsTaken(t: Tables, job: D.Posting, id: int)
    requires IdsInRange(t) && UniqueKeys(t) && id in t.posts
    ensures t.posts[id].key != Hashed(job.key) && Holder(t, Hashed(job.key)).Some? <==> exists o :: o != id && HoldsKey(t, job, o)
  {
    OneHolder(t, job);
    hide IdsInRange, UniqueKeys, Holder;
  }

  lemma InsertMakes(t: Tables, b: Batch, job: D.Posting)
    requires IdsInRange(t) && UniqueKeys(t)
    ensures var exact := Holder(t, Hashed(job.key));
      var freed := if exact.Some? then ReleasedKey(t, exact.value) else t;
      IsMadeFor(t, Inserted(freed, b, job), b, freed.nextPost, job)
  {
    OneHolder(t, job);
    hide Holder;
  }

  /** What storing a job does to the postings: it writes the one the job goes to, or makes one. */
  ghost predicate IsPlaced(was: Tables, b: Batch, run: Run, u: Tables, job: D.Posting, id: int) {
    if exists p :: GoesTo(was, b, run.tables, run.claimed, job, p)
    then GoesTo(was, b, run.tables, run.claimed, job, id) && IsRewritten(run.tables, u, b, id, job)
    else IsMadeFor(run.tables, u, b, id, job)
  }

  lemma RowIsPlaced(was: Tables, b: Batch, run: Run, job: D.Posting)
    requires RunOk(was, run)
    ensures var (u, id) := RowWritten(was, b, run, job); IsPlaced(was, b, run, u, job, id)
  {
    var chosen := Chosen(was, b, run.claimed, job, Holder(run.tables, Hashed(job.key)));
    forall p
      ensures chosen == Some(p) <==> GoesTo(was, b, run.tables, run.claimed, job, p)
    {
      ChosenIff(was, b, run.tables, run.claimed, job, p);
    }
    if chosen.Some? {
      ChosenIsStored(was, b, run, job);
      UpdateRewrites(run.tables, b, chosen.value, job);
    } else {
      InsertMakes(run.tables, b, job);
    }
    hide Chosen, Updated, Inserted, GoesTo, IsRewritten, IsMadeFor, Holder, ReleasedKey, RunOk;
  }

  lemma PlacedByPosts(was: Tables, b: Batch, run: Run, t: Tables, u: Tables, job: D.Posting, id: int)
    requires IsPlaced(was, b, run, t, job, id) && u.posts == t.posts && u.nextPost == t.nextPost
    ensures IsPlaced(was, b, run, u, job, id)
  {
    hide GoesTo, IsDated, RanksWith;
  }

  lemma JobIsPlaced(was: Tables, b: Batch, run: Run, job: D.Posting)
    requires RunOk(was, run) && (forall id :: id in run.claimed ==> run.claimed[id] != job.key)
    ensures IsPlaced(was, b, run, StoredJob(was, b, run, job).tables, job, RowWritten(was, b, run, job).1)
  {
    RowIsPlaced(was, b, run, job);
    var u, v := StoredInStages(was, b, run, job);
    var (t, id) := RowWritten(was, b, run, job);
    hide RowWritten, StoredJob, MovedRows, RunOk, Valid, RefsOf, IsPlaced, Urls, UrlsBefore;
    PlacedByPosts(was, b, run, t, v, job, id);
  }

  /**
   * Whatever a batch reports, each of its jobs in turn goes to the posting so described and writes it, and gets a new
   * posting exactly when there is none.
   */
  lemma JobsArePlaced(was: Tables, b: Batch, raws: seq<D.Raw>, fallback: int, n: nat)
    requires Valid(was)
    ensures var jobs := D.MaterializedAll(D.DedupedGroups(raws), fallback);
      n < |jobs| ==>
        var run, next := StoredJobs(was, b, jobs, n), StoredJobs(was, b, jobs, n + 1);
        |next.rows| == n + 1 && IsPlaced(was, b, run, next.tables, jobs[n], next.rows[n])
  {
    var jobs := D.MaterializedAll(D.DedupedGroups(raws), fallback);
    DedupedJobsAreDistinct(raws, fallback);
    hide D.DedupedGroups, D.MaterializedAll;
    if n < |jobs| {
      NextIsPlaced(was, b, jobs, n);
    }
  }

  lemma NextIsPlaced(was: Tables, b: Batch, jobs: seq<D.Posting>, n: nat)
    requires Valid(was) && DistinctJobs(jobs) && n < |jobs|
    ensures var run, next := StoredJobs(was, b, jobs, n), StoredJobs(was, b, jobs, n + 1);
      |next.rows| == n + 1 && IsPlaced(was, b, run, next.tables, jobs[n], next.rows[n])
  {
    var run := StoredJobs(was, b, jobs, n);
    JobsAreStored(was, b, jobs, n);
    KeysAreNew(run, jobs, n);
    NextJob(was, b, jobs, n);
    JobIsPlaced(was, b, run, jobs[n]);
    hide StoredJob, RowWritten, IsPlaced, Valid, RunOk;
  }

  // ----------------------------------------------------------------------------------------
  // What the batch retires
  // ----------------------------------------------------------------------------------------

  predicate IsListed(t: Tables, id: int) {
    id in t.posts && t.posts[id].delisted.None?
  }

  /** A listed posting without a row, shown as a listed posting with one is: same company, text and page. */
  ghost predicate IsShadow(t: Tables, id: int) {
    && IsListed(t, id) && (forall r :: !IsAt(t, r, id))
    && exists o, r :: IsListed(t, o) && IsAt(t, r, o) && t.posts[o].norm.company == t.posts[id].norm.company
                      && t.posts[o].text == t.posts[id].text && t.posts[o].canonicalUrl == t.posts[id].canonicalUrl
  }

  lemma HasRowIff(t: Tables, id: int)
    ensures HasSource(t, id) <==> exists r :: IsAt(t, r, id)
  {
    if HasSource(t, id) {
      var r :| r in t.sources && t.sources[r].posting == id;
      assert IsAt(t, r, id);
    }
  }

  lemma CloneIff(was: Tables, id: int)
    ensures id in Clones(was) <==> IsShadow(was, id)
  {
    forall p
      ensures HasSource(was, p) <==> exists r :: IsAt(was, r, p)
    {
      HasRowIff(was, p);
    }
    hide HasSource, IsAt;
    if IsShadow(was, id) {
      var o, r :| IsListed(was, o) && IsAt(was, r, o) && was.posts[o].norm.company == was.posts[id].norm.company
                  && was.posts[o].text == was.posts[id].text && was.posts[o].canonicalUrl == was.posts[id].canonicalUrl;
      assert SameApplication(was.posts[o], was.posts[id]);
    }
  }

  /** Row `r` of posting `p` is one that a job of the batch refers to and that the job's posting, another one, takes. */
  ghost predicate LosesRow(was: Tables, b: Batch, jobs: seq<D.Posting>, rows: seq<int>, p: int) {
    exists k, r :: 0 <= k < |jobs| && k < |rows| && rows[k] != p && IsReferredTo(was, b, jobs[k], |jobs[k].sources|, r) && IsAt(was, r, p)
  }

  lemma RobbedIff(was: Tables, b: Batch, jobs: seq<D.Posting>, rows: seq<int>, p: int)
    requires IdsInRange(was) && |rows| == |jobs|
    ensures Robbed(was, b, jobs, rows, |jobs|, p) <==> LosesRow(was, b, jobs, rows, p)
  {
    forall k: nat, r | k < |jobs|
      ensures r in RefsOf(was, b, jobs[k]) <==> IsReferredTo(was, b, jobs[k], |jobs[k].sources|, r)
    {
      ReferencesIff(was, b, jobs[k], |jobs[k].sources|, r);
    }
    hide RefsOf, IsReferredTo, IdsInRange;
    if Robbed(was, b, jobs, rows, |jobs|, p) {
      var k :| 0 <= k < |jobs| && PullsFrom(was, b, jobs[k], rows[k], p);
      var r :| r in was.sources && Pulls(was, b, jobs[k], rows[k], r) && was.sources[r].posting == p;
      assert IsReferredTo(was, b, jobs[k], |jobs[k].sources|, r) && IsAt(was, r, p);
    }
    if LosesRow(was, b, jobs, rows, p) {
      var k, r :| 0 <= k < |jobs| && k < |rows| && rows[k] != p && IsReferredTo(was, b, jobs[k], |jobs[k].sources|, r) && IsAt(was, r, p);
      assert r in RefsOf(was, b, jobs[k]);
      assert Pulls(was, b, jobs[k], rows[k], r);
      assert PullsFrom(was, b, jobs[k], rows[k], p);
    }
  }

  /**
   * A batch delists a stored posting exactly when it ends without a row and a job took one from it or it was shadowed: a
   * ghost of now, whatever mark it had. Every other mark stays.
   */
  lemma BatchRetiresIff(was: Tables, b: Batch, jobs: seq<D.Posting>, id: int)
    requires Valid(was) && DistinctJobs(jobs) && id in was.posts
    ensures var rows, t := StoredJobs(was, b, jobs, |jobs|).rows, Persisted(was, b, jobs);
      && id in t.posts
      && t.posts[id].delisted ==
         if (forall r :: !IsAt(t, r, id)) && (IsShadow(was, id) || LosesRow(was, b, jobs, rows, id))
         then Some(Mark(b.now, Ghost)) else was.posts[id].delisted
  {
    var t, rows := Persisted(was, b, jobs), StoredJobs(was, b, jobs, |jobs|).rows;
    MarksChangeIff(was, b, jobs, id);
    MovedFromIff(was, b, jobs, |jobs|, id);
    CloneIff(was, id);
    RobbedIff(was, b, jobs, rows, id);
    HasRowIff(t, id);
    hide StoredJobs, Persisted, Clones, Robbed, IsShadow, LosesRow, HasSource, IsAt;
  }
}
