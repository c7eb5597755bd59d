/** What a batch writes in the source rows: when a row was last seen, and whose report it holds. */
module IngestSights {
  import opened Options
  import opened Ingest
  import opened IngestLaws
  import opened IngestFates
  import D = Dedupe

  // ----------------------------------------------------------------------------------------
  // What the reports of a URL make of its row
  // ----------------------------------------------------------------------------------------

  /** Report `i` of a job is about the URL, and ranks no worse than row `o` and the reports of the URL from `m` on. */
  predicate RanksFirst(o: Source, job: D.Posting, m: nat, i: nat)
    requires m <= i < |job.sources|
  {
    && job.sources[i].url == o.url && D.Priority(job.sources[i].kind) <= o.priority
    && forall j :: m <= j < i && job.sources[j].url == o.url ==> D.Priority(job.sources[i].kind) <= D.Priority(job.sources[j].kind)
  }

  predicate Outranks(o: Source, job: D.Posting, m: nat, i: nat)
    requires m <= i < |job.sources|
  {
    && job.sources[i].url == o.url && D.Priority(job.sources[i].kind) < o.priority
    && forall j :: m <= j < i && job.sources[j].url == o.url ==> D.Priority(job.sources[i].kind) < D.Priority(job.sources[j].kind)
  }

  predicate IsLastToOutrank(o: Source, job: D.Posting, m: nat, n: nat, i: nat)
    requires m <= i < n <= |job.sources|
  {
    Outranks(o, job, m, i) && forall j :: i < j < n ==> !Outranks(o, job, m, j)
  }

  /** The row ranks as the last report that outranked it and all before, and names that report's source. */
  ghost predicate HoldsBest(o: Source, c: Source, job: D.Posting, m: nat, n: nat)
    requires m <= n <= |job.sources|
  {
    && c.priority <= o.priority && (forall i :: m <= i < n && job.sources[i].url == o.url ==> c.priority <= D.Priority(job.sources[i].kind))
    && (|| (c.priority == o.priority && c.source == o.source && forall i :: m <= i < n ==> !Outranks(o, job, m, i))
        || (exists i :: m <= i < n && IsLastToOutrank(o, job, m, n, i)
                        && c.priority == D.Priority(job.sources[i].kind) && c.source == job.sources[i].source))
  }

  predicate BringsId(o: Source, job: D.Posting, m: nat, i: nat)
    requires m <= i < |job.sources|
  {
    RanksFirst(o, job, m, i) && job.sources[i].publisherId.Some?
  }

  predicate IsLastToBringId(o: Source, job: D.Posting, m: nat, n: nat, i: nat)
    requires m <= i < n <= |job.sources|
  {
    BringsId(o, job, m, i) && forall j :: i < j < n ==> !BringsId(o, job, m, j)
  }

  /** The row's id is the last that a report brought while it ranked first, else the one it had. */
  ghost predicate HoldsId(o: Source, c: Source, job: D.Posting, m: nat, n: nat)
    requires m <= n <= |job.sources|
  {
    || (c.publisherId == o.publisherId && forall i :: m <= i < n ==> !BringsId(o, job, m, i))
    || (exists i :: m <= i < n && IsLastToBringId(o, job, m, n, i) && c.publisherId == job.sources[i].publisherId)
  }

  /** Row `o` after reports `m` to `n` of a job whose posting it is at: sighted in this run if one is about its URL. */
  ghost predicate Refreshed(o: Source, c: Source, b: Batch, job: D.Posting, m: nat, n: nat)
    requires m <= n <= |job.sources|
  {
    && c == o.(lastRun := c.lastRun, source := c.source, priority := c.priority, publisherId := c.publisherId)
    && (c.lastRun == if exists i :: m <= i < n && job.sources[i].url == o.url then b.run else o.lastRun)
    && HoldsBest(o, c, job, m, n) && HoldsId(o, c, job, m, n)
  }

  /** A new row, as its first report makes it. */
  predicate IsNewRow(o: Source, b: Batch, id: int, job: D.Posting, i: nat)
    requires i < |job.sources|
  {
    var s := job.sources[i];
    && o.posting == id && o.source == s.source && o.url == s.url && o.publisherId == s.publisherId == o.derivedId
    && o.postedAt == (if s.postedAt.Some? then s.postedAt.value else job.postedAt)
    && o.priority == D.Priority(s.kind) && o.lastRun == b.run && o.absences == 0
  }

  ghost predicate MadeNew(c: Source, b: Batch, id: int, job: D.Posting, n: nat)
    requires n <= |job.sources|
  {
    exists i, o :: 0 <= i < n && IsNewRow(o, b, id, job, i) && Refreshed(o, c, b, job, i + 1, n)
                   && forall j :: 0 <= j < i ==> job.sources[j].url != c.url
  }

  /** What upserting a job's first `n` reports at a posting makes of a row that was there or not. */
  ghost predicate Sighted(t: Tables, u: Tables, b: Batch, id: int, job: D.Posting, n: nat, r: int)
    requires n <= |job.sources|
  {
    && (r in t.sources ==> r in u.sources)
    && (r in t.sources && t.sources[r].posting == id ==> Refreshed(t.sources[r], u.sources[r], b, job, 0, n))
    && (r in t.sources && t.sources[r].posting != id ==> u.sources[r] == t.sources[r])
    && (r in u.sources && r !in t.sources ==> MadeNew(u.sources[r], b, id, job, n))
  }

  lemma BestAfter(o: Source, c: Source, d: Source, job: D.Posting, m: nat, n: nat)
    requires m <= n < |job.sources| && HoldsBest(o, c, job, m, n)
    requires var s := job.sources[n];
      if s.url == o.url && D.Priority(s.kind) < c.priority then d.priority == D.Priority(s.kind) && d.source == s.source
      else d.priority == c.priority && d.source == c.source
    ensures HoldsBest(o, d, job, m, n + 1)
    ensures Outranks(o, job, m, n) <==> job.sources[n].url == o.url && D.Priority(job.sources[n].kind) < c.priority
    ensures RanksFirst(o, job, m, n) <==> job.sources[n].url == o.url && D.Priority(job.sources[n].kind) <= c.priority
  {
    hide D.Priority;
    if Outranks(o, job, m, n) {
      assert IsLastToOutrank(o, job, m, n + 1, n);
    } else if i :| m <= i < n && IsLastToOutrank(o, job, m, n, i) && c.priority == D.Priority(job.sources[i].kind) && c.source == job.sources[i].source {
      assert IsLastToOutrank(o, job, m, n + 1, i);
    }
  }

  lemma IdAfter(o: Source, c: Source, d: Source, job: D.Posting, m: nat, n: nat)
    requires m <= n < |job.sources| && HoldsId(o, c, job, m, n)
    requires d.publisherId == if BringsId(o, job, m, n) then job.sources[n].publisherId else c.publisherId
    ensures HoldsId(o, d, job, m, n + 1)
  {
    hide D.Priority;
    if BringsId(o, job, m, n) {
      assert IsLastToBringId(o, job, m, n + 1, n);
    } else if i :| m <= i < n && IsLastToBringId(o, job, m, n, i) && c.publisherId == job.sources[i].publisherId {
      assert IsLastToBringId(o, job, m, n + 1, i);
    }
  }

  lemma OneMoreReport(o: Source, c: Source, d: Source, b: Batch, job: D.Posting, m: nat, n: nat)
    requires m <= n < |job.sources| && Refreshed(o, c, b, job, m, n)
    requires var s := job.sources[n];
      var p := D.Priority(s.kind);
      d == if s.url != o.url then c
           else c.(lastRun := b.run,
                   source := if p < c.priority then s.source else c.source,
                   priority := if p < c.priority then p else c.priority,
                   publisherId := if p <= c.priority && s.publisherId.Some? then s.publisherId else c.publisherId)
    ensures Refreshed(o, d, b, job, m, n + 1)
  {
    hide D.Priority, Outranks, RanksFirst, HoldsBest, HoldsId;
    BestAfter(o, c, d, job, m, n);
    IdAfter(o, c, d, job, m, n);
    assert (exists i :: m <= i < n + 1 && job.sources[i].url == o.url)
      <==> (exists i :: m <= i < n && job.sources[i].url == o.url) || job.sources[n].url == o.url;
  }

  lemma NoReportYet(o: Source, b: Batch, job: D.Posting, m: nat)
    requires m <= |job.sources|
    ensures Refreshed(o, o, b, job, m, m)
  {
  }

  // ----------------------------------------------------------------------------------------
  // One job
  // ----------------------------------------------------------------------------------------

  /** The row that an upsert finds is the only one there. */
  lemma AtIsRow(u: Tables, id: int, url: string, r: int)
    requires Valid(u) && r in u.sources
    ensures RowAt(u, id, url) == Some(r) <==> IsRowAt(u, r, id, url)
  {
    if IsRowAt(u, r, id, url) {
      if RowAt(u, id, url).None? {
        RowAtIsComplete(u, id, url, r);
      } else {
        assert SamePlace(u.sources[RowAt(u, id, url).value], u.sources[r]);
      }
    }
  }

  /** One report is written in the row at its place, else in a new one. */
  lemma UpsertAt(u: Tables, b: Batch, id: int, job: D.Posting, n: nat, r: int)
    requires Valid(u) && n < |job.sources|
    ensures var s := job.sources[n];
      var v := Upserted(u, b, id, job, s);
      && (r in u.sources && !IsRowAt(u, r, id, s.url) ==> r in v.sources && v.sources[r] == u.sources[r])
      && (IsRowAt(u, r, id, s.url) ==>
            var c := u.sources[r];
            var p := D.Priority(s.kind);
            r in v.sources && v.sources[r] ==
              c.(lastRun := b.run,
                 source := if p < c.priority then s.source else c.source,
                 priority := if p < c.priority then p else c.priority,
                 publisherId := if p <= c.priority && s.publisherId.Some? then s.publisherId else c.publisherId))
      && (r in v.sources && r !in u.sources ==> IsNewRow(v.sources[r], b, id, job, n) && RowAt(u, id, s.url).None?)
  {
    hide D.Priority, RowAt;
    if r in u.sources {
      AtIsRow(u, id, job.sources[n].url, r);
    }
  }

  lemma OneSight(t: Tables, u: Tables, b: Batch, id: int, job: D.Posting, n: nat, r: int)
    requires n < |job.sources| && UpsertsOk(t, u, id, job, n) && Sighted(t, u, b, id, job, n, r) && id in t.posts
    ensures Sighted(t, Upserted(u, b, id, job, job.sources[n]), b, id, job, n + 1, r)
  {
    UpsertAt(u, b, id, job, n, r);
    hide Urls, UrlsBefore, RowAt, Refreshed, IsNewRow, Upserted, Valid, MadeNew;
    var s := job.sources[n];
    var v := Upserted(u, b, id, job, s);
    if r in t.sources {
      if t.sources[r].posting == id {
        RefreshedHere(t.sources[r], u.sources[r], b, job, 0, n);
        OneMoreReport(t.sources[r], u.sources[r], v.sources[r], b, job, 0, n);
      }
    } else if r in u.sources {
      NewRowAgain(u.sources[r], v.sources[r], b, id, job, n);
    } else if r in v.sources {
      NewRowNow(u, v.sources[r], b, id, job, n);
    }
  }

  lemma RefreshedHere(o: Source, c: Source, b: Batch, job: D.Posting, m: nat, n: nat)
    requires m <= n <= |job.sources| && Refreshed(o, c, b, job, m, n)
    ensures c.posting == o.posting && c.url == o.url
  {
  }

  lemma NewRowAgain(c: Source, d: Source, b: Batch, id: int, job: D.Posting, n: nat)
    requires n < |job.sources| && MadeNew(c, b, id, job, n)
    requires var s := job.sources[n];
      var p := D.Priority(s.kind);
      if c.posting == id && c.url == s.url then
        d == c.(lastRun := b.run,
                source := if p < c.priority then s.source else c.source,
                priority := if p < c.priority then p else c.priority,
                publisherId := if p <= c.priority && s.publisherId.Some? then s.publisherId else c.publisherId)
      else d == c
    ensures MadeNew(d, b, id, job, n + 1)
  {
    hide D.Priority, Refreshed, IsNewRow;
    var i, o :| 0 <= i < n && IsNewRow(o, b, id, job, i) && Refreshed(o, c, b, job, i + 1, n) && forall j :: 0 <= j < i ==> job.sources[j].url != c.url;
    NewIsHere(o, b, id, job, i);
    RefreshedHere(o, c, b, job, i + 1, n);
    OneMoreReport(o, c, d, b, job, i + 1, n);
    assert d.url == c.url;
  }

  lemma NewIsHere(o: Source, b: Batch, id: int, job: D.Posting, i: nat)
    requires i < |job.sources| && IsNewRow(o, b, id, job, i)
    ensures o.posting == id
  {
  }

  lemma NoRowThere(u: Tables, id: int, url: string)
    requires Valid(u) && RowAt(u, id, url).None?
    ensures !RowThere(u, id, url)
  {
    forall r
      ensures !IsRowAt(u, r, id, url)
    {
      RowAtIsComplete(u, id, url, r);
    }
  }

  lemma NewRowNow(u: Tables, c: Source, b: Batch, id: int, job: D.Posting, n: nat)
    requires n < |job.sources| && IsNewRow(c, b, id, job, n) && Valid(u) && RowAt(u, id, job.sources[n].url).None?
    requires forall i :: 0 <= i < n ==> RowThere(u, id, job.sources[i].url)
    ensures MadeNew(c, b, id, job, n + 1)
  {
    hide Refreshed, RowThere, Valid;
    NoRowThere(u, id, job.sources[n].url);
    NoReportYet(c, b, job, n + 1);
  }

  lemma NothingSighted(t: Tables, b: Batch, id: int, job: D.Posting, r: int)
    ensures Sighted(t, t, b, id, job, 0, r)
  {
    if r in t.sources {
      NoReportYet(t.sources[r], b, job, 0);
    }
  }

  /** Upserting a job's reports refreshes the rows at its posting under their URLs, adds new rows, and leaves every other row. */
  lemma {:induction false} UpsertsSight(t: Tables, b: Batch, id: int, job: D.Posting, n: nat, r: int)
    requires n <= |job.sources| && Valid(t) && id in t.posts
    ensures Sighted(t, UpsertedAll(t, b, id, job, n), b, id, job, n, r)
  {
    hide Valid, Sighted, Upserted, UpsertsOk;
    if n > 0 {
      UpsertsSight(t, b, id, job, n - 1, r);
      UpsertsKeepTables(t, b, id, job, n - 1);
      OneSight(t, UpsertedAll(t, b, id, job, n - 1), b, id, job, n - 1, r);
    } else {
      NothingSighted(t, b, id, job, r);
    }
  }

  /** Apart from its posting, a row is what it was. */
  predicate OnlyMoved(a: Source, c: Source) {
    a == c.(posting := a.posting)
  }

  lemma {:induction false} MovesKeepRows(t: Tables, was: Tables, refs: seq<int>, id: int, n: nat, r: int)
    requires n <= |refs| && AreRows(was, refs)
    ensures var u := MovedRows(t, was, refs, id, n);
      r in u.sources ==> r in t.sources && OnlyMoved(u.sources[r], t.sources[r])
  {
    hide RowAt;
    if n > 0 {
      MovesKeepRows(t, was, refs, id, n - 1, r);
    }
  }

  /** A row after a job went to posting `id`: refreshed there, where it was or moved, made new there, or left alone. */
  ghost predicate AfterJob(t: Tables, u: Tables, b: Batch, id: int, job: D.Posting, r: int) {
    r in u.sources ==>
      if r !in t.sources then MadeNew(u.sources[r], b, id, job, |job.sources|) && u.sources[r].posting == id
      else if u.sources[r].posting == id then Refreshed(t.sources[r].(posting := id), u.sources[r], b, job, 0, |job.sources|)
      else u.sources[r] == t.sources[r]
  }

  lemma JobSights(was: Tables, b: Batch, run: Run, job: D.Posting, r: int)
    requires RunOk(was, run) && (forall id :: id in run.claimed ==> run.claimed[id] != job.key)
    ensures AfterJob(run.tables, StoredJob(was, b, run, job).tables, b, RowWritten(was, b, run, job).1, job, r)
  {
    hide RowWritten, StoredJob, MovedRows, RunOk, UpsertedAll, RefsOf;
    var u, v := StoredInStages(was, b, run, job);
    var (t, id) := RowWritten(was, b, run, job);
    var refs := RefsOf(was, b, job);
    MovesKeepRows(t, was, refs, id, |refs|, r);
    StoredIsUpserted(was, b, run, job, u);
    UpsertsSight(u, b, id, job, |job.sources|, r);
    hide Valid, Refreshed;
    StageByStage(run.tables, t, u, v, b, refs, id, job, r);
  }

  lemma StoredIsUpserted(was: Tables, b: Batch, run: Run, job: D.Posting, u: Tables)
    requires AreRows(was, RefsOf(was, b, job))
    requires var (t, id) := RowWritten(was, b, run, job); u == MovedRows(t, was, RefsOf(was, b, job), id, |RefsOf(was, b, job)|)
    ensures StoredJob(was, b, run, job).tables == UpsertedAll(u, b, RowWritten(was, b, run, job).1, job, |job.sources|)
  {
    hide RowWritten, MovedRows, UpsertedAll, RefsOf;
  }

  lemma StageByStage(s: Tables, t: Tables, u: Tables, v: Tables, b: Batch, refs: seq<int>, id: int, job: D.Posting, r: int)
    requires s.sources == t.sources && Valid(t) && MovesOk(t, u, refs, id, |refs|) && UpsertsOk(u, v, id, job, |job.sources|)
    requires r in u.sources ==> r in t.sources && OnlyMoved(u.sources[r], t.sources[r])
    requires Sighted(u, v, b, id, job, |job.sources|, r)
    ensures AfterJob(s, v, b, id, job, r)
  {
    hide Urls, Refreshed, MadeNew, UniqueKeys, UniqueRows, NoOrphans;
  }

  // ----------------------------------------------------------------------------------------
  // The whole batch
  // ----------------------------------------------------------------------------------------

  /**
   * A row that was stored is as it was but for its posting, unless a job has reported it: then it was seen in this run, and
   * may be under another source, rank and id. A row that was not stored was seen in this run.
   */
  predicate FromSnapshot(was: Tables, t: Tables, b: Batch, reported: bool, r: int)
    requires r in t.sources
  {
    var c := t.sources[r];
    if r !in was.sources then c.lastRun == b.run && c.absences == 0
    else
      var o := was.sources[r];
      && c == o.(posting := c.posting, lastRun := c.lastRun, source := c.source, priority := c.priority, publisherId := c.publisherId)
      && (if reported then c.lastRun == b.run else c == o.(posting := c.posting))
  }

  /** One of the first jobs had the row at its posting, under a URL of its own, when it was stored. */
  ghost predicate Reported(was: Tables, b: Batch, jobs: seq<D.Posting>, n: nat, r: int)
    requires n <= |jobs|
  {
    exists k :: 0 <= k < n && ReportedBy(was, b, jobs, k, r)
  }

  ghost predicate ReportedBy(was: Tables, b: Batch, jobs: seq<D.Posting>, k: nat, r: int)
    requires k < |jobs|
  {
    var next := StoredJobs(was, b, jobs, k + 1);
    |next.rows| == k + 1 && IsAt(next.tables, r, next.rows[k]) && next.tables.sources[r].url in UrlsOf(jobs[k])
  }

  lemma UrlBefore(job: D.Posting, n: nat, i: nat)
    requires i < n <= |job.sources|
    ensures job.sources[i].url in UrlsBefore(job, n)
    decreases n
  {
    if i < n - 1 {
      UrlBefore(job, n - 1, i);
    }
  }

  /** A refreshed row no report is about is as it was. */
  lemma UnreportedIsSame(o: Source, c: Source, b: Batch, job: D.Posting)
    requires Refreshed(o, c, b, job, 0, |job.sources|) && o.url !in UrlsOf(job)
    ensures c == o
  {
    forall i | 0 <= i < |job.sources|
      ensures job.sources[i].url != o.url
    {
      UrlBefore(job, |job.sources|, i);
    }
  }

  lemma RefreshedFacts(o: Source, c: Source, b: Batch, job: D.Posting, m: nat)
    requires m <= |job.sources| && Refreshed(o, c, b, job, m, |job.sources|)
    ensures c == o.(lastRun := c.lastRun, source := c.source, priority := c.priority, publisherId := c.publisherId)
    ensures c.lastRun == b.run || c.lastRun == o.lastRun
    ensures forall i :: m <= i < |job.sources| && job.sources[i].url == c.url ==> c.lastRun == b.run
  {
    hide HoldsBest, HoldsId;
  }

  lemma NewRowFacts(c: Source, b: Batch, id: int, job: D.Posting)
    requires MadeNew(c, b, id, job, |job.sources|)
    ensures c.lastRun == b.run && c.absences == 0
  {
    hide Refreshed;
    var i, o :| 0 <= i < |job.sources| && IsNewRow(o, b, id, job, i) && Refreshed(o, c, b, job, i + 1, |job.sources|);
    RefreshedFacts(o, c, b, job, i + 1);
  }

  lemma UrlIsReported(job: D.Posting, n: nat, url: string) returns (i: nat)
    requires n <= |job.sources| && url in UrlsBefore(job, n)
    ensures i < n && job.sources[i].url == url
  {
    i := n - 1;
    if job.sources[i].url != url {
      i := UrlIsReported(job, n - 1, url);
    }
  }

  lemma ReportOf(job: D.Posting, url: string) returns (i: nat)
    requires url in UrlsOf(job)
    ensures i < |job.sources| && job.sources[i].url == url
  {
    i := UrlIsReported(job, |job.sources|, url);
  }

  lemma StaysFromSnapshot(was: Tables, t: Tables, u: Tables, b: Batch, id: int, job: D.Posting, reported: bool, r: int)
    requires r in u.sources && AfterJob(t, u, b, id, job, r) && (r in t.sources ==> FromSnapshot(was, t, b, reported, r))
    requires r !in t.sources ==> r !in was.sources
    ensures FromSnapshot(was, u, b, reported || (u.sources[r].posting == id && u.sources[r].url in UrlsOf(job)), r)
  {
    hide Refreshed, MadeNew, UrlsOf;
    if r !in t.sources {
      NewRowFacts(u.sources[r], b, id, job);
    } else if u.sources[r].posting == id {
      var o := t.sources[r].(posting := id);
      RefreshedFacts(o, u.sources[r], b, job, 0);
      if o.url !in UrlsOf(job) {
        UnreportedIsSame(o, u.sources[r], b, job);
      } else {
        var i := ReportOf(job, o.url);
      }
    }
  }

  /** Storing one more job, said of each row. */
  lemma NextSights(was: Tables, b: Batch, jobs: seq<D.Posting>, n: nat, r: int)
    requires Valid(was) && DistinctJobs(jobs) && n < |jobs|
    ensures var run, next := StoredJobs(was, b, jobs, n), StoredJobs(was, b, jobs, n + 1);
      && |next.rows| == n + 1 && next.rows[..n] == run.rows && next.rows[n] !in run.rows
      && AfterJob(run.tables, next.tables, b, next.rows[n], jobs[n], r)
      && (r in next.tables.sources && r !in run.tables.sources ==> r !in was.sources)
  {
    var run := StoredJobs(was, b, jobs, n);
    JobsAreStored(was, b, jobs, n);
    KeysAreNew(run, jobs, n);
    NextJob(was, b, jobs, n);
    JobSights(was, b, run, jobs[n], r);
    NewAboveOld(was, b, run, jobs[n], r);
    hide StoredJob, RowWritten, AfterJob, Valid, RunOk;
  }

  lemma NewAboveOld(was: Tables, b: Batch, run: Run, job: D.Posting, r: int)
    requires RunOk(was, run) && (forall id :: id in run.claimed ==> run.claimed[id] != job.key)
    ensures r in StoredJob(was, b, run, job).tables.sources && r !in run.tables.sources ==> r !in was.sources
  {
    hide RowWritten, StoredJob, MovedRows, UpsertedAll, RefsOf;
    var u, v := StoredInStages(was, b, run, job);
    RowIsWritten(was, b, run, job);
    hide Urls, UniqueKeys, UniqueRows, NoOrphans;
  }

  /** After any jobs, a row that is left is the stored one, or a new one. */
  lemma {:induction false} RowsAreFromSnapshot(was: Tables, b: Batch, jobs: seq<D.Posting>, n: nat, r: int)
    requires Valid(was) && DistinctJobs(jobs) && n <= |jobs|
    ensures var t := StoredJobs(was, b, jobs, n).tables; r in t.sources ==> FromSnapshot(was, t, b, Reported(was, b, jobs, n, r), r)
  {
    hide StoredJob, Valid, DistinctJobs, AfterJob, FromSnapshot, UrlsOf;
    if n > 0 {
      RowsAreFromSnapshot(was, b, jobs, n - 1, r);
      NextSights(was, b, jobs, n - 1, r);
      ReportedNext(was, b, jobs, n - 1, r);
      var t, u := StoredJobs(was, b, jobs, n - 1).tables, StoredJobs(was, b, jobs, n).tables;
      var id := StoredJobs(was, b, jobs, n).rows[n - 1];
      hide StoredJobs, Reported;
      if r in u.sources {
        StaysFromSnapshot(was, t, u, b, id, jobs[n - 1], Reported(was, b, jobs, n - 1, r), r);
      }
    } else {
      SnapshotIsItself(was, b, jobs, r);
    }
  }

  lemma ReportedNext(was: Tables, b: Batch, jobs: seq<D.Posting>, n: nat, r: int)
    requires n < |jobs|
    ensures Reported(was, b, jobs, n + 1, r) <==> Reported(was, b, jobs, n, r) || ReportedBy(was, b, jobs, n, r)
  {
    hide ReportedBy;
  }

  lemma SnapshotIsItself(was: Tables, b: Batch, jobs: seq<D.Posting>, r: int)
    ensures !Reported(was, b, jobs, 0, r) && (r in was.sources ==> FromSnapshot(was, was, b, false, r))
  {
  }

  /** What later jobs leave at a job's posting they leave as that job left it. */
  lemma {:induction false} LaterJobsLeaveRows(was: Tables, b: Batch, jobs: seq<D.Posting>, j: nat, n: nat, r: int)
    requires Valid(was) && DistinctJobs(jobs) && j < n <= |jobs|
    ensures var first, run := StoredJobs(was, b, jobs, j + 1), StoredJobs(was, b, jobs, n);
      && |first.rows| == j + 1 && |run.rows| == n && run.rows[j] == first.rows[j]
      && (IsAt(run.tables, r, run.rows[j]) ==> r in first.tables.sources && run.tables.sources[r] == first.tables.sources[r])
    decreases n
  {
    hide StoredJobs, Valid, DistinctJobs, Refreshed, MadeNew;
    RowsGrow(was, b, jobs, j + 1, n);
    if j + 1 < n {
      LaterJobsLeaveRows(was, b, jobs, j, n - 1, r);
      NextSights(was, b, jobs, n - 1, r);
    }
  }

  /** A report's row was seen in this run: the one at its job's posting under its URL, when its job is stored. */
  lemma JobIsSighted(was: Tables, b: Batch, jobs: seq<D.Posting>, j: nat, i: nat, r: int)
    requires Valid(was) && DistinctJobs(jobs) && j < |jobs| && i < |jobs[j].sources|
    ensures var next := StoredJobs(was, b, jobs, j + 1);
      |next.rows| == j + 1 && (IsRowAt(next.tables, r, next.rows[j], jobs[j].sources[i].url) ==> next.tables.sources[r].lastRun == b.run)
  {
    NextSights(was, b, jobs, j, r);
    hide StoredJobs, Valid, DistinctJobs, Refreshed, MadeNew;
    var t, next := StoredJobs(was, b, jobs, j).tables, StoredJobs(was, b, jobs, j + 1);
    if IsRowAt(next.tables, r, next.rows[j], jobs[j].sources[i].url) {
      if r in t.sources {
        RefreshedFacts(t.sources[r].(posting := next.rows[j]), next.tables.sources[r], b, jobs[j], 0);
      } else {
        NewRowFacts(next.tables.sources[r], b, next.rows[j], jobs[j]);
      }
    }
  }

  /**
   * After the batch: whatever row is at a job's posting under one of the job's URLs was seen in this run; a stored row
   * that no job reported is as it was, but for its posting; a stored row that is left keeps its absences, its date and its
   * URL, whoever reported it, and a new one has no absences.
   */
  lemma BatchSights(was: Tables, b: Batch, jobs: seq<D.Posting>, r: int)
    requires Valid(was) && DistinctJobs(jobs) && r in Persisted(was, b, jobs).sources
    ensures var t, rows := Persisted(was, b, jobs), StoredJobs(was, b, jobs, |jobs|).rows;
      && |rows| == |jobs| && FromSnapshot(was, t, b, Reported(was, b, jobs, |jobs|, r), r)
      && (forall j, i :: 0 <= j < |jobs| && 0 <= i < |jobs[j].sources| && IsRowAt(t, r, rows[j], jobs[j].sources[i].url) ==>
            t.sources[r].lastRun == b.run)
  {
    var run, t := StoredJobs(was, b, jobs, |jobs|), Persisted(was, b, jobs);
    assert t.sources == run.tables.sources;
    RowsAreFromSnapshot(was, b, jobs, |jobs|, r);
    RowCount(was, b, jobs, |jobs|);
    SameSourcesSameSnapshot(was, run.tables, t, b, Reported(was, b, jobs, |jobs|, r), r);
    hide StoredJobs, Persisted, Valid, DistinctJobs, FromSnapshot, Reported;
    forall j: nat, i: nat | j < |jobs| && i < |jobs[j].sources| && IsRowAt(t, r, run.rows[j], jobs[j].sources[i].url)
      ensures t.sources[r].lastRun == b.run
    {
      LaterJobsLeaveRows(was, b, jobs, j, |jobs|, r);
      JobIsSighted(was, b, jobs, j, i, r);
    }
  }

  lemma SameSourcesSameSnapshot(was: Tables, t: Tables, u: Tables, b: Batch, reported: bool, r: int)
    requires t.sources == u.sources && r in t.sources && FromSnapshot(was, t, b, reported, r)
    ensures FromSnapshot(was, u, b, reported, r)
  {
  }

  /** The same of the reports of any batch. */
  lemma ReportsAreSighted(was: Tables, b: Batch, raws: seq<D.Raw>, fallback: int, r: int)
    requires Valid(was) && r in BatchStored(was, b, raws, fallback).sources
    ensures var jobs, t := D.MaterializedAll(D.DedupedGroups(raws), fallback), BatchStored(was, b, raws, fallback);
      var rows := StoredJobs(was, b, jobs, |jobs|).rows;
      && |rows| == |jobs| && FromSnapshot(was, t, b, Reported(was, b, jobs, |jobs|, r), r)
      && (forall j, i :: 0 <= j < |jobs| && 0 <= i < |jobs[j].sources| && IsRowAt(t, r, rows[j], jobs[j].sources[i].url) ==>
            t.sources[r].lastRun == b.run)
  {
    var jobs := D.MaterializedAll(D.DedupedGroups(raws), fallback);
    DedupedJobsAreDistinct(raws, fallback);
    hide D.DedupedGroups, D.MaterializedAll, StoredJobs, Persisted, Valid, FromSnapshot, ReportedBy;
    if raws == [] {
      NoReportsNoJobs(fallback);
      SnapshotIsItself(was, b, jobs, r);
      RowCount(was, b, jobs, |jobs|);
    } else {
      BatchSights(was, b, jobs, r);
    }
  }
}
