/** What becomes of the source rows and the posting of each job of a batch once the later jobs are stored. */
module IngestFates {
  import opened Options
  import opened Rows
  import opened Ingest
  import opened IngestLaws
  import D = Dedupe
  import L = DedupeLaws

  predicate IsAt(t: Tables, r: int, p: int) {
    r in t.sources && t.sources[r].posting == p
  }

  /** A job that goes to posting `id` refers to stored row `r`, which the snapshot had elsewhere. */
  predicate Pulls(was: Tables, b: Batch, job: D.Posting, id: int, r: int) {
    r in was.sources && r in RefsOf(was, b, job) && was.sources[r].posting != id
  }

  /** Of the first `n` jobs, one after job `j` pulls row `r`; `rows` are the postings of the jobs. */
  predicate PulledLater(was: Tables, b: Batch, jobs: seq<D.Posting>, rows: seq<int>, j: nat, n: nat, r: int)
    requires n <= |jobs| && n <= |rows|
  {
    exists k :: j < k < n && Pulls(was, b, jobs[k], rows[k], r)
  }

  // ----------------------------------------------------------------------------------------
  // One job
  // ----------------------------------------------------------------------------------------

  /** A stored job's tables, before and after its rows are upserted. */
  lemma StoredInStages(was: Tables, b: Batch, run: Run, job: D.Posting) returns (u: Tables, v: Tables)
    requires RunOk(was, run) && (forall id :: id in run.claimed ==> run.claimed[id] != job.key)
    ensures AreRows(was, RefsOf(was, b, job))
    ensures var (t, id) := RowWritten(was, b, run, job);
      && u == MovedRows(t, was, RefsOf(was, b, job), id, |RefsOf(was, b, job)|)
      && t.sources == run.tables.sources && Valid(t) && id in t.posts && id !in run.claimed
      && MovesOk(t, u, RefsOf(was, b, job), id, |RefsOf(was, b, job)|) && UpsertsOk(u, v, id, job, |job.sources|)
    ensures v == StoredJob(was, b, run, job).tables
  {
    hide RowWritten, Upserted, MovedRow;
    var refs := RefsOf(was, b, job);
    var (t, id) := RowWritten(was, b, run, job);
    RowIsWritten(was, b, run, job);
    RefsAreRows(was, b, job, |job.sources|);
    RefsDoNotRepeat(was, b, job, |job.sources|);
    ClaimedRowsAreUnmoved(was, run, t, id);
    MovesKeepTables(was, t, refs, id, |refs|);
    u := MovedRows(t, was, refs, id, |refs|);
    UpsertsKeepTables(u, b, id, job, |job.sources|);
    v := UpsertedAll(u, b, id, job, |job.sources|);
  }

  /** Moved is the row that a job takes, and only that. */
  lemma MovedIff(was: Tables, t: Tables, u: Tables, refs: seq<int>, id: int, r: int)
    requires AreRows(was, refs) && u == MovedRows(t, was, refs, id, |refs|) && MovesOk(t, u, refs, id, |refs|)
    ensures r in u.sources ==> r in t.sources && u.sources[r].url == t.sources[r].url
    ensures r in t.sources ==>
              if r in refs && was.sources[r].posting != id then r in u.sources ==> u.sources[r].posting == id
              else r in u.sources && u.sources[r] == t.sources[r]
  {
    hide Valid, Urls, MovedRows;
    assert refs[..|refs|] == refs;
    if r in t.sources {
      MovesAreExact(was, t, refs, id, |refs|, r);
    }
  }

  lemma UpsertedAt(u: Tables, v: Tables, id: int, job: D.Posting, p: int, r: int)
    requires UpsertsOk(u, v, id, job, |job.sources|)
    ensures p != id ==> (IsAt(v, r, p) <==> IsAt(u, r, p))
    ensures r in u.sources ==> r in v.sources && SamePlace(v.sources[r], u.sources[r])
  {
    hide Valid, Urls;
  }

  /** Through one job, a row stays at another posting exactly when the job does not pull it; none comes. */
  lemma RowStaysIff(was: Tables, b: Batch, run: Run, job: D.Posting, p: int, r: int)
    requires RunOk(was, run) && (forall id :: id in run.claimed ==> run.claimed[id] != job.key)
    requires p != RowWritten(was, b, run, job).1
    ensures IsAt(StoredJob(was, b, run, job).tables, r, p)
            <==> IsAt(run.tables, r, p) && !Pulls(was, b, job, RowWritten(was, b, run, job).1, r)
  {
    hide RowWritten, StoredJob, MovedRows, RunOk, Valid, MovesOk, UpsertsOk, RefsOf;
    var u, v := StoredInStages(was, b, run, job);
    var (t, id) := RowWritten(was, b, run, job);
    MovedIff(was, t, u, RefsOf(was, b, job), id, r);
    UpsertedAt(u, v, id, job, p, r);
  }

  /** A row at the posting a job goes to stays there, unless the snapshot had it elsewhere and the job refers to it. */
  lemma OwnRowStays(was: Tables, b: Batch, run: Run, job: D.Posting, r: int, url: string)
    requires RunOk(was, run) && (forall id :: id in run.claimed ==> run.claimed[id] != job.key)
    requires var id := RowWritten(was, b, run, job).1; IsRowAt(run.tables, r, id, url) && !Pulls(was, b, job, id, r)
    ensures IsRowAt(StoredJob(was, b, run, job).tables, r, RowWritten(was, b, run, job).1, url)
  {
    hide RowWritten, StoredJob, MovedRows, RunOk, Valid, MovesOk, UpsertsOk, RefsOf;
    var u, v := StoredInStages(was, b, run, job);
    var (t, id) := RowWritten(was, b, run, job);
    MovedIff(was, t, u, RefsOf(was, b, job), id, r);
    UpsertedAt(u, v, id, job, id, r);
  }

  // ----------------------------------------------------------------------------------------
  // The whole batch
  // ----------------------------------------------------------------------------------------

  /** Storing one more job of a batch: it goes to a posting that no earlier job went to. */
  lemma NextJob(was: Tables, b: Batch, jobs: seq<D.Posting>, n: nat)
    requires Valid(was) && DistinctJobs(jobs) && n < |jobs|
    ensures var run, next := StoredJobs(was, b, jobs, n), StoredJobs(was, b, jobs, n + 1);
      && |run.rows| == n && next.rows == run.rows + [RowWritten(was, b, run, jobs[n]).1] && next.rows[n] !in run.rows
  {
    var run := StoredJobs(was, b, jobs, n);
    JobsAreStored(was, b, jobs, n);
    JobsAreStored(was, b, jobs, n + 1);
    KeysAreNew(run, jobs, n);
    JobIsStored(was, b, run, jobs[n]);
    hide RowWritten, MovedRows, UpsertedAll, Origins, Valid, JobUrlsStored, RunOk;
  }

  lemma RowCount(was: Tables, b: Batch, jobs: seq<D.Posting>, n: nat)
    requires Valid(was) && DistinctJobs(jobs) && n <= |jobs|
    ensures |StoredJobs(was, b, jobs, n).rows| == n
  {
    hide StoredJobs, RunOk, Valid, DistinctJobs;
    JobsAreStored(was, b, jobs, n);
  }

  /** The postings of the first jobs are settled. */
  lemma {:induction false} RowsGrow(was: Tables, b: Batch, jobs: seq<D.Posting>, m: nat, n: nat)
    requires Valid(was) && DistinctJobs(jobs) && m <= n <= |jobs|
    ensures |StoredJobs(was, b, jobs, m).rows| == m && |StoredJobs(was, b, jobs, n).rows| == n
    ensures StoredJobs(was, b, jobs, m).rows == StoredJobs(was, b, jobs, n).rows[..m]
    decreases n
  {
    hide *;
    RowCount(was, b, jobs, m);
    RowCount(was, b, jobs, n);
    if m < n {
      RowsGrow(was, b, jobs, m, n - 1);
      NextJob(was, b, jobs, n - 1);
    }
  }

  /** Through the next job, a row stays at an earlier job's posting exactly when that job does not pull it. */
  lemma RowOutlastsNext(was: Tables, b: Batch, jobs: seq<D.Posting>, j: nat, n: nat, r: int)
    requires Valid(was) && DistinctJobs(jobs) && j < n < |jobs|
    ensures var run, next := StoredJobs(was, b, jobs, n), StoredJobs(was, b, jobs, n + 1);
      && |run.rows| == n && |next.rows| == n + 1 && next.rows[..n] == run.rows
      && (IsAt(next.tables, r, run.rows[j]) <==> IsAt(run.tables, r, run.rows[j]) && !Pulls(was, b, jobs[n], next.rows[n], r))
  {
    var run := StoredJobs(was, b, jobs, n);
    JobsAreStored(was, b, jobs, n);
    KeysAreNew(run, jobs, n);
    NextJob(was, b, jobs, n);
    hide StoredJob, RunOk, Valid, DistinctJobs, Pulls, RowWritten, IsAt, ClaimsOk;
    RowStaysIff(was, b, run, jobs[n], run.rows[j], r);
  }

  /** A row that a job has when it is stored is still there after later jobs exactly when none of them pulls it. */
  lemma {:induction false} RowLastsIff(was: Tables, b: Batch, jobs: seq<D.Posting>, j: nat, n: nat, r: int)
    requires Valid(was) && DistinctJobs(jobs) && j < n <= |jobs|
    ensures var first, run := StoredJobs(was, b, jobs, j + 1), StoredJobs(was, b, jobs, n);
      && |first.rows| == j + 1 && |run.rows| == n && run.rows[j] == first.rows[j]
      && (IsAt(run.tables, r, run.rows[j])
          <==> IsAt(first.tables, r, run.rows[j]) && !PulledLater(was, b, jobs, run.rows, j, n, r))
    decreases n
  {
    hide StoredJobs, Valid, DistinctJobs, Pulls, IsAt;
    RowsGrow(was, b, jobs, j + 1, n);
    if j + 1 < n {
      RowLastsIff(was, b, jobs, j, n - 1, r);
      RowOutlastsNext(was, b, jobs, j, n - 1, r);
      hide PulledLater;
      var run, next := StoredJobs(was, b, jobs, n - 1), StoredJobs(was, b, jobs, n);
      PulledByNext(was, b, jobs, run.rows, next.rows, j, n - 1, r);
    }
  }

  lemma PulledByNext(was: Tables, b: Batch, jobs: seq<D.Posting>, rows: seq<int>, more: seq<int>, j: nat, n: nat, r: int)
    requires j < n < |jobs| && |rows| == n && |more| == n + 1 && more[..n] == rows
    ensures PulledLater(was, b, jobs, more, j, n + 1, r)
            <==> PulledLater(was, b, jobs, rows, j, n, r) || Pulls(was, b, jobs[n], more[n], r)
  {
    hide Pulls;
    assert forall k :: 0 <= k < n ==> more[k] == rows[k];
    if PulledLater(was, b, jobs, more, j, n + 1, r) {
      var k :| j < k < n + 1 && Pulls(was, b, jobs[k], more[k], r);
      assert k < n ==> Pulls(was, b, jobs[k], rows[k], r);
    }
    if PulledLater(was, b, jobs, rows, j, n, r) {
      var k :| j < k < n && Pulls(was, b, jobs[k], rows[k], r);
      assert Pulls(was, b, jobs[k], more[k], r);
    }
  }

  // ----------------------------------------------------------------------------------------
  // Which postings are emptied, and which are delisted
  // ----------------------------------------------------------------------------------------

  /** One of the first `n` jobs pulls a row that the snapshot had at posting `p`. */
  predicate Robbed(was: Tables, b: Batch, jobs: seq<D.Posting>, rows: seq<int>, n: nat, p: int)
    requires n <= |jobs| && n <= |rows|
  {
    exists k :: 0 <= k < n && PullsFrom(was, b, jobs[k], rows[k], p)
  }

  predicate PullsFrom(was: Tables, b: Batch, job: D.Posting, id: int, p: int) {
    exists r :: r in was.sources && Pulls(was, b, job, id, r) && was.sources[r].posting == p
  }

  lemma OriginsArePulled(was: Tables, b: Batch, job: D.Posting, id: int, p: int)
    ensures AreRows(was, RefsOf(was, b, job))
    ensures p in Origins(was, RefsOf(was, b, job), id) <==> PullsFrom(was, b, job, id, p)
  {
    RefsAreRows(was, b, job, |job.sources|);
    var refs := RefsOf(was, b, job);
    hide RefsOf, Contradicts, References;
    if p in Origins(was, refs, id) {
      var i :| 0 <= i < |refs| && was.sources[refs[i]].posting != id && was.sources[refs[i]].posting == p;
      assert Pulls(was, b, job, id, refs[i]);
    }
    if PullsFrom(was, b, job, id, p) {
      var r :| r in was.sources && Pulls(was, b, job, id, r) && was.sources[r].posting == p;
      var i :| 0 <= i < |refs| && refs[i] == r;
      assert was.sources[refs[i]].posting in Origins(was, refs, id);
    }
  }

  lemma NextMoves(was: Tables, b: Batch, jobs: seq<D.Posting>, n: nat, p: int)
    requires Valid(was) && DistinctJobs(jobs) && n < |jobs|
    ensures var run, next := StoredJobs(was, b, jobs, n), StoredJobs(was, b, jobs, n + 1);
      |next.rows| == n + 1 && (p in next.movedFrom <==> p in run.movedFrom || PullsFrom(was, b, jobs[n], next.rows[n], p))
  {
    NextJob(was, b, jobs, n);
    var run, next := StoredJobs(was, b, jobs, n), StoredJobs(was, b, jobs, n + 1);
    OriginsArePulled(was, b, jobs[n], next.rows[n], p);
    hide RowWritten, MovedRows, UpsertedAll, Origins, Valid, PullsFrom;
  }

  /** The postings to retire are the clones and those a row was pulled from. */
  lemma {:induction false} MovedFromIff(was: Tables, b: Batch, jobs: seq<D.Posting>, n: nat, p: int)
    requires Valid(was) && DistinctJobs(jobs) && n <= |jobs|
    ensures var run := StoredJobs(was, b, jobs, n);
      |run.rows| == n && (p in run.movedFrom <==> p in Clones(was) || Robbed(was, b, jobs, run.rows, n, p))
  {
    hide StoredJob, Valid, DistinctJobs, Clones, PullsFrom;
    if n > 0 {
      MovedFromIff(was, b, jobs, n - 1, p);
      NextMoves(was, b, jobs, n - 1, p);
      RowsGrow(was, b, jobs, n - 1, n);
      hide StoredJobs, Robbed;
      RobbedByNext(was, b, jobs, StoredJobs(was, b, jobs, n - 1).rows, StoredJobs(was, b, jobs, n).rows, n - 1, p);
    }
  }

  lemma RobbedByNext(was: Tables, b: Batch, jobs: seq<D.Posting>, rows: seq<int>, more: seq<int>, n: nat, p: int)
    requires n < |jobs| && |rows| == n && |more| == n + 1 && more[..n] == rows
    ensures Robbed(was, b, jobs, more, n + 1, p) <==> Robbed(was, b, jobs, rows, n, p) || PullsFrom(was, b, jobs[n], more[n], p)
  {
    hide PullsFrom;
    assert forall k :: 0 <= k < n ==> more[k] == rows[k];
    if Robbed(was, b, jobs, more, n + 1, p) {
      var k :| 0 <= k < n + 1 && PullsFrom(was, b, jobs[k], more[k], p);
      assert k < n ==> PullsFrom(was, b, jobs[k], rows[k], p);
    }
    if Robbed(was, b, jobs, rows, n, p) {
      var k :| 0 <= k < n && PullsFrom(was, b, jobs[k], rows[k], p);
      assert PullsFrom(was, b, jobs[k], more[k], p);
    }
  }

  /** Every row that job `j` has when it is stored is pulled by a later job. */
  ghost predicate EveryRowIsPulled(was: Tables, b: Batch, jobs: seq<D.Posting>, rows: seq<int>, j: nat)
    requires j < |jobs| <= |rows|
  {
    forall r :: IsAt(StoredJobs(was, b, jobs, j + 1).tables, r, rows[j]) ==> PulledLater(was, b, jobs, rows, j, |jobs|, r)
  }

  /** A reported job's posting ends the batch without a source exactly when later jobs pull every row it had. */
  lemma JobIsEmptiedIff(was: Tables, b: Batch, jobs: seq<D.Posting>, j: nat)
    requires Valid(was) && DistinctJobs(jobs) && j < |jobs|
    ensures var rows := StoredJobs(was, b, jobs, |jobs|).rows;
      |rows| == |jobs| && (!HasSource(Persisted(was, b, jobs), rows[j]) <==> EveryRowIsPulled(was, b, jobs, rows, j))
  {
    var run, t := StoredJobs(was, b, jobs, |jobs|), Persisted(was, b, jobs);
    RowCount(was, b, jobs, |jobs|);
    assert t.sources == run.tables.sources;
    var p := run.rows[j];
    hide StoredJobs, Persisted, Valid, DistinctJobs, PulledLater;
    forall r
      ensures IsAt(t, r, p) <==> IsAt(StoredJobs(was, b, jobs, j + 1).tables, r, p) && !PulledLater(was, b, jobs, run.rows, j, |jobs|, r)
    {
      RowLastsIff(was, b, jobs, j, |jobs|, r);
    }
    assert HasSource(t, p) <==> exists r :: IsAt(t, r, p) by {
      assert forall r :: IsAt(t, r, p) <==> r in t.sources && t.sources[r].posting == p;
    }
  }

  /** The mark a posting had before the batch; a new posting had none. */
  function MarkBefore(was: Tables, p: int): Option<Mark> {
    if p in was.posts then was.posts[p].delisted else None
  }

  /**
   * What a batch does to the posting of a job it reports: it delists it exactly when later jobs pull every row the
   * job had, and the posting was a clone or some job pulled a row the snapshot had there. Else its mark stays.
   */
  lemma JobIsDelistedIff(was: Tables, b: Batch, jobs: seq<D.Posting>, j: nat)
    requires Valid(was) && DistinctJobs(jobs) && j < |jobs|
    ensures var rows, t := StoredJobs(was, b, jobs, |jobs|).rows, Persisted(was, b, jobs);
      && |rows| == |jobs| && rows[j] in t.posts
      && t.posts[rows[j]].delisted ==
         if EveryRowIsPulled(was, b, jobs, rows, j) && (rows[j] in Clones(was) || Robbed(was, b, jobs, rows, |jobs|, rows[j]))
         then Some(Mark(b.now, Ghost)) else MarkBefore(was, rows[j])
  {
    var run, t := StoredJobs(was, b, jobs, |jobs|), Persisted(was, b, jobs);
    JobsAreStored(was, b, jobs, |jobs|);
    JobIsEmptiedIff(was, b, jobs, j);
    MovedFromIff(was, b, jobs, |jobs|, run.rows[j]);
    hide StoredJobs, EveryRowIsPulled, Robbed, Clones, Valid;
    var p := run.rows[j];
    assert p in run.tables.posts && run.tables.posts[p].delisted == MarkBefore(was, p);
    assert HasSource(t, p) <==> HasSource(run.tables, p);
  }

  // ----------------------------------------------------------------------------------------
  // What the caller can check
  // ----------------------------------------------------------------------------------------

  /** No other job refers to a stored row with the URL of source `i` of job `j`. */
  ghost predicate HasPageOfItsOwn(was: Tables, b: Batch, jobs: seq<D.Posting>, j: nat, i: nat)
    requires j < |jobs| && i < |jobs[j].sources|
  {
    forall k :: 0 <= k < |jobs| && k != j ==> AvoidsUrl(was, b, jobs[k], jobs[j].sources[i].url)
  }

  /** A job one of whose pages no other job refers to keeps its posting, with a source and the mark it had. */
  lemma JobWithItsPageStays(was: Tables, b: Batch, jobs: seq<D.Posting>, j: nat, i: nat)
    requires Valid(was) && DistinctJobs(jobs) && j < |jobs| && i < |jobs[j].sources| && HasPageOfItsOwn(was, b, jobs, j, i)
    ensures var rows, t := StoredJobs(was, b, jobs, |jobs|).rows, Persisted(was, b, jobs);
      |rows| == |jobs| && HasSource(t, rows[j]) && rows[j] in t.posts && t.posts[rows[j]].delisted == MarkBefore(was, rows[j])
  {
    JobIsDelistedIff(was, b, jobs, j);
    JobIsEmptiedIff(was, b, jobs, j);
    hide Valid, DistinctJobs, AvoidsUrl, EveryRowIsPulled, Robbed, Clones, StoredJobs;
    JobKeepsItsUrl(was, b, jobs, j, i, |jobs|);
    var run, t := StoredJobs(was, b, jobs, |jobs|), Persisted(was, b, jobs);
    assert t.sources == run.tables.sources;
    var r :| IsRowAt(run.tables, r, run.rows[j], jobs[j].sources[i].url);
    assert r in t.sources && t.sources[r].posting == run.rows[j];
  }

  ghost predicate ShareNoRow(was: Tables, b: Batch, jobs: seq<D.Posting>) {
    forall j, k, r :: 0 <= j < |jobs| && 0 <= k < |jobs| && j != k && r in RefsOf(was, b, jobs[j]) ==> r !in RefsOf(was, b, jobs[k])
  }

  /** No stored row under a URL of the job names another publisher's id for it. */
  ghost predicate NoContradiction(was: Tables, b: Batch, job: D.Posting) {
    forall i, r :: 0 <= i < |job.sources| && r in was.sources && was.sources[r].url == job.sources[i].url ==>
                     !Contradicts(b, job.sources[i], was.sources[r])
  }

  /** So no reported job is emptied or delisted when no two refer to one row, and none contradicts a stored row. */
  lemma UnsharedJobsStay(was: Tables, b: Batch, jobs: seq<D.Posting>, j: nat)
    requires Valid(was) && DistinctJobs(jobs) && j < |jobs| && |jobs[j].sources| > 0
    requires ShareNoRow(was, b, jobs) && NoContradiction(was, b, jobs[j])
    ensures var rows, t := StoredJobs(was, b, jobs, |jobs|).rows, Persisted(was, b, jobs);
      |rows| == |jobs| && HasSource(t, rows[j]) && rows[j] in t.posts && t.posts[rows[j]].delisted == MarkBefore(was, rows[j])
  {
    forall k | 0 <= k < |jobs| && k != j
      ensures AvoidsUrl(was, b, jobs[k], jobs[j].sources[0].url)
    {
      forall i | 0 <= i < |RefsOf(was, b, jobs[k])| && RefsOf(was, b, jobs[k])[i] in was.sources
        ensures was.sources[RefsOf(was, b, jobs[k])[i]].url != jobs[j].sources[0].url
      {
        var r := RefsOf(was, b, jobs[k])[i];
        if was.sources[r].url == jobs[j].sources[0].url {
          UrlIsReferred(was, b, jobs[j], 0, r);
        }
      }
    }
    hide AvoidsUrl, Valid, DistinctJobs, Persisted, StoredJobs;
    JobWithItsPageStays(was, b, jobs, j, 0);
  }

  lemma UrlIsReferred(was: Tables, b: Batch, job: D.Posting, i: nat, r: int)
    requires IdsInRange(was) && i < |job.sources| && r in was.sources
    requires was.sources[r].url == job.sources[i].url && !Contradicts(b, job.sources[i], was.sources[r])
    ensures r in RefsOf(was, b, job)
  {
    hide References;
    RowUnderUrlIsReferred(was, b, job, i, |job.sources|, r);
  }

  lemma {:induction false} RowUnderUrlIsReferred(was: Tables, b: Batch, job: D.Posting, i: nat, n: nat, r: int)
    requires IdsInRange(was) && i < n <= |job.sources| && r in was.sources
    requires was.sources[r].url == job.sources[i].url && !Contradicts(b, job.sources[i], was.sources[r])
    ensures r in References(was, b, job, n)
    decreases n
  {
    var ids := Ids(was.sources, was.nextSource);
    var s := job.sources[n - 1];
    var before := References(was, b, job, n - 1);
    var byUrl := AddMatches(was, b, job, s, true, ids, before);
    if i < n - 1 {
      RowUnderUrlIsReferred(was, b, job, i, n - 1, r);
      MatchesKept(was, b, job, s, true, ids, before, r);
    } else {
      MatchIsAdded(was, b, job, s, ids, before, r);
    }
    MatchesKept(was, b, job, s, false, ids, byUrl, r);
  }

  lemma {:induction false} MatchesKept(was: Tables, b: Batch, job: D.Posting, s: D.Raw, byUrl: bool, ids: seq<int>, refs: seq<int>, r: int)
    requires AreRows(was, ids) && r in refs
    ensures r in AddMatches(was, b, job, s, byUrl, ids, refs)
    decreases ids
  {
    hide SamePublisher, Contradicts;
    if ids != [] {
      MatchesKept(was, b, job, s, byUrl, ids[1..], refs, r);
      MatchesKept(was, b, job, s, byUrl, ids[1..], Appended(refs, ids[0]), r);
    }
  }

  lemma {:induction false} MatchIsAdded(was: Tables, b: Batch, job: D.Posting, s: D.Raw, ids: seq<int>, refs: seq<int>, r: int)
    requires AreRows(was, ids) && r in ids && was.sources[r].url == s.url && !Contradicts(b, s, was.sources[r])
    ensures r in AddMatches(was, b, job, s, true, ids, refs)
    decreases ids
  {
    hide SamePublisher, Contradicts;
    if ids[0] == r {
      MatchesKept(was, b, job, s, true, ids[1..], Appended(refs, r), r);
    } else {
      assert r in ids[1..];
      MatchIsAdded(was, b, job, s, ids[1..], refs, r);
      MatchIsAdded(was, b, job, s, ids[1..], Appended(refs, ids[0]), r);
    }
  }

  lemma {:induction false} JobsHaveSources(raws: seq<D.Raw>, fallback: int, j: nat)
    requires j < |D.DedupedGroups(raws)|
    ensures |D.MaterializedAll(D.DedupedGroups(raws), fallback)[j].sources| > 0
  {
    L.MaterializedAt(D.DedupedGroups(raws), fallback, j);
  }

  /** The same from the reports: each job of a deduped batch stays, under the conditions a caller can check. */
  lemma ReportedJobsStay(was: Tables, b: Batch, raws: seq<D.Raw>, fallback: int)
    requires Valid(was)
    requires var jobs := D.MaterializedAll(D.DedupedGroups(raws), fallback);
      ShareNoRow(was, b, jobs) && forall j :: 0 <= j < |jobs| ==> NoContradiction(was, b, jobs[j])
    ensures var jobs, t := D.MaterializedAll(D.DedupedGroups(raws), fallback), BatchStored(was, b, raws, fallback);
      var rows := StoredJobs(was, b, jobs, |jobs|).rows;
      |rows| == |jobs| && forall j :: 0 <= j < |jobs| ==>
        HasSource(t, rows[j]) && rows[j] in t.posts && t.posts[rows[j]].delisted == MarkBefore(was, rows[j])
  {
    var jobs := D.MaterializedAll(D.DedupedGroups(raws), fallback);
    DedupedJobsAreDistinct(raws, fallback);
    RowCount(was, b, jobs, |jobs|);
    if raws == [] {
      NoReportsNoJobs(fallback);
    }
    hide Valid, Persisted, StoredJobs, DistinctJobs, ShareNoRow, NoContradiction, HasSource;
    forall j: nat | j < |jobs|
      ensures var rows, t := StoredJobs(was, b, jobs, |jobs|).rows, Persisted(was, b, jobs);
        HasSource(t, rows[j]) && rows[j] in t.posts && t.posts[rows[j]].delisted == MarkBefore(was, rows[j])
    {
      JobsHaveSources(raws, fallback, j);
      UnsharedJobsStay(was, b, jobs, j);
    }
  }
}
