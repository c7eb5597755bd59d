/** The ingest transaction is one that the ghost rule allows between its passes. */
module IngestLifecycle {
  import opened Options
  import opened Ingest
  import opened IngestLaws
  import opened IngestFates
  import opened IngestSights
  import D = Dedupe
  import G = Lifecycle

  /** The columns of a posting that a ghost pass or a link check reads; `tracked` says which postings extraction kept. */
  function MarksOf(p: Post, tracked: bool): G.Post {
    match p.delisted
    case None => G.Post(None, None, tracked)
    case Some(mark) => G.Post(Some(mark.at), Some(if mark.reason.Ghost? then G.Ghost else G.Linkcheck), tracked)
  }

  function CountsOf(r: Source): G.Source {
    G.Source(r.posting, r.source, r.lastRun, r.absences)
  }

  function BoardOf(t: Tables, tracked: set<int>, history: seq<G.Pass>): G.Board {
    G.Board(map p | p in t.posts :: MarksOf(t.posts[p], p in tracked), map r | r in t.sources :: CountsOf(t.sources[r]), t.nextSource, history)
  }

  /** A row that the snapshot did not have is under an id it had not given. */
  lemma {:induction false} NewRowsAreNew(was: Tables, b: Batch, jobs: seq<D.Posting>, n: nat, r: int)
    requires Valid(was) && DistinctJobs(jobs) && n <= |jobs|
    ensures var t := StoredJobs(was, b, jobs, n).tables;
      was.nextSource <= t.nextSource && (r in t.sources && r !in was.sources ==> was.nextSource <= r)
  {
    hide StoredJob, Valid, DistinctJobs, RunOk;
    if n > 0 {
      NewRowsAreNew(was, b, jobs, n - 1, r);
      JobsAreStored(was, b, jobs, n - 1);
      KeysAreNew(StoredJobs(was, b, jobs, n - 1), jobs, n - 1);
      RowsAddAbove(was, b, StoredJobs(was, b, jobs, n - 1), jobs[n - 1], r);
    }
  }

  lemma RowsAddAbove(was: Tables, b: Batch, run: Run, job: D.Posting, r: int)
    requires RunOk(was, run) && (forall id :: id in run.claimed ==> run.claimed[id] != job.key)
    ensures var t := StoredJob(was, b, run, job).tables;
      run.tables.nextSource <= t.nextSource && (r in t.sources && r !in run.tables.sources ==> run.tables.nextSource <= r)
  {
    hide RowWritten, StoredJob, MovedRows, UpsertedAll, RefsOf;
    var u, v := StoredInStages(was, b, run, job);
    RowIsWritten(was, b, run, job);
    hide Urls, UniqueKeys, UniqueRows, NoOrphans;
  }

  /** After a batch, every row left is a stored one with its count, or a new one that counts from zero. */
  lemma RowsKeepCounts(was: Tables, b: Batch, jobs: seq<D.Posting>, r: int)
    requires Valid(was) && DistinctJobs(jobs)
    ensures var t := Persisted(was, b, jobs);
      r in t.sources ==>
        if r in was.sources then t.sources[r].absences == was.sources[r].absences
        else t.sources[r].absences == 0 && was.nextSource <= r
  {
    var t := Persisted(was, b, jobs);
    assert t.sources == StoredJobs(was, b, jobs, |jobs|).tables.sources;
    NewRowsAreNew(was, b, jobs, |jobs|, r);
    hide StoredJobs, Persisted, Valid, DistinctJobs, Reported;
    if r in t.sources {
      BatchSights(was, b, jobs, r);
    }
  }

  /** Every posting keeps its mark, or ends without a row as a ghost; a new one has no mark, or is such a ghost. */
  lemma PostsKeepMarks(was: Tables, b: Batch, jobs: seq<D.Posting>, p: int)
    requires Valid(was) && DistinctJobs(jobs) && p in was.posts
    ensures var t := Persisted(was, b, jobs);
      p in t.posts && (t.posts[p].delisted == was.posts[p].delisted || (t.posts[p].delisted == Some(Mark(b.now, Ghost)) && !HasSource(t, p)))
  {
    MarksChangeIff(was, b, jobs, p);
    hide StoredJobs, Persisted, Valid;
  }

  lemma NewPostsAreListed(was: Tables, b: Batch, jobs: seq<D.Posting>, p: int)
    requires Valid(was) && DistinctJobs(jobs) && p !in was.posts
    ensures var t := Persisted(was, b, jobs); p in t.posts ==> t.posts[p].delisted.None?
  {
    JobsAreStored(was, b, jobs, |jobs|);
    var run := StoredJobs(was, b, jobs, |jobs|);
    hide StoredJobs;
  }

  /** A stored row keeps its count, and a new one counts from zero under a new id. */
  predicate RowIsKept(was: Tables, t: Tables, r: int)
    requires r in t.sources
  {
    if r in was.sources then t.sources[r].absences == was.sources[r].absences
    else t.sources[r].absences == 0 && was.nextSource <= r
  }

  predicate PostIsKept(was: Tables, t: Tables, p: int) {
    if p in was.posts then
      p in t.posts && (t.posts[p].delisted == was.posts[p].delisted || (t.posts[p].delisted.Some? && t.posts[p].delisted.value.reason.Ghost? && !HasSource(t, p)))
    else p in t.posts ==> t.posts[p].delisted.None?
  }

  lemma KeptIsIngested(was: Tables, t: Tables, before: set<int>, after: set<int>, history: seq<G.Pass>)
    requires was.nextSource <= t.nextSource && forall r :: r in t.sources ==> r < t.nextSource && RowIsKept(was, t, r)
    requires forall p :: PostIsKept(was, t, p)
    ensures G.Ingested(BoardOf(was, before, history), BoardOf(t, after, history))
  {
    var c, d := BoardOf(was, before, history), BoardOf(t, after, history);
    forall p | p in c.posts
      ensures p in d.posts && (G.SameMark(c.posts[p], d.posts[p]) || G.IsRetired(d, p))
    {
      assert PostIsKept(was, t, p);
    }
    forall p | p in d.posts && p !in c.posts
      ensures d.posts[p].delistedAt.None? && d.posts[p].reason.None?
    {
      assert PostIsKept(was, t, p);
    }
  }

  lemma BatchIsIngest(was: Tables, b: Batch, jobs: seq<D.Posting>, before: set<int>, after: set<int>, history: seq<G.Pass>)
    requires Valid(was) && DistinctJobs(jobs)
    ensures G.Ingested(BoardOf(was, before, history), BoardOf(Persisted(was, b, jobs), after, history))
  {
    var t := Persisted(was, b, jobs);
    BatchKeepsTables(was, b, jobs);
    NewRowsAreNew(was, b, jobs, |jobs|, 0);
    assert t.nextSource == StoredJobs(was, b, jobs, |jobs|).tables.nextSource;
    assert forall r :: r in t.sources ==> r < t.nextSource;
    hide Persisted, StoredJobs, Urls, JobUrls, Valid, DistinctJobs, BoardOf;
    forall r | r in t.sources
      ensures RowIsKept(was, t, r)
    {
      RowsKeepCounts(was, b, jobs, r);
    }
    forall p
      ensures PostIsKept(was, t, p)
    {
      if p in was.posts {
        PostsKeepMarks(was, b, jobs, p);
      } else {
        NewPostsAreListed(was, b, jobs, p);
      }
    }
    KeptIsIngested(was, t, before, after, history);
  }

  /** So storing any batch of reports is one of the ingests over which the ghost rule holds. */
  lemma ReportsAreIngest(was: Tables, b: Batch, raws: seq<D.Raw>, fallback: int, before: set<int>, after: set<int>, history: seq<G.Pass>)
    requires Valid(was)
    ensures G.Ingested(BoardOf(was, before, history), BoardOf(BatchStored(was, b, raws, fallback), after, history))
  {
    var jobs := D.MaterializedAll(D.DedupedGroups(raws), fallback);
    DedupedJobsAreDistinct(raws, fallback);
    if raws == [] {
      assert forall p, q: bool :: p in was.posts ==> G.SameMark(MarksOf(was.posts[p], q), MarksOf(was.posts[p], p in after));
    } else {
      BatchIsIngest(was, b, jobs, before, after, history);
    }
  }
}
