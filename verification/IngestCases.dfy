/**
 * Batches that delist, or strip of its sources, a job they report: three jobs, of which the first goes to the only
 * stored posting, and the others, which that posting is then closed to, to new ones.
 */
module IngestCases {
  import opened Options
  import opened Rows
  import opened TextOrder
  import opened Ingest
  import opened IngestLaws
  import opened IngestFates
  import D = Dedupe
  import A = DedupeApart

  // ----------------------------------------------------------------------------------------
  // Jobs that no stored posting takes
  // ----------------------------------------------------------------------------------------

  /** The stored rows the job refers to are at postings claimed for other keys, and none has its identity. */
  ghost predicate Homeless(was: Tables, b: Batch, claimed: map<int, D.Key>, job: D.Posting) {
    && (forall i :: 0 <= i < |RefsOf(was, b, job)| ==> ClosedTo(was, claimed, job, RefsOf(was, b, job)[i]))
    && (forall id :: id in was.posts ==> was.posts[id].norm != NormOf(job))
  }

  predicate ClosedTo(was: Tables, claimed: map<int, D.Key>, job: D.Posting, ref: int) {
    ref in was.sources && was.sources[ref].posting in claimed && claimed[was.sources[ref].posting] != job.key
  }

  lemma {:induction false} NoneReferenced(was: Tables, b: Batch, claimed: map<int, D.Key>, job: D.Posting, refs: seq<int>)
    requires AreRows(was, refs) && forall i :: 0 <= i < |refs| ==> ClosedTo(was, claimed, job, refs[i])
    ensures LeastReferenced(was, b, claimed, job, refs).None?
    decreases refs
  {
    hide Primary, OffersOtherId, NativeId;
    if refs != [] {
      NoneReferenced(was, b, claimed, job, refs[1..]);
      assert ClosedTo(was, claimed, job, refs[0]);
    }
  }

  lemma {:induction false} NoCandidates(was: Tables, b: Batch, claimed: map<int, D.Key>, job: D.Posting, ids: seq<int>)
    requires forall i :: 0 <= i < |ids| ==> ids[i] in was.posts
    requires forall id :: id in was.posts ==> was.posts[id].norm != NormOf(job)
    ensures Candidates(was, b, claimed, job, ids) == []
  {
    hide Compatible, NormOf;
    if ids != [] {
      NoCandidates(was, b, claimed, job, ids[..|ids| - 1]);
    }
  }

  lemma HomelessChosen(was: Tables, b: Batch, claimed: map<int, D.Key>, job: D.Posting)
    requires Homeless(was, b, claimed, job)
    ensures Chosen(was, b, claimed, job, None).None?
  {
    RefsAreRows(was, b, job, |job.sources|);
    NoneReferenced(was, b, claimed, job, RefsOf(was, b, job));
    NoCandidates(was, b, claimed, job, Ids(was.posts, was.nextPost));
    hide Compatible, RefsOf, Candidates, LeastReferenced;
  }

  /** A homeless job with a key of its own gets a new posting. */
  lemma HomelessRow(was: Tables, b: Batch, run: Run, job: D.Posting)
    requires RunOk(was, run) && Homeless(was, b, run.claimed, job) && KeyIsFree(run.tables, Hashed(job.key))
    ensures RowWritten(was, b, run, job) == (Inserted(run.tables, b, job), run.tables.nextPost)
  {
    HomelessChosen(was, b, run.claimed, job);
    hide Chosen, Homeless, RunOk;
  }

  /** Storing a job adopts no key but its own, and leaves the posting ids where its row was written. */
  lemma KeyStaysFree(was: Tables, b: Batch, run: Run, job: D.Posting, key: D.Key)
    requires RunOk(was, run) && (forall id :: id in run.claimed ==> run.claimed[id] != job.key)
    requires KeyIsFree(run.tables, Hashed(key)) && key != job.key
    ensures KeyIsFree(StoredJob(was, b, run, job).tables, Hashed(key))
    ensures StoredJob(was, b, run, job).tables.nextPost == RowWritten(was, b, run, job).0.nextPost
  {
    hide RowWritten, StoredJob, MovedRows, RunOk, Valid, Urls, RefsOf;
    KeyNotWritten(was, b, run, job, key);
    var u, v := StoredInStages(was, b, run, job);
  }

  lemma KeyNotWritten(was: Tables, b: Batch, run: Run, job: D.Posting, key: D.Key)
    requires KeyIsFree(run.tables, Hashed(key)) && key != job.key
    ensures KeyIsFree(RowWritten(was, b, run, job).0, Hashed(key))
  {
    hide Chosen, FlooredDate, StoredPriority, StoredAts, NormOf, TextOf;
  }

  // ----------------------------------------------------------------------------------------
  // Three jobs and one stored posting
  // ----------------------------------------------------------------------------------------

  /** One stored posting. The first job goes to it; the others have other names and keys, and refer to its rows alone. */
  ghost predicate Crowded(was: Tables, b: Batch, jobs: seq<D.Posting>) {
    && Valid(was) && DistinctJobs(jobs) && |jobs| == 3 && was.posts.Keys == {1} && was.nextPost == 2 && Clones(was) == {}
    && Chosen(was, b, map[], jobs[0], Holder(was, Hashed(jobs[0].key))) == Some(1)
    && (forall k :: 1 <= k < 3 ==> was.posts[1].norm != NormOf(jobs[k]) && was.posts[1].key != Hashed(jobs[k].key))
    && (forall k, i :: 1 <= k < 3 && 0 <= i < |RefsOf(was, b, jobs[k])| ==> RefsOf(was, b, jobs[k])[i] in was.sources)
  }

  lemma CrowdedIsHomeless(was: Tables, b: Batch, jobs: seq<D.Posting>, k: nat, claimed: map<int, D.Key>)
    requires Crowded(was, b, jobs) && 1 <= k < 3 && 1 in claimed && claimed[1] == jobs[0].key
    ensures Homeless(was, b, claimed, jobs[k])
  {
    hide RefsOf, NormOf, Chosen, Clones;
    forall i | 0 <= i < |RefsOf(was, b, jobs[k])|
      ensures ClosedTo(was, claimed, jobs[k], RefsOf(was, b, jobs[k])[i])
    {
      assert was.sources[RefsOf(was, b, jobs[k])[i]].posting in was.posts;
    }
  }

  /** The first job of a crowded batch, stored. */
  lemma FirstGoesToOne(was: Tables, b: Batch, jobs: seq<D.Posting>)
    requires Crowded(was, b, jobs)
    ensures var run, next := StoredJobs(was, b, jobs, 0), StoredJobs(was, b, jobs, 1);
      && run == Run(was, map[], {}, []) && RowWritten(was, b, run, jobs[0]) == (Updated(was, b, 1, jobs[0]), 1)
      && next == StoredJob(was, b, run, jobs[0]) && RunOk(was, run) && RunOk(was, next) && next.rows == [1]
      && next.claimed == map[1 := jobs[0].key] && next.tables.nextPost == 2
      && KeyIsFree(next.tables, Hashed(jobs[1].key)) && KeyIsFree(next.tables, Hashed(jobs[2].key))
  {
    var run := StoredJobs(was, b, jobs, 0);
    assert RowWritten(was, b, run, jobs[0]) == (Updated(was, b, 1, jobs[0]), 1) by {
      hide Chosen, Valid;
    }
    JobsAreStored(was, b, jobs, 0);
    JobsAreStored(was, b, jobs, 1);
    hide RowWritten, Valid, MovedRows, UpsertedAll, Origins, RunOk, Chosen, Clones;
    KeyStaysFree(was, b, run, jobs[0], jobs[1].key);
    KeyStaysFree(was, b, run, jobs[0], jobs[2].key);
  }

  lemma SecondIsNew(was: Tables, b: Batch, jobs: seq<D.Posting>)
    requires Crowded(was, b, jobs)
    ensures var run, next := StoredJobs(was, b, jobs, 1), StoredJobs(was, b, jobs, 2);
      && RowWritten(was, b, run, jobs[1]) == (Inserted(run.tables, b, jobs[1]), 2)
      && next == StoredJob(was, b, run, jobs[1]) && RunOk(was, next) && next.rows == [1, 2]
      && next.claimed == map[1 := jobs[0].key, 2 := jobs[1].key] && next.tables.nextPost == 3
      && KeyIsFree(next.tables, Hashed(jobs[2].key))
  {
    hide RowWritten, Valid, MovedRows, UpsertedAll, Origins, RunOk, Homeless, Crowded, Updated, RefsOf, KeyIsFree;
    CrowdedFacts(was, b, jobs);
    FirstGoesToOne(was, b, jobs);
    var run := StoredJobs(was, b, jobs, 1);
    CrowdedIsHomeless(was, b, jobs, 1, run.claimed);
    HomelessRow(was, b, run, jobs[1]);
    SecondIsStored(was, b, jobs);
    KeyStaysFree(was, b, run, jobs[1], jobs[2].key);
  }

  lemma SecondIsStored(was: Tables, b: Batch, jobs: seq<D.Posting>)
    requires Valid(was) && DistinctJobs(jobs) && |jobs| == 3
    ensures StoredJobs(was, b, jobs, 2) == StoredJob(was, b, StoredJobs(was, b, jobs, 1), jobs[1])
    ensures RunOk(was, StoredJobs(was, b, jobs, 2)) && forall id :: id in StoredJobs(was, b, jobs, 1).claimed ==>
              StoredJobs(was, b, jobs, 1).claimed[id] != jobs[1].key
  {
    hide StoredJob, RunOk, Valid;
    JobsAreStored(was, b, jobs, 1);
    JobsAreStored(was, b, jobs, 2);
    KeysAreNew(StoredJobs(was, b, jobs, 1), jobs, 1);
  }

  lemma ThreeRows(was: Tables, b: Batch, jobs: seq<D.Posting>)
    requires Crowded(was, b, jobs)
    ensures StoredJobs(was, b, jobs, 3).rows == [1, 2, 3]
  {
    hide RowWritten, Valid, StoredJob, RunOk, Homeless, KeyIsFree, Crowded, Inserted;
    CrowdedFacts(was, b, jobs);
    SecondIsNew(was, b, jobs);
    hide StoredJobs;
    var run := StoredJobs(was, b, jobs, 2);
    CrowdedIsHomeless(was, b, jobs, 2, run.claimed);
    HomelessRow(was, b, run, jobs[2]);
    NextJob(was, b, jobs, 2);
  }

  /** The first job has no row but the stored ones, when each of its URLs has one. */
  lemma FirstHasStoredRows(was: Tables, b: Batch, jobs: seq<D.Posting>, r: int)
    requires Crowded(was, b, jobs) && IsAt(StoredJobs(was, b, jobs, 1).tables, r, 1)
    requires forall i :: 0 <= i < |jobs[0].sources| ==> jobs[0].sources[i].url in Urls(was)
    ensures r in was.sources
  {
    hide RowWritten, StoredJob, Crowded, RunOk, Valid, Urls, Updated;
    CrowdedFacts(was, b, jobs);
    FirstGoesToOne(was, b, jobs);
    FirstUrlsAreStored(was, b, jobs);
    hide StoredJobs;
    var t := StoredJobs(was, b, jobs, 1).tables;
    var q := RowWithUrl(was, t, r);
    OwnRowStays(was, b, Run(was, map[], {}, []), jobs[0], q, t.sources[r].url);
    OneRowThere(t, q, r);
  }

  lemma CrowdedFacts(was: Tables, b: Batch, jobs: seq<D.Posting>)
    requires Crowded(was, b, jobs)
    ensures Valid(was) && DistinctJobs(jobs) && |jobs| == 3
    ensures forall r :: r in was.sources ==> was.sources[r].posting == 1
  {
    hide RefsOf, Chosen, Clones;
  }

  lemma FirstUrlsAreStored(was: Tables, b: Batch, jobs: seq<D.Posting>)
    requires Valid(was) && DistinctJobs(jobs) && |jobs| == 3
    requires forall i :: 0 <= i < |jobs[0].sources| ==> jobs[0].sources[i].url in Urls(was)
    ensures var t := StoredJobs(was, b, jobs, 1).tables; Valid(t) && Urls(t) <= Urls(was)
  {
    hide StoredJob, Valid, Urls;
    JobsAreStored(was, b, jobs, 1);
    UrlsAreOf(jobs[0], |jobs[0].sources|, Urls(was));
    assert JobUrls(jobs, 1) == JobUrls(jobs, 0) + UrlsOf(jobs[0]) && JobUrls(jobs, 0) == {};
  }

  lemma RowWithUrl(was: Tables, t: Tables, r: int) returns (q: int)
    requires r in t.sources && Urls(t) <= Urls(was)
    ensures q in was.sources && was.sources[q].url == t.sources[r].url
  {
    assert t.sources[r].url in Urls(t);
    q :| q in was.sources && was.sources[q].url == t.sources[r].url;
  }

  lemma {:induction false} UrlsAreOf(job: D.Posting, n: nat, urls: set<string>)
    requires n <= |job.sources| && forall i :: 0 <= i < |job.sources| ==> job.sources[i].url in urls
    ensures UrlsBefore(job, n) <= urls
  {
    if n > 0 {
      UrlsAreOf(job, n - 1, urls);
    }
  }

  /** When the other jobs refer to every stored row, the first job's posting is delisted. */
  lemma FirstIsDelisted(was: Tables, b: Batch, jobs: seq<D.Posting>)
    requires Crowded(was, b, jobs) && 1 in was.sources
    requires forall i :: 0 <= i < |jobs[0].sources| ==> jobs[0].sources[i].url in Urls(was)
    requires forall r :: r in was.sources ==> r in RefsOf(was, b, jobs[1]) || r in RefsOf(was, b, jobs[2])
    ensures var t := Persisted(was, b, jobs); 1 in t.posts && t.posts[1].delisted == Some(Mark(b.now, Ghost))
  {
    var rows := StoredJobs(was, b, jobs, 3).rows;
    ThreeRows(was, b, jobs);
    JobIsDelistedIff(was, b, jobs, 0);
    hide StoredJobs, Persisted, RefsOf, Robbed, Chosen, Clones;
    forall r | r in was.sources
      ensures PulledLater(was, b, jobs, rows, 0, 3, r) && Robbed(was, b, jobs, rows, 3, 1)
    {
      EachIsPulled(was, b, jobs, rows, r);
    }
    forall r | IsAt(StoredJobs(was, b, jobs, 1).tables, r, 1)
      ensures PulledLater(was, b, jobs, rows, 0, 3, r)
    {
      FirstHasStoredRows(was, b, jobs, r);
    }
  }

  lemma EachIsPulled(was: Tables, b: Batch, jobs: seq<D.Posting>, rows: seq<int>, r: int)
    requires Crowded(was, b, jobs) && rows == [1, 2, 3] && r in was.sources
    requires r in RefsOf(was, b, jobs[1]) || r in RefsOf(was, b, jobs[2])
    ensures PulledLater(was, b, jobs, rows, 0, 3, r) && Robbed(was, b, jobs, rows, 3, 1)
  {
    hide RefsOf, Chosen, Clones;
    assert was.sources[r].posting == 1;
    var k := if r in RefsOf(was, b, jobs[1]) then 1 else 2;
    assert Pulls(was, b, jobs[k], rows[k], r);
    assert PullsFrom(was, b, jobs[k], rows[k], 1);
  }

  // ----------------------------------------------------------------------------------------
  // Which posting, and which rows
  // ----------------------------------------------------------------------------------------

  lemma {:induction false} FirstRowFacts(was: Tables, b: Batch, id: int, shown: bool, ids: seq<int>)
    requires AreRows(was, ids) && id in was.posts
    ensures var f := FirstRow(was, b, id, shown, ids);
      && (f.Some? ==> exists r :: r in ids && was.sources[r] == f.value && IsOffered(was, b, id, shown, r))
      && (f.None? ==> forall r :: r in ids ==> !IsOffered(was, b, id, shown, r))
  {
    hide ShowsApplication, RowAhead;
    if ids != [] {
      var front, last := ids[..|ids| - 1], ids[|ids| - 1];
      FirstRowFacts(was, b, id, shown, front);
      assert ids == front + [last];
    }
  }

  predicate IsOffered(was: Tables, b: Batch, id: int, shown: bool, r: int)
    requires id in was.posts && r in was.sources
  {
    was.sources[r].posting == id && (shown ==> ShowsApplication(b, was.posts[id].canonicalUrl, was.sources[r]))
  }

  /** A posting is open to a job when none of the rows its primary can be has an id. */
  lemma OpenTo(was: Tables, b: Batch, job: D.Posting, id: int)
    requires id in was.posts && IdsInRange(was)
    requires exists r :: r in was.sources && IsOffered(was, b, id, true, r)
    requires forall r :: r in was.sources && IsOffered(was, b, id, true, r) ==> NativeId(b, was.sources[r]).None?
    ensures Compatible(was, b, map[], job, id)
  {
    FirstRowFacts(was, b, id, true, Ids(was.sources, was.nextSource));
    hide IsOffered, NativeId, OffersOtherId, FirstRow;
  }

  lemma {:induction false} OnlyReferenced(was: Tables, b: Batch, job: D.Posting, refs: seq<int>)
    requires AreRows(was, refs) && (forall r :: r in was.sources ==> was.sources[r].posting == 1) && Compatible(was, b, map[], job, 1)
    ensures LeastReferenced(was, b, map[], job, refs) == if refs == [] then None else Some(1)
    decreases refs
  {
    hide Compatible;
    if refs != [] {
      OnlyReferenced(was, b, job, refs[1..]);
    }
  }

  lemma OnlyPostingChosen(was: Tables, b: Batch, job: D.Posting)
    requires Valid(was) && was.posts.Keys == {1} && Compatible(was, b, map[], job, 1) && was.posts[1].key == Hashed(job.key)
    ensures Holder(was, Hashed(job.key)) == Some(1) && Chosen(was, b, map[], job, Some(1)) == Some(1)
  {
    if Holder(was, Hashed(job.key)).None? {
      HolderIsComplete(was, Hashed(job.key), 1);
    }
    RefsAreRows(was, b, job, |job.sources|);
    OnlyReferenced(was, b, job, RefsOf(was, b, job));
    hide Compatible, RefsOf, Candidates;
  }

  predicate Matches(was: Tables, b: Batch, job: D.Posting, i: nat, r: int)
    requires i < |job.sources| && r in was.sources
  {
    var s, row := job.sources[i], was.sources[r];
    (row.url == s.url || SamePublisher(was, b, job, s, row)) && !Contradicts(b, s, row)
  }

  lemma {:induction false} AddedMatches(was: Tables, b: Batch, job: D.Posting, i: nat, byUrl: bool, ids: seq<int>, refs: seq<int>, r: int)
    requires AreRows(was, ids) && i < |job.sources|
    ensures r in AddMatches(was, b, job, job.sources[i], byUrl, ids, refs) ==> r in refs || (r in was.sources && Matches(was, b, job, i, r))
    decreases ids
  {
    hide SamePublisher, Contradicts;
    if ids != [] {
      AddedMatches(was, b, job, i, byUrl, ids[1..], refs, r);
      AddedMatches(was, b, job, i, byUrl, ids[1..], Appended(refs, ids[0]), r);
    }
  }

  lemma {:induction false} ReferencesMatch(was: Tables, b: Batch, job: D.Posting, n: nat, r: int)
    requires n <= |job.sources| && r in References(was, b, job, n)
    ensures r in was.sources && exists i :: 0 <= i < n && Matches(was, b, job, i, r)
  {
    hide Matches;
    if n > 0 {
      var ids := Ids(was.sources, was.nextSource);
      var before := References(was, b, job, n - 1);
      AddedMatches(was, b, job, n - 1, true, ids, before, r);
      AddedMatches(was, b, job, n - 1, false, ids, AddMatches(was, b, job, job.sources[n - 1], true, ids, before), r);
      if r in before {
        ReferencesMatch(was, b, job, n - 1, r);
      }
    }
  }

  // ----------------------------------------------------------------------------------------
  // The reports
  // ----------------------------------------------------------------------------------------

  /** A feed's report of a remote job at `url`, dated 5. */
  function Listing(source: string, url: string, id: Option<string>, title: string): D.Raw {
    D.Raw(source, D.Rss, url, url, Some(url), Some(url), None, id, Some(5), "c", title, D.Location(true, "", "", ""))
  }

  function JobsOf(raws: seq<D.Raw>): (jobs: seq<D.Posting>)
    ensures |jobs| == |raws| && forall i :: 0 <= i < |raws| ==> jobs[i] == A.JobOf(raws[i], 9)
  {
    seq(|raws|, i requires 0 <= i < |raws| => A.JobOf(raws[i], 9))
  }

  predicate AreListings(p: D.Raw, q: D.Raw, c: char, d: char) {
    && 'a' <= c <= 'z' && 'a' <= d <= 'z' && c != d
    && p.kind == q.kind == D.Rss && p.postedAt == q.postedAt && p.company == q.company && p.location == q.location
    && p.title == [c] && q.title == [d] && (p.publisherId.None? || p.publisherId != q.publisherId)
    && !Before(q.url, p.url)
  }

  /** Reports whose titles are different letters are different jobs. */
  lemma LettersAreApart(p: D.Raw, q: D.Raw, c: char, d: char, pass: D.Pass)
    requires AreListings(p, q, c, d)
    ensures !D.Ahead(q, p) && D.KeyOf(p) != D.KeyOf(q) && !D.CanMerge(pass, D.NewGroup(p), D.NewGroup(q))
  {
    assert [c][0] != [d][0];
    A.LettersDiffer(c, d, 90);
    A.LettersDiffer(c, d, 95);
    hide D.TitlesAlike, Before;
  }

  lemma ThreeListings(raws: seq<D.Raw>)
    requires |raws| == 3 && AreListings(raws[0], raws[1], 'a', 'b') && AreListings(raws[0], raws[2], 'a', 'c')
    requires AreListings(raws[1], raws[2], 'b', 'c')
    ensures D.MaterializedAll(D.DedupedGroups(raws), 9) == JobsOf(raws) && DistinctJobs(JobsOf(raws))
  {
    ListingsAreApart(raws);
    A.ApartJobs(raws, 9);
    LettersAreApart(raws[0], raws[1], 'a', 'b', D.SharedIdentity);
    LettersAreApart(raws[0], raws[2], 'a', 'c', D.SharedIdentity);
    LettersAreApart(raws[1], raws[2], 'b', 'c', D.SharedIdentity);
    hide D.CanMerge, D.Ahead, D.KeyOf, D.DedupedGroups, D.MaterializedAll, AreListings, A.Apart;
  }

  lemma ListingsAreApart(raws: seq<D.Raw>)
    requires |raws| == 3 && AreListings(raws[0], raws[1], 'a', 'b') && AreListings(raws[0], raws[2], 'a', 'c')
    requires AreListings(raws[1], raws[2], 'b', 'c')
    ensures A.Apart(raws)
  {
    hide D.CanMerge, D.Ahead, D.KeyOf, AreListings, D.NewGroup;
    forall i, j | 0 <= i < j < 3
      ensures !D.Ahead(raws[j], raws[i]) && D.KeyOf(raws[i]) != D.KeyOf(raws[j])
    {
      LettersAreApart(raws[i], raws[j], if i == 0 then 'a' else 'b', if j == 1 then 'b' else 'c', D.SharedIdentity);
    }
    forall pass: D.Pass, i, j | 0 <= i < j < 3
      ensures !D.CanMerge(pass, D.NewGroup(raws[i]), D.NewGroup(raws[j]))
    {
      LettersAreApart(raws[i], raws[j], if i == 0 then 'a' else 'b', if j == 1 then 'b' else 'c', pass);
    }
  }

  // ----------------------------------------------------------------------------------------
  // Three jobs on one page
  // ----------------------------------------------------------------------------------------

  function PageReports(): seq<D.Raw> {
    [Listing("feed", "page", None, "a"), Listing("feed", "page", None, "b"), Listing("feed", "page", None, "c")]
  }

  /** The first job, stored, with the one row that the three share. */
  function OnePage(): Tables {
    var job := A.JobOf(Listing("feed", "page", None, "a"), 9);
    Tables(map[1 := Post(Hashed(job.key), NormOf(job), "", "page", 5, None)],
           map[1 := Source(1, "feed", "page", None, None, 5, 3, 0, 0)], 2, 2)
  }

  function PageBatch(): Batch {
    Batch(map["page" := Report("", "page", None)], url => url, 1, 9)
  }

  lemma PageReportsAreJobs()
    ensures D.MaterializedAll(D.DedupedGroups(PageReports()), 9) == JobsOf(PageReports()) && DistinctJobs(JobsOf(PageReports()))
  {
    BeforeIsIrreflexive("page");
    ThreeListings(PageReports());
  }

  lemma PageRefs(k: nat)
    requires k < 3
    ensures RefsOf(OnePage(), PageBatch(), JobsOf(PageReports())[k]) == [1]
  {
    var was, b, job := OnePage(), PageBatch(), JobsOf(PageReports())[k];
    assert job.sources == [PageReports()[k]];
    UrlIsReferred(was, b, job, 0, 1);
    RefsAreRows(was, b, job, |job.sources|);
    RefsDoNotRepeat(was, b, job, |job.sources|);
    var refs := RefsOf(was, b, job);
    hide RefsOf;
    OnlyOne(refs);
  }

  lemma FirstTwoDiffer(refs: seq<int>)
    requires NoRepeats(refs)
    ensures |refs| >= 2 ==> refs[0] != refs[1]
  {
  }

  lemma OnlyOne(refs: seq<int>)
    requires NoRepeats(refs) && 1 in refs && forall i :: 0 <= i < |refs| ==> refs[i] == 1
    ensures refs == [1]
  {
    FirstTwoDiffer(refs);
  }

  lemma PageIsValid()
    ensures Valid(OnePage()) && Clones(OnePage()) == {} && Urls(OnePage()) == {"page"}
    ensures forall k :: 1 <= k < 3 ==> OnePage().posts[1].norm != NormOf(JobsOf(PageReports())[k])
    ensures forall k :: 1 <= k < 3 ==> OnePage().posts[1].key != Hashed(JobsOf(PageReports())[k].key)
  {
    assert "a"[0] != "b"[0] && "a"[0] != "c"[0];
    assert OnePage().sources[1].url in Urls(OnePage());
  }

  lemma PageChosen()
    ensures var was, b, job := OnePage(), PageBatch(), JobsOf(PageReports())[0];
      Chosen(was, b, map[], job, Holder(was, Hashed(job.key))) == Some(1)
  {
    var was, b, job := OnePage(), PageBatch(), JobsOf(PageReports())[0];
    PageIsValid();
    assert IsOffered(was, b, 1, true, 1);
    hide Valid;
    assert IdsInRange(was);
    OpenTo(was, b, job, 1);
    hide RefsOf, Compatible, Chosen, PageBatch;
    OnlyPostingChosen(was, b, job);
  }

  /** Three jobs with one page, whose stored row is at the only stored posting; all refer to it. */
  ghost predicate Paged(was: Tables, b: Batch, jobs: seq<D.Posting>) {
    && |jobs| == 3 && was.sources.Keys == {1} && IsRowAt(was, 1, 1, "page") && Urls(was) == {"page"}
    && (forall k :: 0 <= k < 3 ==> RefsOf(was, b, jobs[k]) == [1])
    && (forall k, i :: 0 <= k < 3 && 0 <= i < |jobs[k].sources| ==> jobs[k].sources[i].url in Urls(was))
    && Crowded(was, b, jobs)
  }

  lemma PageRefersToIt()
    ensures forall k :: 0 <= k < 3 ==> RefsOf(OnePage(), PageBatch(), JobsOf(PageReports())[k]) == [1]
  {
    forall k | 0 <= k < 3
      ensures RefsOf(OnePage(), PageBatch(), JobsOf(PageReports())[k]) == [1]
    {
      PageRefs(k);
    }
  }

  lemma PageSources()
    ensures var was, jobs := OnePage(), JobsOf(PageReports());
      && |jobs| == 3 && was.posts.Keys == {1} && was.nextPost == 2 && was.sources.Keys == {1} && IsRowAt(was, 1, 1, "page")
      && (forall k, i :: 0 <= k < 3 && 0 <= i < |jobs[k].sources| ==> jobs[k].sources[i].url == "page")
  {
  }

  lemma PageIsPaged()
    ensures Paged(OnePage(), PageBatch(), JobsOf(PageReports()))
  {
    PageReportsAreJobs();
    PageRefersToIt();
    PageIsValid();
    PageChosen();
    PageSources();
    hide RefsOf, Chosen, Valid, Clones, JobsOf, DistinctJobs, NormOf, OnePage, PageReports, PageBatch, Urls,
         D.MaterializedAll, D.DedupedGroups;
  }

  /** The page's row moves to a posting that has no row. */
  lemma PageMoves(was: Tables, t: Tables, u: Tables)
    requires IsRowAt(was, 1, 1, "page") && 1 in t.sources && t.sources[1].url == "page"
    requires u == MovedRows(t, was, [1], 2, 1) && forall q :: q in t.sources ==> t.sources[q].posting != 2
    ensures IsRowAt(u, 1, 2, "page")
  {
    assert MovedRows(t, was, [1], 2, 0) == t;
  }

  lemma PageIsTaken(was: Tables, b: Batch, run: Run, job: D.Posting, r: int)
    requires IsRowAt(was, 1, 1, "page") && RunOk(was, run) && (forall id :: id in run.claimed ==> run.claimed[id] != job.key)
    requires RefsOf(was, b, job) == [1] && RowWritten(was, b, run, job).1 == 2 && 2 !in run.tables.posts
    requires IsRowAt(run.tables, 1, 1, "page") && Urls(run.tables) <= {"page"} && UrlsOf(job) <= {"page"}
    requires IsAt(StoredJob(was, b, run, job).tables, r, 2)
    ensures r == 1
  {
    var u, v := StoredInStages(was, b, run, job);
    var t := RowWritten(was, b, run, job).0;
    hide StoredJob, RowWritten, RefsOf, MovedRows, UniqueKeys, UniqueRows, SourcesOk, PostsGrow, UpsertsOk, MovesOk;
    assert forall q :: q in t.sources ==> t.sources[q].posting in run.tables.posts;
    PageMoves(was, t, u);
    PageLands(t, u, v, job, r);
  }

  lemma PageLands(t: Tables, u: Tables, v: Tables, job: D.Posting, r: int)
    requires MovesOk(t, u, [1], 2, 1) && UpsertsOk(u, v, 2, job, |job.sources|) && IsRowAt(u, 1, 2, "page")
    requires Urls(t) <= {"page"} && UrlsOf(job) <= {"page"} && IsAt(v, r, 2)
    ensures r == 1
  {
    assert v.sources[r].url in Urls(v);
    assert SamePlace(v.sources[1], u.sources[1]);
    OneRowThere(v, 1, r);
  }

  lemma OneRowThere(t: Tables, r: int, q: int)
    requires Valid(t) && r in t.sources && q in t.sources && SamePlace(t.sources[r], t.sources[q])
    ensures r == q
  {
  }

  lemma PagedFacts(was: Tables, b: Batch, jobs: seq<D.Posting>)
    requires Paged(was, b, jobs)
    ensures Crowded(was, b, jobs) && Valid(was) && DistinctJobs(jobs) && |jobs| == 3
    ensures 2 !in was.posts && 2 !in Clones(was) && IsRowAt(was, 1, 1, "page") && Urls(was) == {"page"}
    ensures RefsOf(was, b, jobs[1]) == [1] && RefsOf(was, b, jobs[2]) == [1]
    ensures forall r :: r in was.sources ==> was.sources[r].posting != 2
    ensures UrlsOf(jobs[0]) <= {"page"} && UrlsOf(jobs[1]) <= {"page"} && jobs[0].key != jobs[1].key
  {
    hide RefsOf, Chosen, Clones, Urls, UniqueKeys, NoOrphans, UniqueRows;
    PagedUrls(was, b, jobs);
    CrowdedFacts(was, b, jobs);
  }

  lemma PagedUrls(was: Tables, b: Batch, jobs: seq<D.Posting>)
    requires Paged(was, b, jobs)
    ensures |jobs| == 3 && UrlsOf(jobs[0]) <= {"page"} && UrlsOf(jobs[1]) <= {"page"}
  {
    hide Crowded, RefsOf;
    UrlsAreOf(jobs[0], |jobs[0].sources|, {"page"});
    UrlsAreOf(jobs[1], |jobs[1].sources|, {"page"});
  }

  lemma PageAfterFirst(was: Tables, b: Batch, jobs: seq<D.Posting>)
    requires Paged(was, b, jobs)
    ensures |jobs| == 3
    ensures var t := StoredJobs(was, b, jobs, 1).tables; IsRowAt(t, 1, 1, "page") && Urls(t) <= {"page"} && 2 !in t.posts
  {
    PagedUrlsAreStored(was, b, jobs);
    hide StoredJob, RowWritten, RefsOf, RunOk, Valid, Updated, Clones, Urls, UrlsOf, Paged, Crowded;
    PagedFacts(was, b, jobs);
    FirstGoesToOne(was, b, jobs);
    FirstUrlsAreStored(was, b, jobs);
    hide StoredJobs;
    NoPostYet(StoredJobs(was, b, jobs, 1).tables, 2);
    OwnRowStays(was, b, Run(was, map[], {}, []), jobs[0], 1, "page");
  }

  lemma PagedUrlsAreStored(was: Tables, b: Batch, jobs: seq<D.Posting>)
    requires Paged(was, b, jobs)
    ensures |jobs| == 3 && forall i :: 0 <= i < |jobs[0].sources| ==> jobs[0].sources[i].url in Urls(was)
  {
    hide Crowded, RefsOf;
  }

  lemma NoPostYet(t: Tables, p: int)
    requires Valid(t) && t.nextPost <= p
    ensures p !in t.posts
  {
  }

  /** The page's row is where the second job is when the third pulls it. */
  lemma SecondHasThePage(was: Tables, b: Batch, jobs: seq<D.Posting>, r: int)
    requires Paged(was, b, jobs) && |jobs| == 3 && IsAt(StoredJobs(was, b, jobs, 2).tables, r, 2)
    ensures r == 1
  {
    hide StoredJobs, StoredJob, RowWritten, RefsOf, RunOk, Valid, Inserted, Updated, Clones, Urls, UrlsOf, JobUrls, Paged, Crowded, IsAt;
    PagedFacts(was, b, jobs);
    FirstGoesToOne(was, b, jobs);
    SecondIsNew(was, b, jobs);
    PageAfterFirst(was, b, jobs);
    PageIsTaken(was, b, StoredJobs(was, b, jobs, 1), jobs[1], r);
  }

  lemma PulledByThird(was: Tables, b: Batch, jobs: seq<D.Posting>)
    requires |jobs| == 3 && RefsOf(was, b, jobs[2]) == [1] && IsRowAt(was, 1, 1, "page")
    ensures PulledLater(was, b, jobs, [1, 2, 3], 1, 3, 1)
  {
    hide RefsOf;
    var rows := [1, 2, 3];
    assert Pulls(was, b, jobs[2], rows[2], 1);
  }

  lemma PageIsPulled(was: Tables, b: Batch, jobs: seq<D.Posting>)
    requires Paged(was, b, jobs)
    ensures |jobs| == 3 && EveryRowIsPulled(was, b, jobs, [1, 2, 3], 1)
  {
    hide StoredJobs, RefsOf, Valid, Clones, Urls, UrlsOf, Paged, Crowded, IsAt, PulledLater, DistinctJobs;
    PagedFacts(was, b, jobs);
    PulledByThird(was, b, jobs);
    forall r | IsAt(StoredJobs(was, b, jobs, 2).tables, r, 2)
      ensures r == 1
    {
      SecondHasThePage(was, b, jobs, r);
    }
  }

  lemma NewPostingIsNotRobbed(was: Tables, b: Batch, jobs: seq<D.Posting>, rows: seq<int>, n: nat, p: int)
    requires n <= |jobs| && n <= |rows| && forall r :: r in was.sources ==> was.sources[r].posting != p
    ensures !Robbed(was, b, jobs, rows, n, p)
  {
    hide Pulls;
  }

  lemma SecondIsBare(was: Tables, b: Batch, jobs: seq<D.Posting>)
    requires Paged(was, b, jobs)
    ensures var t := Persisted(was, b, jobs); 2 in t.posts && t.posts[2].delisted.None? && !HasSource(t, 2)
  {
    hide StoredJobs, Persisted, Valid, Clones, Crowded, Paged, Robbed, DistinctJobs, EveryRowIsPulled, Urls, UrlsOf, RefsOf, HasSource;
    PagedFacts(was, b, jobs);
    ThreeRows(was, b, jobs);
    PageIsPulled(was, b, jobs);
    NewPostingIsNotRobbed(was, b, jobs, [1, 2, 3], 3, 2);
    JobIsDelistedIff(was, b, jobs, 1);
    JobIsEmptiedIff(was, b, jobs, 1);
  }

  /**
   * The third of three jobs on one page takes the page's only row from the second, to which it came from the
   * first: the first job's posting is delisted, and the second's is left listed without a source.
   */
  lemma JobsOnOnePage()
    ensures var was, b, jobs := OnePage(), PageBatch(), JobsOf(PageReports());
      var t := BatchStored(was, b, PageReports(), 9);
      && D.MaterializedAll(D.DedupedGroups(PageReports()), 9) == jobs
      && Valid(was) && StoredJobs(was, b, jobs, 3).rows == [1, 2, 3]
      && 1 in t.posts && t.posts[1].delisted == Some(Mark(9, Ghost))
      && 2 in t.posts && t.posts[2].delisted.None? && !HasSource(t, 2)
  {
    assert PageBatch().now == 9 && |PageReports()| == 3;
    hide RefsOf, D.MaterializedAll, D.DedupedGroups, StoredJobs, Persisted, OnePage, JobsOf, PageBatch, PageReports, Valid, Crowded,
         Paged, HasSource;
    PageIsPaged();
    PageReportsAreJobs();
    PagedIsDelisted(OnePage(), PageBatch(), JobsOf(PageReports()));
    SecondIsBare(OnePage(), PageBatch(), JobsOf(PageReports()));
  }

  lemma PagedIsDelisted(was: Tables, b: Batch, jobs: seq<D.Posting>)
    requires Paged(was, b, jobs)
    ensures var t := Persisted(was, b, jobs); 1 in t.posts && t.posts[1].delisted == Some(Mark(b.now, Ghost))
    ensures Valid(was) && |jobs| == 3 && StoredJobs(was, b, jobs, 3).rows == [1, 2, 3]
  {
    PagedUrlsAreStored(was, b, jobs);
    PagedFacts(was, b, jobs);
    assert was.sources.Keys == {1} && 1 in was.sources;
    hide RefsOf, StoredJobs, Persisted, Valid, Crowded, Paged, Urls, UrlsOf, Clones;
    ThreeRows(was, b, jobs);
    FirstIsDelisted(was, b, jobs);
  }

  // ----------------------------------------------------------------------------------------
  // Three jobs that refer to no common row
  // ----------------------------------------------------------------------------------------

  function OddReports(): seq<D.Raw> {
    [Listing("feed", "u", Some("Y"), "a"), Listing("feed", "u", Some("X"), "b"), Listing("other", "v", None, "c")]
  }

  /** A posting under the first job's key, whose row for that job's URL names another id of the same publisher. */
  function OddTables(): Tables {
    var job := A.JobOf(Listing("feed", "u", Some("Y"), "a"), 9);
    Tables(map[1 := Post(Hashed(job.key), NormOf(job), "", "v", 5, None)],
           map[1 := Source(1, "other", "v", None, None, 5, 3, 0, 0), 2 := Source(1, "feed", "u", Some("X"), Some("X"), 5, 3, 0, 0)], 2, 3)
  }

  function OddBatch(): Batch {
    Batch(map["u" := Report("", "u", Some("Y")), "v" := Report("", "v", None)], url => url, 1, 9)
  }

  lemma OddReportsAreJobs()
    ensures D.MaterializedAll(D.DedupedGroups(OddReports()), 9) == JobsOf(OddReports()) && DistinctJobs(JobsOf(OddReports()))
  {
    BeforeIsIrreflexive("u");
    assert "Y"[0] != "X"[0] && !Before("v", "u");
    ThreeListings(OddReports());
  }

  lemma OddMatches(k: nat, i: nat, r: int)
    requires k < 3 && i < |JobsOf(OddReports())[k].sources| && r in OddTables().sources
    ensures Matches(OddTables(), OddBatch(), JobsOf(OddReports())[k], i, r) <==> (k == 1 && r == 2) || (k == 2 && r == 1)
  {
    assert "u"[0] != "v"[0] && "Y"[0] != "X"[0];
    var job := JobsOf(OddReports())[k];
    assert job.sources == [OddReports()[k]] && i == 0;
  }

  /** The first job refers to no row, the second to the row of its id, the third to that of its URL. */
  lemma OddRefs(k: nat, r: int)
    requires k < 3
    ensures r in RefsOf(OddTables(), OddBatch(), JobsOf(OddReports())[k]) <==> (k == 1 && r == 2) || (k == 2 && r == 1)
  {
    var was, b, job := OddTables(), OddBatch(), JobsOf(OddReports())[k];
    assert job.sources == [OddReports()[k]];
    if r in RefsOf(was, b, job) {
      ReferencesMatch(was, b, job, 1, r);
      OddMatches(k, 0, r);
    }
    if (k == 1 && r == 2) || (k == 2 && r == 1) {
      OddMatches(k, 0, r);
      UrlIsReferred(was, b, job, 0, r);
    }
  }

  lemma OddIsValid()
    ensures Valid(OddTables()) && Clones(OddTables()) == {} && "u" in Urls(OddTables())
    ensures forall k :: 1 <= k < 3 ==> OddTables().posts[1].norm != NormOf(JobsOf(OddReports())[k])
    ensures forall k :: 1 <= k < 3 ==> OddTables().posts[1].key != Hashed(JobsOf(OddReports())[k].key)
  {
    assert "a"[0] != "b"[0] && "a"[0] != "c"[0] && "u"[0] != "v"[0];
    assert OddTables().sources[2].url in Urls(OddTables());
  }

  lemma OddChosen()
    ensures var was, b, job := OddTables(), OddBatch(), JobsOf(OddReports())[0];
      Chosen(was, b, map[], job, Holder(was, Hashed(job.key))) == Some(1)
  {
    var was, b, job := OddTables(), OddBatch(), JobsOf(OddReports())[0];
    assert "u"[0] != "v"[0];
    OddIsValid();
    assert IsOffered(was, b, 1, true, 1) && !IsOffered(was, b, 1, true, 2);
    hide Valid;
    assert IdsInRange(was);
    OpenTo(was, b, job, 1);
    hide RefsOf, Compatible, Chosen, OddBatch;
    OnlyPostingChosen(was, b, job);
  }

  lemma OddSources()
    ensures var was, jobs := OddTables(), JobsOf(OddReports());
      && |jobs| == 3 && was.posts.Keys == {1} && was.nextPost == 2 && was.sources.Keys == {1, 2}
      && (forall i :: 0 <= i < |jobs[0].sources| ==> jobs[0].sources[i].url == "u")
  {
  }

  lemma OddIsCrowded()
    ensures Crowded(OddTables(), OddBatch(), JobsOf(OddReports()))
  {
    OddReportsAreJobs();
    OddIsValid();
    OddChosen();
    OddSources();
    hide RefsOf, Chosen, Valid, Clones, JobsOf, DistinctJobs, NormOf, OddTables, OddReports, OddBatch, Urls,
         D.MaterializedAll, D.DedupedGroups;
    forall k, i | 1 <= k < 3 && 0 <= i < |RefsOf(OddTables(), OddBatch(), JobsOf(OddReports())[k])|
      ensures RefsOf(OddTables(), OddBatch(), JobsOf(OddReports())[k])[i] in OddTables().sources
    {
      OddRefs(k, RefsOf(OddTables(), OddBatch(), JobsOf(OddReports())[k])[i]);
    }
  }

  lemma OddShareNoRow()
    ensures ShareNoRow(OddTables(), OddBatch(), JobsOf(OddReports()))
    ensures var was, b, jobs := OddTables(), OddBatch(), JobsOf(OddReports());
      |jobs| == 3 && forall r :: r in was.sources ==> r in RefsOf(was, b, jobs[1]) || r in RefsOf(was, b, jobs[2])
  {
    OddSources();
    hide RefsOf, OddTables, OddBatch, JobsOf, OddReports;
    forall k: nat, r | k < 3
      ensures r in RefsOf(OddTables(), OddBatch(), JobsOf(OddReports())[k]) <==> (k == 1 && r == 2) || (k == 2 && r == 1)
    {
      OddRefs(k, r);
    }
  }

  lemma OddHasARow()
    ensures 1 in OddTables().sources && OddBatch().now == 9
  {
  }

  lemma OddIsDelisted()
    ensures var t := Persisted(OddTables(), OddBatch(), JobsOf(OddReports()));
      1 in t.posts && t.posts[1].delisted == Some(Mark(9, Ghost))
  {
    hide RefsOf, Persisted, OddTables, JobsOf, OddBatch, OddReports, Valid, Clones, Urls, Crowded, ShareNoRow, Chosen;
    OddIsCrowded();
    OddShareNoRow();
    OddIsValid();
    OddSources();
    OddHasARow();
    FirstIsDelisted(OddTables(), OddBatch(), JobsOf(OddReports()));
  }

  /** No two of the jobs refer to one stored row, and still the posting of the first is delisted. */
  lemma JobsWithoutACommonRow()
    ensures var was, b, jobs := OddTables(), OddBatch(), JobsOf(OddReports());
      var t := BatchStored(was, b, OddReports(), 9);
      && D.MaterializedAll(D.DedupedGroups(OddReports()), 9) == jobs && Valid(was) && ShareNoRow(was, b, jobs)
      && |jobs| == 3 && StoredJobs(was, b, jobs, 3).rows == [1, 2, 3] && 1 in t.posts && t.posts[1].delisted == Some(Mark(9, Ghost))
  {
    assert |OddReports()| == 3;
    hide RefsOf, D.MaterializedAll, D.DedupedGroups, StoredJobs, Persisted, OddTables, JobsOf, OddBatch, OddReports, Valid, Chosen,
         Clones, Urls, Crowded, DistinctJobs, ShareNoRow;
    OddIsCrowded();
    OddReportsAreJobs();
    OddIsValid();
    OddShareNoRow();
    OddIsDelisted();
    ThreeRows(OddTables(), OddBatch(), JobsOf(OddReports()));
  }
}
