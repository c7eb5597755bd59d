/**
 * Storing one batch of deduped jobs (scripts/ingest.ts, `persist`): which stored row each job goes to, how keys
 * are released and sources move between rows, and how rows left without a source are retired.
 *
 * The whole transaction runs against a snapshot of the tables taken when it starts. Row ids grow, so a table is
 * read in the order of its ids. A dedupe key is the tuple that is hashed, or the id namespace of a released key.
 */
module Ingest {
  import opened Options
  import opened Rows
  import opened TextOrder
  import D = Dedupe

  datatype StoredKey = Hashed(key: D.Key) | Retained(id: int)

  datatype Norm = Norm(company: string, title: string, place: D.LocationKey)

  datatype Reason = Ghost | Linkcheck

  datatype Mark = Mark(at: int, reason: Reason)

  /** A posting; `text` stands for its title, location, description and structured fields. */
  datatype Post = Post(
    key: StoredKey, norm: Norm, text: string, canonicalUrl: string, postedAt: int, delisted: Option<Mark>)

  /** A source row; `derivedId` is what `publisherIdOf` makes of the row itself. */
  datatype Source = Source(
    posting: int, source: string, url: string, publisherId: Option<string>, derivedId: Option<string>,
    postedAt: int, priority: int, lastRun: int, absences: nat)

  datatype Tables = Tables(posts: map<int, Post>, sources: map<int, Source>, nextPost: int, nextSource: int)

  /** What the best report of a URL displays. */
  datatype Report = Report(text: string, applyUrl: string, publisherId: Option<string>)

  /** What the batch as a whole fixes: its reports by URL, the application page of a URL, the run and the clock. */
  datatype Batch = Batch(display: map<string, Report>, page: string -> string, run: int, now: int)

  function NormOf(job: D.Posting): Norm {
    Norm(job.key.company, job.key.title, job.key.place)
  }

  predicate AreRows(t: Tables, ids: seq<int>) {
    forall i :: 0 <= i < |ids| ==> ids[i] in t.sources
  }

  // ----------------------------------------------------------------------------------------
  // Choosing the row of a job
  // ----------------------------------------------------------------------------------------

  function NativeId(b: Batch, r: Source): Option<string> {
    if r.publisherId.Some? then r.publisherId
    else if r.url in b.display && b.display[r.url].publisherId.Some? then b.display[r.url].publisherId
    else r.derivedId
  }

  predicate SamePublisher(was: Tables, b: Batch, job: D.Posting, s: D.Raw, r: Source) {
    s.publisherId.Some? && NativeId(b, r) == s.publisherId && r.source == s.source
    && r.posting in was.posts && was.posts[r.posting].norm.company == job.key.company
  }

  predicate Contradicts(b: Batch, s: D.Raw, r: Source) {
    s.publisherId.Some? && r.source == s.source && NativeId(b, r).Some? && NativeId(b, r) != s.publisherId
  }

  function Appended(refs: seq<int>, id: int): seq<int> {
    if id in refs then refs else refs + [id]
  }

  /** The rows among `ids` with the URL of `s`, or with its publisher id, are added in order. */
  function AddMatches(was: Tables, b: Batch, job: D.Posting, s: D.Raw, byUrl: bool, ids: seq<int>, refs: seq<int>): seq<int>
    requires AreRows(was, ids)
  {
    if ids == [] then refs
    else
      var r := was.sources[ids[0]];
      var matches := (if byUrl then r.url == s.url else SamePublisher(was, b, job, s, r)) && !Contradicts(b, s, r);
      AddMatches(was, b, job, s, byUrl, ids[1..], if matches then Appended(refs, ids[0]) else refs)
  }

  /** The stored source rows that a job's sources refer to, in the order they are found. */
  function References(was: Tables, b: Batch, job: D.Posting, n: nat): seq<int>
    requires n <= |job.sources|
  {
    if n == 0 then []
    else
      var ids := Ids(was.sources, was.nextSource);
      var s := job.sources[n - 1];
      AddMatches(was, b, job, s, false, ids, AddMatches(was, b, job, s, true, ids, References(was, b, job, n - 1)))
  }

  function RefsOf(was: Tables, b: Batch, job: D.Posting): seq<int> {
    References(was, b, job, |job.sources|)
  }

  predicate RowAhead(a: Source, c: Source) {
    a.priority < c.priority || (a.priority == c.priority &&
      (a.postedAt < c.postedAt || (a.postedAt == c.postedAt && Before(a.url, c.url))))
  }

  predicate ShowsApplication(b: Batch, canonicalUrl: string, r: Source) {
    b.page(r.url) == b.page(canonicalUrl) || (r.url in b.display && b.display[r.url].applyUrl == canonicalUrl)
  }

  /** The first row of a posting in rank order, among all of them or those that show its application. */
  function FirstRow(was: Tables, b: Batch, id: int, shown: bool, ids: seq<int>): Option<Source>
    requires AreRows(was, ids)
  {
    if ids == [] then None
    else
      var rest := FirstRow(was, b, id, shown, ids[..|ids| - 1]);
      var r := was.sources[ids[|ids| - 1]];
      var url := if id in was.posts then was.posts[id].canonicalUrl else "";
      if r.posting != id || (shown && !ShowsApplication(b, url, r)) then rest
      else if rest.Some? && !RowAhead(r, rest.value) then rest
      else Some(r)
  }

  function Primary(was: Tables, b: Batch, id: int): Option<Source> {
    var ids := Ids(was.sources, was.nextSource);
    var shown := FirstRow(was, b, id, true, ids);
    if shown.Some? then shown else FirstRow(was, b, id, false, ids)
  }

  predicate OffersOtherId(job: D.Posting, r: Source, id: string) {
    exists i :: 0 <= i < |job.sources| && job.sources[i].source == r.source
                && job.sources[i].publisherId.Some? && job.sources[i].publisherId.value != id
  }

  predicate Compatible(was: Tables, b: Batch, claimed: map<int, D.Key>, job: D.Posting, id: int) {
    (id in claimed ==> claimed[id] == job.key) &&
    var primary := Primary(was, b, id);
    primary.None? || NativeId(b, primary.value).None? || !OffersOtherId(job, primary.value, NativeId(b, primary.value).value)
  }

  /** The least compatible posting that a referenced row belongs to. */
  function LeastReferenced(was: Tables, b: Batch, claimed: map<int, D.Key>, job: D.Posting, refs: seq<int>): (r: Option<int>)
    requires AreRows(was, refs)
    ensures r.Some? ==> Compatible(was, b, claimed, job, r.value)
    ensures r.Some? ==> exists i :: 0 <= i < |refs| && was.sources[refs[i]].posting == r.value
  {
    if refs == [] then None
    else
      var rest := LeastReferenced(was, b, claimed, job, refs[1..]);
      var id := was.sources[refs[0]].posting;
      if Compatible(was, b, claimed, job, id) && (rest.None? || id < rest.value) then Some(id) else rest
  }

  function Candidates(was: Tables, b: Batch, claimed: map<int, D.Key>, job: D.Posting, ids: seq<int>): (c: seq<int>)
    requires forall i :: 0 <= i < |ids| ==> ids[i] in was.posts
    ensures forall i :: 0 <= i < |c| ==> c[i] in was.posts && Compatible(was, b, claimed, job, c[i])
  {
    if ids == [] then []
    else
      var rest := Candidates(was, b, claimed, job, ids[..|ids| - 1]);
      var id := ids[|ids| - 1];
      if was.posts[id].norm == NormOf(job) && Compatible(was, b, claimed, job, id) then rest + [id] else rest
  }

  function HolderAmong(t: Tables, key: StoredKey, ids: seq<int>): (r: Option<int>)
    requires forall i :: 0 <= i < |ids| ==> ids[i] in t.posts
    ensures r.Some? ==> r.value in t.posts && t.posts[r.value].key == key
    ensures r.None? ==> forall i :: 0 <= i < |ids| ==> t.posts[ids[i]].key != key
  {
    if ids == [] then None else if t.posts[ids[0]].key == key then Some(ids[0]) else HolderAmong(t, key, ids[1..])
  }

  /** The posting that holds a key. */
  function Holder(t: Tables, key: StoredKey): (r: Option<int>)
    ensures r.Some? ==> r.value in t.posts && t.posts[r.value].key == key
  {
    HolderAmong(t, key, Ids(t.posts, t.nextPost))
  }

  lemma RefsAreRows(was: Tables, b: Batch, job: D.Posting, n: nat)
    requires n <= |job.sources|
    ensures AreRows(was, References(was, b, job, n))
  {
    if n > 0 {
      RefsAreRows(was, b, job, n - 1);
      var ids := Ids(was.sources, was.nextSource);
      var s := job.sources[n - 1];
      var byUrl := AddMatches(was, b, job, s, true, ids, References(was, b, job, n - 1));
      MatchesAreRows(was, b, job, s, true, ids, References(was, b, job, n - 1));
      MatchesAreRows(was, b, job, s, false, ids, byUrl);
    }
  }

  lemma {:induction false} MatchesAreRows(was: Tables, b: Batch, job: D.Posting, s: D.Raw, byUrl: bool, ids: seq<int>, refs: seq<int>)
    requires AreRows(was, ids) && AreRows(was, refs)
    ensures AreRows(was, AddMatches(was, b, job, s, byUrl, ids, refs))
    decreases ids
  {
    hide SamePublisher, Contradicts;
    if ids != [] {
      MatchesAreRows(was, b, job, s, byUrl, ids[1..], refs);
      MatchesAreRows(was, b, job, s, byUrl, ids[1..], Appended(refs, ids[0]));
    }
  }

  /**
   * The stored posting a job goes to: the least compatible one its sources refer to, else the holder of its key,
   * else the only compatible one with its normalized identity; none means a new posting.
   */
  function Chosen(was: Tables, b: Batch, claimed: map<int, D.Key>, job: D.Posting, exact: Option<int>): (r: Option<int>)
    ensures r.Some? ==> Compatible(was, b, claimed, job, r.value)
  {
    RefsAreRows(was, b, job, |job.sources|);
    var referenced := LeastReferenced(was, b, claimed, job, RefsOf(was, b, job));
    if referenced.Some? then referenced
    else if exact.Some? && Compatible(was, b, claimed, job, exact.value) then exact
    else
      var candidates := Candidates(was, b, claimed, job, Ids(was.posts, was.nextPost));
      if |candidates| == 1 then Some(candidates[0]) else None
  }

  // ----------------------------------------------------------------------------------------
  // Storing one job
  // ----------------------------------------------------------------------------------------

  /**
   * The transaction so far: the tables, the key each posting was claimed for, the postings sources moved from, and
   * the posting each job went to.
   */
  datatype Run = Run(tables: Tables, claimed: map<int, D.Key>, movedFrom: set<int>, rows: seq<int>)

  function Min(a: Option<int>, b: int): Option<int> {
    if a.Some? && a.value <= b then a else Some(b)
  }

  function StoredPriority(t: Tables, id: int, ids: seq<int>): Option<int>
    requires AreRows(t, ids)
  {
    if ids == [] then None
    else
      var rest := StoredPriority(t, id, ids[1..]);
      if t.sources[ids[0]].posting == id then Min(rest, t.sources[ids[0]].priority) else rest
  }

  /** The least date of a posting's ATS rows. */
  function StoredAts(t: Tables, id: int, ids: seq<int>): Option<int>
    requires AreRows(t, ids)
  {
    if ids == [] then None
    else
      var rest := StoredAts(t, id, ids[1..]);
      var r := t.sources[ids[0]];
      if r.posting == id && r.priority == D.Priority(D.Ats) then Min(rest, r.postedAt) else rest
  }

  /** The posted date only moves back, and not past the earliest date an ATS has given the posting. */
  function FlooredDate(current: int, incoming: int, floor: Option<int>): int {
    var earlier := if incoming < current then incoming else current;
    if floor.Some? && floor.value > earlier then floor.value else earlier
  }

  function TextOf(b: Batch, job: D.Posting): string {
    if job.sources != [] && job.sources[0].url in b.display then b.display[job.sources[0].url].text else ""
  }

  function Inserted(t: Tables, b: Batch, job: D.Posting): Tables {
    t.(posts := t.posts[t.nextPost := Post(Hashed(job.key), NormOf(job), TextOf(b, job), job.canonicalUrl, job.postedAt, None)],
       nextPost := t.nextPost + 1)
  }

  /** A key that another posting holds is not adopted, and only a source as good as the stored ones renames a posting. */
  function Updated(t: Tables, b: Batch, id: int, job: D.Posting): Tables
    requires id in t.posts
  {
    var current := t.posts[id];
    var ids := Ids(t.sources, t.nextSource);
    var stored := StoredPriority(t, id, ids);
    var promote := stored.None? || (job.sources != [] && D.Priority(job.sources[0].kind) <= stored.value);
    var keyTaken := current.key != Hashed(job.key) && Holder(t, Hashed(job.key)).Some?;
    var date := FlooredDate(current.postedAt, job.postedAt, StoredAts(t, id, ids));
    t.(posts := t.posts[id :=
      Post(if keyTaken || !promote then current.key else Hashed(job.key),
           if promote then NormOf(job) else current.norm,
           if promote then TextOf(b, job) else current.text,
           if promote then job.canonicalUrl else current.canonicalUrl, date, current.delisted)])
  }

  function ReleasedKey(t: Tables, id: int): Tables
    requires id in t.posts
  {
    t.(posts := t.posts[id := t.posts[id].(key := Retained(id))])
  }

  predicate IsRowAt(t: Tables, r: int, posting: int, url: string) {
    r in t.sources && t.sources[r].posting == posting && t.sources[r].url == url
  }

  function RowAmong(t: Tables, posting: int, url: string, ids: seq<int>): (r: Option<int>)
    ensures r.Some? ==> IsRowAt(t, r.value, posting, url)
    ensures r.None? ==> forall i :: 0 <= i < |ids| ==> !IsRowAt(t, ids[i], posting, url)
  {
    if ids == [] then None else if IsRowAt(t, ids[0], posting, url) then Some(ids[0]) else RowAmong(t, posting, url, ids[1..])
  }

  /** The row with a posting and URL. */
  function RowAt(t: Tables, posting: int, url: string): (r: Option<int>)
    ensures r.Some? ==> IsRowAt(t, r.value, posting, url)
  {
    RowAmong(t, posting, url, Ids(t.sources, t.nextSource))
  }

  /** One referenced row moves to the posting, unless the posting already has its URL: then the row goes. */
  function MovedRow(t: Tables, was: Tables, ref: int, id: int): Tables
    requires ref in was.sources
  {
    if was.sources[ref].posting == id then t
    else if RowAt(t, id, was.sources[ref].url).Some? then t.(sources := t.sources - {ref})
    else if ref in t.sources then t.(sources := t.sources[ref := t.sources[ref].(posting := id)])
    else t
  }

  function MovedRows(t: Tables, was: Tables, refs: seq<int>, id: int, n: nat): Tables
    requires n <= |refs| && AreRows(was, refs)
  {
    if n == 0 then t else MovedRow(MovedRows(t, was, refs, id, n - 1), was, refs[n - 1], id)
  }

  function Origins(was: Tables, refs: seq<int>, id: int): set<int>
    requires AreRows(was, refs)
  {
    set i | 0 <= i < |refs| && was.sources[refs[i]].posting != id :: was.sources[refs[i]].posting
  }

  function Upserted(t: Tables, b: Batch, id: int, job: D.Posting, s: D.Raw): Tables {
    var at := RowAt(t, id, s.url);
    var priority := D.Priority(s.kind);
    if at.None? then
      var date := if s.postedAt.Some? then s.postedAt.value else job.postedAt;
      t.(sources := t.sources[t.nextSource := Source(id, s.source, s.url, s.publisherId, s.publisherId, date, priority, b.run, 0)],
         nextSource := t.nextSource + 1)
    else
      var r := t.sources[at.value];
      t.(sources := t.sources[at.value :=
        r.(lastRun := b.run,
           source := if priority < r.priority then s.source else r.source,
           priority := if priority < r.priority then priority else r.priority,
           publisherId := if priority <= r.priority && s.publisherId.Some? then s.publisherId else r.publisherId)])
  }

  function UpsertedAll(t: Tables, b: Batch, id: int, job: D.Posting, n: nat): Tables
    requires n <= |job.sources|
  {
    if n == 0 then t else Upserted(UpsertedAll(t, b, id, job, n - 1), b, id, job, job.sources[n - 1])
  }

  /** The posting of a job, and the tables once its own row is written. */
  function RowWritten(was: Tables, b: Batch, run: Run, job: D.Posting): (Tables, int) {
    var exact := Holder(run.tables, Hashed(job.key));
    var chosen := Chosen(was, b, run.claimed, job, exact);
    if chosen.Some? then (if chosen.value in run.tables.posts then Updated(run.tables, b, chosen.value, job) else run.tables, chosen.value)
    else
      var t := if exact.Some? then ReleasedKey(run.tables, exact.value) else run.tables;
      (Inserted(t, b, job), t.nextPost)
  }

  function StoredJob(was: Tables, b: Batch, run: Run, job: D.Posting): Run {
    RefsAreRows(was, b, job, |job.sources|);
    var refs := RefsOf(was, b, job);
    var (t, id) := RowWritten(was, b, run, job);
    Run(UpsertedAll(MovedRows(t, was, refs, id, |refs|), b, id, job, |job.sources|),
        run.claimed[id := job.key], run.movedFrom + Origins(was, refs, id), run.rows + [id])
  }

  // ----------------------------------------------------------------------------------------
  // The transaction
  // ----------------------------------------------------------------------------------------

  predicate HasSource(t: Tables, id: int) {
    exists r :: r in t.sources && t.sources[r].posting == id
  }

  predicate SameApplication(p: Post, q: Post) {
    p.norm.company == q.norm.company && p.text == q.text && p.canonicalUrl == q.canonicalUrl
  }

  /** Live postings without a source whose application a live posting with a source owns. */
  function Clones(was: Tables): set<int> {
    set id | id in was.posts && was.posts[id].delisted.None? && !HasSource(was, id)
             && exists o :: o in was.posts && was.posts[o].delisted.None? && HasSource(was, o)
                            && SameApplication(was.posts[o], was.posts[id])
  }

  function StoredJobs(was: Tables, b: Batch, jobs: seq<D.Posting>, n: nat): Run
    requires n <= |jobs|
  {
    if n == 0 then Run(was, map[], Clones(was), []) else StoredJob(was, b, StoredJobs(was, b, jobs, n - 1), jobs[n - 1])
  }

  /** Of the postings sources moved from, those left without one are delisted as ghosts. */
  function Retired(t: Tables, movedFrom: set<int>, now: int): Tables {
    t.(posts := map id | id in t.posts ::
      if id in movedFrom && !HasSource(t, id) then t.posts[id].(delisted := Some(Mark(now, Ghost))) else t.posts[id])
  }

  function Persisted(was: Tables, b: Batch, jobs: seq<D.Posting>): Tables {
    var run := StoredJobs(was, b, jobs, |jobs|);
    Retired(run.tables, run.movedFrom, b.now)
  }

  /** The reports of a batch are deduped and their jobs stored; an empty batch changes nothing. */
  function BatchStored(was: Tables, b: Batch, raws: seq<D.Raw>, fallback: int): Tables {
    if raws == [] then was else Persisted(was, b, D.MaterializedAll(D.DedupedGroups(raws), fallback))
  }

  /** The two tables, updated in place. */
  class Database {
    var posts: map<int, Post>
    var sources: map<int, Source>
    var nextPost: int
    var nextSource: int

    constructor (t: Tables)
      ensures View() == t
    {
      posts, sources, nextPost, nextSource := t.posts, t.sources, t.nextPost, t.nextSource;
    }

    function View(): Tables
      reads this
    {
      Tables(posts, sources, nextPost, nextSource)
    }

    method Persist(b: Batch, raws: seq<D.Raw>, fallback: int)
      modifies this
      ensures View() == BatchStored(old(View()), b, raws, fallback)
    {
      if |raws| == 0 {
        return;
      }
      var jobs := D.DedupePostings(raws, fallback);
      StoreJobs(b, jobs);
    }

    method StoreJobs(b: Batch, jobs: seq<D.Posting>)
      modifies this
      ensures View() == Persisted(old(View()), b, jobs)
    {
      var was := View();
      var claimed: map<int, D.Key> := map[];
      var movedFrom, rows := Clones(was), [];
      for n := 0 to |jobs|
        invariant Run(View(), claimed, movedFrom, rows) == StoredJobs(was, b, jobs, n)
      {
        hide Chosen, Updated, Inserted, Upserted, MovedRow;
        ghost var run := Run(View(), claimed, movedFrom, rows);
        var id := WriteRow(was, b, claimed, jobs[n], run);
        var origins := MoveSources(was, b, jobs[n], id);
        UpsertSources(b, id, jobs[n]);
        claimed, movedFrom, rows := claimed[id := jobs[n].key], movedFrom + origins, rows + [id];
        assert Run(View(), claimed, movedFrom, rows) == StoredJob(was, b, run, jobs[n]);
      }
      Retire(movedFrom, b.now);
    }

    /** Writes the job's own row: an update, or an insert after its key is released. */
    method WriteRow(was: Tables, b: Batch, claimed: map<int, D.Key>, job: D.Posting, ghost run: Run) returns (id: int)
      requires run.tables == View() && run.claimed == claimed
      modifies this
      ensures (View(), id) == RowWritten(was, b, run, job)
    {
      var exact := Holder(View(), Hashed(job.key));
      var chosen := Chosen(was, b, claimed, job, exact);
      if chosen.Some? {
        id := chosen.value;
        if id in posts {
          posts := Updated(View(), b, id, job).posts;
        }
      } else {
        if exact.Some? {
          posts := posts[exact.value := posts[exact.value].(key := Retained(exact.value))];
        }
        id := nextPost;
        posts := posts[id := Post(Hashed(job.key), NormOf(job), TextOf(b, job), job.canonicalUrl, job.postedAt, None)];
        nextPost := nextPost + 1;
      }
    }

    method MoveSources(was: Tables, b: Batch, job: D.Posting, id: int) returns (origins: set<int>)
      modifies this
      ensures AreRows(was, RefsOf(was, b, job))
      ensures View() == MovedRows(old(View()), was, RefsOf(was, b, job), id, |RefsOf(was, b, job)|)
      ensures origins == Origins(was, RefsOf(was, b, job), id)
    {
      RefsAreRows(was, b, job, |job.sources|);
      var refs := RefsOf(was, b, job);
      origins := {};
      for n := 0 to |refs|
        invariant View() == MovedRows(old(View()), was, refs, id, n)
        invariant origins == set i | 0 <= i < n && was.sources[refs[i]].posting != id :: was.sources[refs[i]].posting
      {
        var ref := refs[n];
        if was.sources[ref].posting != id {
          var duplicate := RowAt(View(), id, was.sources[ref].url);
          if duplicate.Some? {
            sources := sources - {ref};
          } else if ref in sources {
            sources := sources[ref := sources[ref].(posting := id)];
          }
          origins := origins + {was.sources[ref].posting};
        }
      }
    }

    method UpsertSources(b: Batch, id: int, job: D.Posting)
      modifies this
      ensures View() == UpsertedAll(old(View()), b, id, job, |job.sources|)
    {
      for n := 0 to |job.sources|
        invariant View() == UpsertedAll(old(View()), b, id, job, n)
      {
        var s := job.sources[n];
        var at := RowAt(View(), id, s.url);
        var priority := D.Priority(s.kind);
        if at.None? {
          var date := if s.postedAt.Some? then s.postedAt.value else job.postedAt;
          sources := sources[nextSource := Source(id, s.source, s.url, s.publisherId, s.publisherId, date, priority, b.run, 0)];
          nextSource := nextSource + 1;
        } else {
          var r := sources[at.value];
          var lower := priority < r.priority;
          sources := sources[at.value := r.(
            lastRun := b.run,
            source := if lower then s.source else r.source,
            priority := if lower then priority else r.priority,
            publisherId := if priority <= r.priority && s.publisherId.Some? then s.publisherId else r.publisherId)];
        }
      }
    }

    method Retire(movedFrom: set<int>, now: int)
      modifies this
      ensures View() == Retired(old(View()), movedFrom, now)
    {
      var left := movedFrom;
      while left != {}
        invariant left <= movedFrom
        invariant View() == Retired(old(View()), movedFrom - left, now)
        decreases |left|
      {
        if id :| id in left {
          if id in posts && !HasSource(View(), id) {
            posts := posts[id := posts[id].(delisted := Some(Mark(now, Ghost)))];
          }
          left := left - {id};
        } else {
          left := {};
        }
      }
      assert movedFrom - left == movedFrom;
    }
  }
}
