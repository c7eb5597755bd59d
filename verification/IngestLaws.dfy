/** What storing a batch keeps: the unique indexes, every posting, every URL, and one posting per job. */
module IngestLaws {
  import opened Options
  import opened Rows
  import opened Ingest
  import D = Dedupe
  import L = DedupeLaws
  import O = DedupeOrder

  // ----------------------------------------------------------------------------------------
  // The constraints of the tables
  // ----------------------------------------------------------------------------------------

  ghost predicate IdsInRange(t: Tables) {
    && 1 <= t.nextPost && 1 <= t.nextSource
    && (forall id :: id in t.posts ==> 1 <= id < t.nextPost)
    && (forall r :: r in t.sources ==> 1 <= r < t.nextSource)
  }

  ghost predicate UniqueKeys(t: Tables) {
    && (forall i, j :: i in t.posts && j in t.posts && t.posts[i].key == t.posts[j].key ==> i == j)
    && (forall i :: i in t.posts && t.posts[i].key.Retained? ==> t.posts[i].key.id == i)
  }

  /** Every source row has its posting. */
  ghost predicate NoOrphans(t: Tables) {
    forall r :: r in t.sources ==> t.sources[r].posting in t.posts
  }

  predicate SamePlace(a: Source, b: Source) {
    a.posting == b.posting && a.url == b.url
  }

  ghost predicate UniqueRows(t: Tables) {
    forall r, q :: r in t.sources && q in t.sources && SamePlace(t.sources[r], t.sources[q]) ==> r == q
  }

  ghost predicate Valid(t: Tables) {
    IdsInRange(t) && UniqueKeys(t) && NoOrphans(t) && UniqueRows(t)
  }

  function Urls(t: Tables): set<string> {
    set r | r in t.sources :: t.sources[r].url
  }

  function UrlsBefore(job: D.Posting, n: nat): set<string>
    requires n <= |job.sources|
  {
    if n == 0 then {} else UrlsBefore(job, n - 1) + {job.sources[n - 1].url}
  }

  function UrlsOf(job: D.Posting): set<string> {
    UrlsBefore(job, |job.sources|)
  }

  // ----------------------------------------------------------------------------------------
  // Lookups are complete
  // ----------------------------------------------------------------------------------------

  lemma HolderIsComplete(t: Tables, key: StoredKey, id: int)
    requires IdsInRange(t) && Holder(t, key).None? && id in t.posts
    ensures t.posts[id].key != key
  {
    assert id in Ids(t.posts, t.nextPost);
  }

  lemma RowAtIsComplete(t: Tables, posting: int, url: string, r: int)
    requires IdsInRange(t) && RowAt(t, posting, url).None?
    ensures !IsRowAt(t, r, posting, url)
  {
    if r in t.sources {
      assert r in Ids(t.sources, t.nextSource);
    }
  }

  // ----------------------------------------------------------------------------------------
  // The row of a job
  // ----------------------------------------------------------------------------------------

  lemma UpdateKeepsTables(t: Tables, b: Batch, id: int, job: D.Posting)
    requires Valid(t) && id in t.posts
    ensures Valid(Updated(t, b, id, job)) && OnlyPosts(t, Updated(t, b, id, job))
  {
    if Holder(t, Hashed(job.key)).None? {
      forall j | j in t.posts
        ensures t.posts[j].key != Hashed(job.key)
      {
        HolderIsComplete(t, Hashed(job.key), j);
      }
    }
  }

  lemma ReleaseFreesKey(t: Tables, id: int, key: StoredKey)
    requires Valid(t) && id in t.posts && t.posts[id].key == key && key.Hashed?
    ensures Valid(ReleasedKey(t, id)) && OnlyPosts(t, ReleasedKey(t, id)) && KeyIsFree(ReleasedKey(t, id), key)
  {
  }

  lemma InsertKeepsTables(t: Tables, b: Batch, job: D.Posting)
    requires Valid(t) && KeyIsFree(t, Hashed(job.key))
    ensures Valid(Inserted(t, b, job)) && OnlyPosts(t, Inserted(t, b, job)) && t.nextPost in Inserted(t, b, job).posts
  {
  }

  ghost predicate KeyIsFree(t: Tables, key: StoredKey) {
    forall j :: j in t.posts ==> t.posts[j].key != key
  }

  /** No posting goes, none is delisted or revived, and new ones are live. */
  ghost predicate PostsGrow(t: Tables, u: Tables) {
    && t.nextPost <= u.nextPost
    && (forall id :: id in t.posts ==> id in u.posts && u.posts[id].delisted == t.posts[id].delisted)
    && (forall id :: id in u.posts && id !in t.posts ==> u.posts[id].delisted.None? && t.nextPost <= id)
  }

  ghost predicate OnlyPosts(t: Tables, u: Tables) {
    u.sources == t.sources && u.nextSource == t.nextSource && PostsGrow(t, u)
  }

  /** A job never goes to a posting claimed for another key. */
  lemma RowIsWritten(was: Tables, b: Batch, run: Run, job: D.Posting)
    requires RunOk(was, run)
    ensures var (u, id) := RowWritten(was, b, run, job);
      && Valid(u) && OnlyPosts(run.tables, u) && id in u.posts
      && (id in run.claimed ==> run.claimed[id] == job.key)
  {
    var t := run.tables;
    var exact := Holder(t, Hashed(job.key));
    var chosen := Chosen(was, b, run.claimed, job, exact);
    if chosen.Some? {
      ChosenIsStored(was, b, run, job);
      UpdateKeepsTables(t, b, chosen.value, job);
    } else {
      NewRowIsWritten(t, b, job);
    }
  }

  /** A job without a posting gets a new one, its key released first by the posting that holds it. */
  lemma NewRowIsWritten(t: Tables, b: Batch, job: D.Posting)
    requires Valid(t)
    ensures var exact := Holder(t, Hashed(job.key));
      var freed := if exact.Some? then ReleasedKey(t, exact.value) else t;
      var u := Inserted(freed, b, job);
      Valid(u) && OnlyPosts(t, u) && freed.nextPost in u.posts && freed.nextPost == t.nextPost
  {
    var exact := Holder(t, Hashed(job.key));
    if exact.Some? {
      ReleaseFreesKey(t, exact.value, Hashed(job.key));
      InsertKeepsTables(ReleasedKey(t, exact.value), b, job);
    } else {
      forall j | j in t.posts
        ensures t.posts[j].key != Hashed(job.key)
      {
        HolderIsComplete(t, Hashed(job.key), j);
      }
      InsertKeepsTables(t, b, job);
    }
  }

  lemma ChosenIsStored(was: Tables, b: Batch, run: Run, job: D.Posting)
    requires RunOk(was, run)
    ensures var chosen := Chosen(was, b, run.claimed, job, Holder(run.tables, Hashed(job.key)));
      chosen.Some? ==> chosen.value in run.tables.posts
  {
    RefsAreRows(was, b, job, |job.sources|);
  }

  // ----------------------------------------------------------------------------------------
  // Sources
  // ----------------------------------------------------------------------------------------

  /**
   * The transaction so far is sound: a source row away from where the snapshot had it is at a claimed posting,
   * and rows keep their URLs.
   */
  ghost predicate RunOk(was: Tables, run: Run) {
    && Valid(was) && Valid(run.tables) && PostsGrow(was, run.tables)
    && (forall id :: id in run.claimed ==> id in run.tables.posts) && (forall id :: id in run.movedFrom ==> id in was.posts)
    && SourcesOk(was, run.tables, run.claimed)
  }

  ghost predicate SourcesOk(was: Tables, t: Tables, claimed: map<int, D.Key>) {
    && was.nextSource <= t.nextSource
    && (forall r :: r in t.sources ==> t.sources[r].posting in claimed || RowUnmoved(was, t, r))
    && (forall r :: r in t.sources && r in was.sources ==> t.sources[r].url == was.sources[r].url)
  }

  predicate RowUnmoved(was: Tables, t: Tables, r: int) {
    r in was.sources && r in t.sources && t.sources[r].posting == was.sources[r].posting
  }

  ghost predicate NoRepeats(ids: seq<int>) {
    forall i, j :: 0 <= i < j < |ids| ==> ids[i] != ids[j]
  }

  lemma {:induction false} MatchesDoNotRepeat(was: Tables, b: Batch, job: D.Posting, s: D.Raw, byUrl: bool, ids: seq<int>, refs: seq<int>)
    requires AreRows(was, ids) && NoRepeats(refs)
    ensures NoRepeats(AddMatches(was, b, job, s, byUrl, ids, refs))
    decreases ids
  {
    if ids != [] {
      MatchesDoNotRepeat(was, b, job, s, byUrl, ids[1..], refs);
      MatchesDoNotRepeat(was, b, job, s, byUrl, ids[1..], Appended(refs, ids[0]));
    }
  }

  lemma {:induction false} RefsDoNotRepeat(was: Tables, b: Batch, job: D.Posting, n: nat)
    requires n <= |job.sources|
    ensures NoRepeats(References(was, b, job, n))
  {
    if n > 0 {
      RefsDoNotRepeat(was, b, job, n - 1);
      var ids := Ids(was.sources, was.nextSource);
      var s := job.sources[n - 1];
      MatchesDoNotRepeat(was, b, job, s, true, ids, References(was, b, job, n - 1));
      MatchesDoNotRepeat(was, b, job, s, false, ids, AddMatches(was, b, job, s, true, ids, References(was, b, job, n - 1)));
    }
  }

  /** Rows only move to `id`, and only those among the first `n` references; no URL is lost. */
  ghost predicate MovesOk(t: Tables, u: Tables, refs: seq<int>, id: int, n: nat)
    requires n <= |refs|
  {
    && Valid(u) && u.posts == t.posts && u.nextSource == t.nextSource && u.nextPost == t.nextPost && Urls(u) == Urls(t)
    && (forall r :: r in u.sources ==> r in t.sources && u.sources[r].url == t.sources[r].url)
    && (forall r :: r in u.sources && u.sources[r].posting != t.sources[r].posting ==> u.sources[r].posting == id && r in refs[..n])
  }

  /** Before a job's sources move, the rows at its posting are where the snapshot had them. */
  ghost predicate OwnRowsUnmoved(was: Tables, t: Tables, id: int) {
    forall r :: r in t.sources && t.sources[r].posting == id ==> RowUnmoved(was, t, r)
  }

  lemma {:induction false} MovesKeepTables(was: Tables, t: Tables, refs: seq<int>, id: int, n: nat)
    requires n <= |refs| && AreRows(was, refs) && NoRepeats(refs)
    requires Valid(t) && id in t.posts && OwnRowsUnmoved(was, t, id)
    requires forall r :: r in t.sources && r in was.sources ==> t.sources[r].url == was.sources[r].url
    ensures MovesOk(t, MovedRows(t, was, refs, id, n), refs, id, n)
  {
    hide Valid, MovesOk, OwnRowsUnmoved, MovedRow, NoRepeats;
    if n == 0 {
      NothingMovedYet(t, refs, id);
    } else {
      MovesKeepTables(was, t, refs, id, n - 1);
      MoveKeepsTables(was, t, MovedRows(t, was, refs, id, n - 1), refs, id, n - 1);
    }
  }

  lemma NothingMovedYet(t: Tables, refs: seq<int>, id: int)
    requires Valid(t)
    ensures MovesOk(t, t, refs, id, 0)
  {
  }

  lemma MoveKeepsTables(was: Tables, t: Tables, u: Tables, refs: seq<int>, id: int, n: nat)
    requires n < |refs| && AreRows(was, refs) && NoRepeats(refs)
    requires Valid(t) && id in t.posts && OwnRowsUnmoved(was, t, id) && MovesOk(t, u, refs, id, n)
    requires forall r :: r in t.sources && r in was.sources ==> t.sources[r].url == was.sources[r].url
    ensures MovesOk(t, MovedRow(u, was, refs[n], id), refs, id, n + 1)
  {
    NotThereYet(was, t, u, refs, id, n);
    RowMoves(was, u, refs[n], id);
    MoveExtends(t, u, MovedRow(u, was, refs[n], id), refs, id, n);
  }

  /** A reference from elsewhere has not reached the posting before its turn. */
  lemma NotThereYet(was: Tables, t: Tables, u: Tables, refs: seq<int>, id: int, n: nat)
    requires n < |refs| && AreRows(was, refs) && NoRepeats(refs)
    requires OwnRowsUnmoved(was, t, id) && MovesOk(t, u, refs, id, n)
    requires forall r :: r in t.sources && r in was.sources ==> t.sources[r].url == was.sources[r].url
    ensures refs[n] in u.sources ==> u.sources[refs[n]].url == was.sources[refs[n]].url
    ensures was.sources[refs[n]].posting != id && refs[n] in u.sources ==> u.sources[refs[n]].posting != id
  {
    var ref := refs[n];
    PrefixGrows(refs, n);
    if ref in u.sources && u.sources[ref].posting == id {
      assert t.sources[ref].posting == id;
      assert RowUnmoved(was, t, ref);
    }
  }

  /** `u` is `t` with the row `r` gone or at `id`, if anything changed. */
  ghost predicate Moves(t: Tables, u: Tables, r: int, id: int) {
    && Valid(u) && u.posts == t.posts && u.nextSource == t.nextSource && u.nextPost == t.nextPost && Urls(u) == Urls(t)
    && (forall q :: q in u.sources ==> q in t.sources && u.sources[q].url == t.sources[q].url)
    && (forall q :: q in u.sources && u.sources[q].posting != t.sources[q].posting ==> u.sources[q].posting == id && q == r)
  }

  /** A referenced row that is not at the posting moves there, or goes because its URL is there in another row. */
  lemma RowMoves(was: Tables, t: Tables, ref: int, id: int)
    requires Valid(t) && id in t.posts && ref in was.sources
    requires ref in t.sources ==> t.sources[ref].url == was.sources[ref].url
    requires was.sources[ref].posting != id && ref in t.sources ==> t.sources[ref].posting != id
    ensures Moves(t, MovedRow(t, was, ref, id), ref, id)
  {
    var url := was.sources[ref].url;
    var there := RowAt(t, id, url);
    if was.sources[ref].posting != id {
      if there.Some? {
        RemovalKeepsTables(t, ref, there.value);
      } else if ref in t.sources {
        forall r | r in t.sources
          ensures !IsRowAt(t, r, id, url)
        {
          RowAtIsComplete(t, id, url, r);
        }
        RelocationKeepsTables(t, ref, id);
      }
    }
  }

  lemma MoveExtends(t: Tables, u: Tables, v: Tables, refs: seq<int>, id: int, n: nat)
    requires n < |refs| && MovesOk(t, u, refs, id, n) && Moves(u, v, refs[n], id)
    ensures MovesOk(t, v, refs, id, n + 1)
  {
    PrefixGrows(refs, n);
  }

  lemma PrefixGrows(refs: seq<int>, n: nat)
    requires n < |refs|
    ensures forall r :: r in refs[..n] ==> r in refs[..n + 1]
    ensures refs[n] in refs[..n + 1]
    ensures NoRepeats(refs) ==> refs[n] !in refs[..n]
  {
    assert refs[..n + 1][n] == refs[n];
    assert refs[..n + 1] == refs[..n] + [refs[n]];
  }

  lemma RemovalKeepsTables(t: Tables, r: int, q: int)
    requires Valid(t) && q in t.sources && r != q && (r in t.sources ==> t.sources[r].url == t.sources[q].url)
    ensures Valid(t.(sources := t.sources - {r})) && Urls(t.(sources := t.sources - {r})) == Urls(t)
  {
    RemovalKeepsUrls(t, r, q);
  }

  lemma RelocationKeepsTables(t: Tables, r: int, id: int)
    requires Valid(t) && r in t.sources && id in t.posts
    requires forall q :: q in t.sources ==> !IsRowAt(t, q, id, t.sources[r].url)
    ensures var u := t.(sources := t.sources[r := t.sources[r].(posting := id)]); Valid(u) && Urls(u) == Urls(t)
  {
    RelocationKeepsUrls(t, r, id);
  }

  lemma RemovalKeepsUrls(t: Tables, r: int, q: int)
    requires q in t.sources && r != q && (r in t.sources ==> t.sources[r].url == t.sources[q].url)
    ensures Urls(t.(sources := t.sources - {r})) == Urls(t)
  {
    var u := t.(sources := t.sources - {r});
    forall url | url in Urls(t)
      ensures url in Urls(u)
    {
      var p :| p in t.sources && t.sources[p].url == url;
      assert p == r || p in u.sources;
      assert q in u.sources && u.sources[q].url in Urls(u);
    }
  }

  lemma RelocationKeepsUrls(t: Tables, r: int, id: int)
    requires r in t.sources
    ensures Urls(t.(sources := t.sources[r := t.sources[r].(posting := id)])) == Urls(t)
  {
    var u := t.(sources := t.sources[r := t.sources[r].(posting := id)]);
    forall url
      ensures url in Urls(t) <==> url in Urls(u)
    {
      if url in Urls(t) {
        var p :| p in t.sources && t.sources[p].url == url;
        assert p in u.sources && u.sources[p].url == url;
      }
      if url in Urls(u) {
        var p :| p in u.sources && u.sources[p].url == url;
        assert p in t.sources && t.sources[p].url == url;
      }
    }
  }

  /** Upserts add the URLs of the job's first `n` sources at its posting and change no row's place. */
  ghost predicate UpsertsOk(t: Tables, u: Tables, id: int, job: D.Posting, n: nat)
    requires n <= |job.sources|
  {
    && Valid(u) && RowsAdded(t, u, id) && Urls(u) == Urls(t) + UrlsBefore(job, n)
    && (forall i :: 0 <= i < n ==> RowThere(u, id, job.sources[i].url))
  }

  /** Every row keeps its place, and new ones are at `id`. */
  ghost predicate RowsAdded(t: Tables, u: Tables, id: int) {
    && u.posts == t.posts && t.nextSource <= u.nextSource && u.nextPost == t.nextPost
    && (forall r :: r in t.sources ==> r in u.sources && SamePlace(u.sources[r], t.sources[r]))
    && (forall r :: r in u.sources && r !in t.sources ==> u.sources[r].posting == id && t.nextSource <= r)
  }

  ghost predicate RowThere(t: Tables, posting: int, url: string) {
    exists r :: IsRowAt(t, r, posting, url)
  }

  /** A row written where it already is, or under a new id where its place is free. */
  ghost predicate Writes(t: Tables, u: Tables, r: int) {
    && u.posts == t.posts && u.nextPost == t.nextPost && t.nextSource <= u.nextSource
    && r in u.sources && u.sources == t.sources[r := u.sources[r]] && u.sources[r].posting in t.posts
    && (if r in t.sources then SamePlace(u.sources[r], t.sources[r]) && u.nextSource == t.nextSource
        else r == t.nextSource && u.nextSource == r + 1
             && forall q :: q in t.sources ==> !SamePlace(t.sources[q], u.sources[r]))
  }

  lemma WriteKeepsTables(t: Tables, u: Tables, r: int)
    requires Valid(t) && Writes(t, u, r)
    ensures Valid(u) && Urls(u) == Urls(t) + {u.sources[r].url}
  {
    UpsertAddsUrl(t, u, r, u.sources[r].url);
  }

  lemma UpsertWrites(t: Tables, b: Batch, id: int, job: D.Posting, s: D.Raw) returns (r: int)
    requires Valid(t) && id in t.posts
    ensures Writes(t, Upserted(t, b, id, job, s), r) && IsRowAt(Upserted(t, b, id, job, s), r, id, s.url)
  {
    var at := RowAt(t, id, s.url);
    r := if at.Some? then at.value else t.nextSource;
    if at.None? {
      forall q | q in t.sources
        ensures !IsRowAt(t, q, id, s.url)
      {
        RowAtIsComplete(t, id, s.url, q);
      }
    }
  }

  lemma {:induction false} UpsertsKeepTables(t: Tables, b: Batch, id: int, job: D.Posting, n: nat)
    requires n <= |job.sources| && Valid(t) && id in t.posts
    ensures UpsertsOk(t, UpsertedAll(t, b, id, job, n), id, job, n)
  {
    hide Upserted;
    if n == 0 {
      NoUpsertsYet(t, id, job);
    } else {
      UpsertsKeepTables(t, b, id, job, n - 1);
      UpsertKeepsTables(t, UpsertedAll(t, b, id, job, n - 1), b, id, job, n - 1);
    }
  }

  lemma NoUpsertsYet(t: Tables, id: int, job: D.Posting)
    requires Valid(t)
    ensures UpsertsOk(t, t, id, job, 0)
  {
  }

  lemma UpsertKeepsTables(t: Tables, u: Tables, b: Batch, id: int, job: D.Posting, n: nat)
    requires n < |job.sources| && id in t.posts && UpsertsOk(t, u, id, job, n)
    ensures UpsertsOk(t, Upserted(u, b, id, job, job.sources[n]), id, job, n + 1)
  {
    var r := UpsertWrites(u, b, id, job, job.sources[n]);
    WriteExtends(t, u, Upserted(u, b, id, job, job.sources[n]), r, id, job, n);
  }

  lemma WriteExtends(t: Tables, u: Tables, v: Tables, r: int, id: int, job: D.Posting, n: nat)
    requires n < |job.sources| && UpsertsOk(t, u, id, job, n)
    requires Writes(u, v, r) && IsRowAt(v, r, id, job.sources[n].url)
    ensures UpsertsOk(t, v, id, job, n + 1)
  {
    WrittenRowsThere(u, v, r, id, job, n);
    hide Valid, Urls, RowsAdded, Writes, RowThere;
    WriteKeepsTables(u, v, r);
    WriteAddsRow(t, u, v, r, id, job.sources[n].url);
  }

  lemma WrittenRowsThere(u: Tables, v: Tables, r: int, id: int, job: D.Posting, n: nat)
    requires n < |job.sources| && forall i :: 0 <= i < n ==> RowThere(u, id, job.sources[i].url)
    requires Writes(u, v, r) && IsRowAt(v, r, id, job.sources[n].url)
    ensures forall i :: 0 <= i <= n ==> RowThere(v, id, job.sources[i].url)
  {
    forall i | 0 <= i <= n
      ensures RowThere(v, id, job.sources[i].url)
    {
      if i < n {
        WriteKeepsRow(u, v, r, id, job.sources[i].url);
      }
    }
  }

  lemma WriteAddsRow(t: Tables, u: Tables, v: Tables, r: int, id: int, url: string)
    requires RowsAdded(t, u, id) && Writes(u, v, r) && IsRowAt(v, r, id, url)
    ensures RowsAdded(t, v, id)
  {
  }

  lemma WriteKeepsRow(u: Tables, v: Tables, r: int, id: int, url: string)
    requires Writes(u, v, r) && RowThere(u, id, url)
    ensures RowThere(v, id, url)
  {
    var q :| IsRowAt(u, q, id, url);
    assert IsRowAt(v, q, id, url);
  }

  lemma UpsertAddsUrl(t: Tables, u: Tables, r: int, url: string)
    requires forall q :: q in t.sources ==> q in u.sources && u.sources[q].url == t.sources[q].url
    requires forall q :: q in u.sources ==> q in t.sources || q == r
    requires r in u.sources && u.sources[r].url == url
    ensures Urls(u) == Urls(t) + {url}
  {
    forall w | w in Urls(u)
      ensures w in Urls(t) + {url}
    {
      var q :| q in u.sources && u.sources[q].url == w;
      assert q in t.sources ==> t.sources[q].url in Urls(t);
    }
    forall w | w in Urls(t)
      ensures w in Urls(u)
    {
      var q :| q in t.sources && t.sources[q].url == w;
      assert u.sources[q].url in Urls(u);
    }
  }

  // ----------------------------------------------------------------------------------------
  // Storing a job, and a batch
  // ----------------------------------------------------------------------------------------

  lemma ClaimedRowsAreUnmoved(was: Tables, run: Run, t: Tables, id: int)
    requires RunOk(was, run) && t.sources == run.tables.sources && id !in run.claimed
    ensures OwnRowsUnmoved(was, t, id)
  {
  }

  lemma OriginsAreStored(was: Tables, refs: seq<int>, id: int)
    requires NoOrphans(was) && AreRows(was, refs)
    ensures Origins(was, refs, id) <= was.posts.Keys
  {
    forall p | p in Origins(was, refs, id)
      ensures p in was.posts
    {
      var i :| 0 <= i < |refs| && was.sources[refs[i]].posting == p;
      var r := refs[i];
      assert r in was.sources && was.sources[r].posting in was.posts;
    }
  }

  lemma SourcesGrow(was: Tables, t: Tables, u: Tables, v: Tables, refs: seq<int>, claimed: map<int, D.Key>, id: int, job: D.Posting)
    requires Valid(was) && SourcesOk(was, t, claimed)
    requires MovesOk(t, u, refs, id, |refs|) && UpsertsOk(u, v, id, job, |job.sources|)
    ensures SourcesOk(was, v, claimed[id := job.key])
  {
    forall r | r in v.sources
      ensures v.sources[r].posting in claimed[id := job.key] || RowUnmoved(was, v, r)
      ensures r in was.sources ==> v.sources[r].url == was.sources[r].url
    {
      if r in u.sources {
        assert SamePlace(v.sources[r], u.sources[r]) && r in t.sources;
      }
    }
  }

  /** The job went to a posting that was not claimed, and claimed it. */
  ghost predicate JobClaims(run: Run, job: D.Posting, next: Run) {
    && |next.rows| == |run.rows| + 1 && next.rows[..|run.rows|] == run.rows
    && next.rows[|run.rows|] !in run.claimed && next.claimed == run.claimed[next.rows[|run.rows|] := job.key]
  }

  /** Every URL the job brings is at its posting, and no stored URL is lost. */
  ghost predicate JobUrlsStored(run: Run, job: D.Posting, next: Run, id: int) {
    && Urls(next.tables) == Urls(run.tables) + UrlsOf(job)
    && (forall i :: 0 <= i < |job.sources| ==> RowThere(next.tables, id, job.sources[i].url))
  }

  ghost predicate JobStored(was: Tables, run: Run, job: D.Posting, next: Run) {
    RunOk(was, next) && JobClaims(run, job, next) && JobUrlsStored(run, job, next, next.rows[|run.rows|])
  }

  lemma JobIsStored(was: Tables, b: Batch, run: Run, job: D.Posting)
    requires RunOk(was, run) && forall id :: id in run.claimed ==> run.claimed[id] != job.key
    ensures JobStored(was, run, job, StoredJob(was, b, run, job))
  {
    var refs := RefsOf(was, b, job);
    var (t, id) := RowWritten(was, b, run, job);
    RowIsWritten(was, b, run, job);
    RefsAreRows(was, b, job, |job.sources|);
    RefsDoNotRepeat(was, b, job, |job.sources|);
    ClaimedRowsAreUnmoved(was, run, t, id);
    RowsAreStored(was, b, run, t, refs, id, job);
  }

  lemma RowsAreStored(was: Tables, b: Batch, run: Run, t: Tables, refs: seq<int>, id: int, job: D.Posting)
    requires RunOk(was, run) && Valid(t) && OnlyPosts(run.tables, t) && id in t.posts && id !in run.claimed
    requires AreRows(was, refs) && NoRepeats(refs) && OwnRowsUnmoved(was, t, id)
    ensures JobStored(was, run, job,
      Run(UpsertedAll(MovedRows(t, was, refs, id, |refs|), b, id, job, |job.sources|),
          run.claimed[id := job.key], run.movedFrom + Origins(was, refs, id), run.rows + [id]))
  {
    var u := MovedRows(t, was, refs, id, |refs|);
    MovesKeepTables(was, t, refs, id, |refs|);
    var v := UpsertedAll(u, b, id, job, |job.sources|);
    UpsertsKeepTables(u, b, id, job, |job.sources|);
    OriginsAreStored(was, refs, id);
    TablesAreStored(was, run, t, u, v, refs, id, job);
    RunStaysOk(was, run, v, id, job, run.movedFrom + Origins(was, refs, id));
  }

  lemma TablesAreStored(was: Tables, run: Run, t: Tables, u: Tables, v: Tables, refs: seq<int>, id: int, job: D.Posting)
    requires RunOk(was, run) && OnlyPosts(run.tables, t) && id in t.posts
    requires MovesOk(t, u, refs, id, |refs|) && UpsertsOk(u, v, id, job, |job.sources|)
    ensures Valid(v) && id in v.posts && PostsGrow(run.tables, v) && SourcesOk(was, v, run.claimed[id := job.key])
    ensures Urls(v) == Urls(run.tables) + UrlsOf(job)
    ensures forall i :: 0 <= i < |job.sources| ==> RowThere(v, id, job.sources[i].url)
  {
    SourcesGrow(was, t, u, v, refs, run.claimed, id, job);
    assert Urls(t) == Urls(run.tables);
  }

  lemma RunStaysOk(was: Tables, run: Run, v: Tables, id: int, job: D.Posting, movedFrom: set<int>)
    requires RunOk(was, run) && Valid(v) && id in v.posts && PostsGrow(run.tables, v) && forall p :: p in movedFrom ==> p in was.posts
    requires SourcesOk(was, v, run.claimed[id := job.key])
    ensures RunOk(was, Run(v, run.claimed[id := job.key], movedFrom, run.rows + [id]))
  {
  }

  ghost predicate DistinctJobs(jobs: seq<D.Posting>) {
    forall i, j :: 0 <= i < j < |jobs| ==> jobs[i].key != jobs[j].key
  }

  function JobUrls(jobs: seq<D.Posting>, n: nat): set<string>
    requires n <= |jobs|
  {
    if n == 0 then {} else JobUrls(jobs, n - 1) + UrlsOf(jobs[n - 1])
  }

  /** After `n` jobs: the claims are exactly the rows of those jobs, each under its job's key. */
  ghost predicate ClaimsOk(run: Run, jobs: seq<D.Posting>, n: nat)
    requires n <= |jobs|
  {
    && |run.rows| == n
    && (forall i :: 0 <= i < n ==> run.rows[i] in run.claimed && run.claimed[run.rows[i]] == jobs[i].key)
    && (forall id :: id in run.claimed ==> id in run.rows)
  }

  lemma ClaimsGrow(run: Run, jobs: seq<D.Posting>, n: nat, next: Run)
    requires n < |jobs| && ClaimsOk(run, jobs, n) && JobClaims(run, jobs[n], next)
    ensures ClaimsOk(next, jobs, n + 1)
  {
    assert next.rows == run.rows + [next.rows[n]];
    assert forall i :: 0 <= i < n ==> next.rows[i] == run.rows[i];
  }

  lemma KeysAreNew(run: Run, jobs: seq<D.Posting>, n: nat)
    requires n < |jobs| && DistinctJobs(jobs) && ClaimsOk(run, jobs, n)
    ensures forall id :: id in run.claimed ==> run.claimed[id] != jobs[n].key
  {
  }

  lemma {:induction false} JobsAreStored(was: Tables, b: Batch, jobs: seq<D.Posting>, n: nat)
    requires Valid(was) && DistinctJobs(jobs) && n <= |jobs|
    ensures var run := StoredJobs(was, b, jobs, n);
      RunOk(was, run) && ClaimsOk(run, jobs, n) && Urls(run.tables) == Urls(was) + JobUrls(jobs, n)
  {
    hide StoredJob;
    if n == 0 {
      NothingStoredYet(was, jobs);
    } else {
      JobsAreStored(was, b, jobs, n - 1);
      NextIsStored(was, b, StoredJobs(was, b, jobs, n - 1), jobs, n - 1);
    }
  }

  lemma NothingStoredYet(was: Tables, jobs: seq<D.Posting>)
    requires Valid(was)
    ensures var run := Run(was, map[], Clones(was), []); RunOk(was, run) && ClaimsOk(run, jobs, 0)
  {
  }

  lemma NextIsStored(was: Tables, b: Batch, run: Run, jobs: seq<D.Posting>, n: nat)
    requires n < |jobs| && DistinctJobs(jobs) && RunOk(was, run) && ClaimsOk(run, jobs, n)
    ensures var next := StoredJob(was, b, run, jobs[n]);
      RunOk(was, next) && ClaimsOk(next, jobs, n + 1) && Urls(next.tables) == Urls(run.tables) + UrlsOf(jobs[n])
  {
    KeysAreNew(run, jobs, n);
    JobIsStored(was, b, run, jobs[n]);
    ClaimsGrow(run, jobs, n, StoredJob(was, b, run, jobs[n]));
  }

  /** Distinct jobs of a batch go to distinct postings. */
  lemma DistinctJobsGetDistinctRows(was: Tables, b: Batch, jobs: seq<D.Posting>)
    requires Valid(was) && DistinctJobs(jobs)
    ensures var rows := StoredJobs(was, b, jobs, |jobs|).rows; |rows| == |jobs| && NoRepeats(rows)
  {
    JobsAreStored(was, b, jobs, |jobs|);
  }

  /**
   * The transaction keeps both unique indexes and the foreign key, deletes no posting, and stores exactly the URLs
   * stored before and those of the batch.
   */
  lemma BatchKeepsTables(was: Tables, b: Batch, jobs: seq<D.Posting>)
    requires Valid(was) && DistinctJobs(jobs)
    ensures var t := Persisted(was, b, jobs);
      && Valid(t) && (forall id :: id in was.posts ==> id in t.posts) && Urls(t) == Urls(was) + JobUrls(jobs, |jobs|)
  {
    JobsAreStored(was, b, jobs, |jobs|);
    var run := StoredJobs(was, b, jobs, |jobs|);
    RetiringKeepsTables(run.tables, run.movedFrom, b.now);
  }

  /** The jobs of a deduped batch have keys of their own. */
  lemma DedupedJobsAreDistinct(raws: seq<D.Raw>, fallback: int)
    ensures DistinctJobs(D.MaterializedAll(D.DedupedGroups(raws), fallback))
  {
    var groups := D.DedupedGroups(raws);
    L.DedupeConservesRecords(raws);
    forall i, j | 0 <= i < j < |groups|
      ensures D.MaterializedAll(groups, fallback)[i].key != D.MaterializedAll(groups, fallback)[j].key
    {
      L.MaterializedAt(groups, fallback, i);
      L.MaterializedAt(groups, fallback, j);
      O.DistinctKeysDiffer(groups, i, j);
    }
  }

  /** So whatever is reported, storing the batch keeps the constraints, every posting, and every URL. */
  lemma AnyBatchKeepsTables(was: Tables, b: Batch, raws: seq<D.Raw>, fallback: int)
    requires Valid(was)
    ensures var t, jobs := BatchStored(was, b, raws, fallback), D.MaterializedAll(D.DedupedGroups(raws), fallback);
      && Valid(t) && (forall id :: id in was.posts ==> id in t.posts) && Urls(t) == Urls(was) + JobUrls(jobs, |jobs|)
      && NoRepeats(StoredJobs(was, b, jobs, |jobs|).rows)
  {
    var jobs := D.MaterializedAll(D.DedupedGroups(raws), fallback);
    DedupedJobsAreDistinct(raws, fallback);
    hide D.DedupedGroups, D.MaterializedAll, StoredJobs;
    BatchKeepsTables(was, b, jobs);
    DistinctJobsGetDistinctRows(was, b, jobs);
    if raws == [] {
      NoReportsNoJobs(fallback);
    }
  }

  lemma NoReportsNoJobs(fallback: int)
    ensures D.MaterializedAll(D.DedupedGroups([]), fallback) == []
  {
  }

  lemma RetiringKeepsTables(t: Tables, movedFrom: set<int>, now: int)
    requires Valid(t)
    ensures var u := Retired(t, movedFrom, now);
      && Valid(u) && u.posts.Keys == t.posts.Keys && u.sources == t.sources && Urls(u) == Urls(t)
  {
    var u := Retired(t, movedFrom, now);
    assert forall id :: id in u.posts ==> u.posts[id].key == t.posts[id].key;
  }

  /**
   * A stored posting's mark changes exactly when its sources were moved away, or it was a clone, and it is left
   * without one: it then reads as a ghost delisted now, whatever mark it carried.
   */
  lemma MarksChangeIff(was: Tables, b: Batch, jobs: seq<D.Posting>, id: int)
    requires Valid(was) && DistinctJobs(jobs) && id in was.posts
    ensures var run, t := StoredJobs(was, b, jobs, |jobs|), Persisted(was, b, jobs);
      && id in t.posts
      && t.posts[id].delisted == if id in run.movedFrom && !HasSource(t, id) then Some(Mark(b.now, Ghost)) else was.posts[id].delisted
  {
    JobsAreStored(was, b, jobs, |jobs|);
    var run := StoredJobs(was, b, jobs, |jobs|);
    assert Persisted(was, b, jobs).sources == run.tables.sources;
    assert HasSource(Persisted(was, b, jobs), id) <==> HasSource(run.tables, id);
  }

  // ----------------------------------------------------------------------------------------
  // Which jobs keep their source rows
  // ----------------------------------------------------------------------------------------

  /** A row of posting `p` that the job refers to and takes to its own posting `id`. */
  predicate Takes(was: Tables, t: Tables, refs: seq<int>, id: int, p: int, url: string) {
    exists i :: 0 <= i < |refs| && refs[i] in was.sources && IsRowAt(t, refs[i], p, url) && was.sources[refs[i]].posting != id
  }

  predicate IsTaken(was: Tables, refs: seq<int>, id: int, n: nat, r: int)
    requires n <= |refs| && AreRows(was, refs)
  {
    r in refs[..n] && was.sources[r].posting != id
  }

  /** Exactly the taken rows leave their postings. */
  lemma {:induction false} MovesAreExact(was: Tables, t: Tables, refs: seq<int>, id: int, n: nat, r: int)
    requires n <= |refs| && AreRows(was, refs) && r in t.sources
    ensures var u := MovedRows(t, was, refs, id, n);
      if IsTaken(was, refs, id, n, r) then r in u.sources ==> u.sources[r].posting == id
      else r in u.sources && u.sources[r] == t.sources[r]
  {
    if n > 0 {
      hide RowAt;
      MovesAreExact(was, t, refs, id, n - 1, r);
      PrefixGrows(refs, n - 1);
      assert refs[..n] == refs[..n - 1] + [refs[n - 1]];
    }
  }

  /** Another posting keeps its row for a URL through a job exactly when the job does not take that row. */
  lemma RowKeptIff(was: Tables, b: Batch, run: Run, job: D.Posting, p: int, url: string)
    requires RunOk(was, run) && (forall id :: id in run.claimed ==> run.claimed[id] != job.key)
    requires p != RowWritten(was, b, run, job).1 && RowThere(run.tables, p, url)
    ensures RowThere(StoredJob(was, b, run, job).tables, p, url)
            <==> !Takes(was, run.tables, RefsOf(was, b, job), RowWritten(was, b, run, job).1, p, url)
  {
    hide RowWritten, Upserted, MovedRow;
    var refs := RefsOf(was, b, job);
    var (t, id) := RowWritten(was, b, run, job);
    RowIsWritten(was, b, run, job);
    RefsAreRows(was, b, job, |job.sources|);
    RefsDoNotRepeat(was, b, job, |job.sources|);
    ClaimedRowsAreUnmoved(was, run, t, id);
    MovesKeepTables(was, t, refs, id, |refs|);
    var u := MovedRows(t, was, refs, id, |refs|);
    UpsertsKeepTables(u, b, id, job, |job.sources|);
    UpsertsKeepOthers(u, UpsertedAll(u, b, id, job, |job.sources|), id, job, p, url);
    var r :| IsRowAt(run.tables, r, p, url);
    MovesAreExact(was, t, refs, id, |refs|, r);
    OnlyRowThere(was, run.tables, t, u, refs, id, p, url, r);
  }

  lemma UpsertsKeepOthers(u: Tables, v: Tables, id: int, job: D.Posting, p: int, url: string)
    requires UpsertsOk(u, v, id, job, |job.sources|) && p != id
    ensures RowThere(v, p, url) <==> RowThere(u, p, url)
  {
    if RowThere(v, p, url) {
      var r :| IsRowAt(v, r, p, url);
      assert IsRowAt(u, r, p, url);
    }
    if RowThere(u, p, url) {
      var r :| IsRowAt(u, r, p, url);
      assert IsRowAt(v, r, p, url);
    }
  }

  lemma OnlyRowThere(was: Tables, s: Tables, t: Tables, u: Tables, refs: seq<int>, id: int, p: int, url: string, r: int)
    requires Valid(s) && s.sources == t.sources && p != id && IsRowAt(s, r, p, url)
    requires AreRows(was, refs) && MovesOk(t, u, refs, id, |refs|)
    requires if IsTaken(was, refs, id, |refs|, r) then r in u.sources ==> u.sources[r].posting == id
             else r in u.sources && u.sources[r] == t.sources[r]
    ensures RowThere(u, p, url) <==> !Takes(was, s, refs, id, p, url)
  {
    assert refs[..|refs|] == refs;
    if RowThere(u, p, url) {
      var q :| IsRowAt(u, q, p, url);
      assert IsRowAt(s, q, p, url) && SamePlace(s.sources[q], s.sources[r]);
      forall i | 0 <= i < |refs| && IsRowAt(s, refs[i], p, url)
        ensures was.sources[refs[i]].posting == id
      {
        assert SamePlace(s.sources[refs[i]], s.sources[r]);
      }
    } else {
      assert IsTaken(was, refs, id, |refs|, r) by {
        if !IsTaken(was, refs, id, |refs|, r) {
          assert IsRowAt(u, r, p, url);
        }
      }
    }
  }

  /** None of the stored rows a job refers to has this URL. */
  predicate AvoidsUrl(was: Tables, b: Batch, job: D.Posting, url: string) {
    forall i :: 0 <= i < |RefsOf(was, b, job)| && RefsOf(was, b, job)[i] in was.sources ==> was.sources[RefsOf(was, b, job)[i]].url != url
  }

  lemma AvoidingTakesNothing(was: Tables, run: Run, refs: seq<int>, id: int, p: int, url: string)
    requires RunOk(was, run)
    requires forall i :: 0 <= i < |refs| && refs[i] in was.sources ==> was.sources[refs[i]].url != url
    ensures !Takes(was, run.tables, refs, id, p, url)
  {
  }

  lemma StepKeepsRow(was: Tables, b: Batch, run: Run, jobs: seq<D.Posting>, n: nat, p: int, url: string)
    requires n < |jobs| && DistinctJobs(jobs) && RunOk(was, run) && ClaimsOk(run, jobs, n)
    requires p in run.claimed && RowThere(run.tables, p, url) && AvoidsUrl(was, b, jobs[n], url)
    ensures RowThere(StoredJob(was, b, run, jobs[n]).tables, p, url) && p in StoredJob(was, b, run, jobs[n]).claimed
  {
    KeysAreNew(run, jobs, n);
    JobIsStored(was, b, run, jobs[n]);
    hide RowWritten, RefsOf, UpsertedAll, MovedRows;
    AvoidingTakesNothing(was, run, RefsOf(was, b, jobs[n]), RowWritten(was, b, run, jobs[n]).1, p, url);
    RowKeptIff(was, b, run, jobs[n], p, url);
  }

  /** A job's URL is at its posting when the batch ends, if no later job refers to a stored row with that URL. */
  lemma {:induction false} JobKeepsItsUrl(was: Tables, b: Batch, jobs: seq<D.Posting>, j: nat, i: nat, n: nat)
    requires Valid(was) && DistinctJobs(jobs) && j < n <= |jobs| && i < |jobs[j].sources|
    requires forall k :: j < k < n ==> AvoidsUrl(was, b, jobs[k], jobs[j].sources[i].url)
    ensures var run := StoredJobs(was, b, jobs, n);
      |run.rows| == n && run.rows[j] in run.claimed && RowThere(run.tables, run.rows[j], jobs[j].sources[i].url)
  {
    hide StoredJob, AvoidsUrl, Valid;
    JobsAreStored(was, b, jobs, n - 1);
    var run := StoredJobs(was, b, jobs, n - 1);
    KeysAreNew(run, jobs, n - 1);
    JobIsStored(was, b, run, jobs[n - 1]);
    if j < n - 1 {
      JobKeepsItsUrl(was, b, jobs, j, i, n - 1);
      StepKeepsRow(was, b, run, jobs, n - 1, run.rows[j], jobs[j].sources[i].url);
    }
  }
}
