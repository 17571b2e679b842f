/**
 * The FastAPI store of routers/newsapi/api.py: responses are enriched, and
 * what survives is appended to the stored document of the same path. The
 * news keys and the geocoder keys are two separate counters.
 */
module Store {
  import opened Wrappers
  import opened News
  import opened KeyRotation
  import opened Enrichment

  /** The exceptions a save can raise: a response or a stored document without an article list. */
  datatype StoreError = ResponseWithoutArticles | StoreWithoutArticles

  /** What a missing or undecodable file is replaced by. */
  const EmptyStore := Document(Some("ok"), Some(0), Some([]))

  /** The document a save starts from: the stored one when it decodes, else the empty one. */
  function Base(existing: Option<FileContent>): (d: Document)
    ensures existing.Some? && existing.value.Json? ==> d == existing.value.doc
    ensures existing.None? || existing.value.Garbled? ==> d == EmptyStore
  {
    match existing
    case Some(Json(doc)) => doc
    case _ => EmptyStore
  }

  /** `data["articles"].extend(...)` and the recount: no deduplication, other fields kept. */
  function Merge(existing: Option<FileContent>, enriched: seq<Article>): (r: Result<Document, StoreError>)
    ensures r.Err? <==> Base(existing).articles.None?
    ensures r.Ok? ==> r.value.articles == Some(Base(existing).articles.value + enriched)
    ensures r.Ok? ==> r.value.totalResults == Some(|r.value.articles.value|)
    ensures r.Ok? ==> r.value.status == Base(existing).status
  {
    var base := Base(existing);
    match base.articles
    case None => Err(StoreWithoutArticles)
    case Some(stored) =>
      var articles := stored + enriched;
      Ok(base.(articles := Some(articles), totalResults := Some(|articles|)))
  }

  /** Two saves in a row store what one save of both batches would. */
  lemma MergeTwice(existing: Option<FileContent>, first: seq<Article>, second: seq<Article>)
    requires Merge(existing, first).Ok?
    ensures Merge(Some(Json(Merge(existing, first).value)), second) == Merge(existing, first + second)
  {
    var base := Base(existing);
    assert base.articles.value + first + second == base.articles.value + (first + second);
  }

  /** A corrupt or missing store restarts from the empty document. */
  lemma MergeResets(existing: Option<FileContent>, enriched: seq<Article>)
    requires existing.None? || existing.value.Garbled?
    ensures Merge(existing, enriched) == Ok(Document(Some("ok"), Some(|enriched|), Some(enriched)))
  {
    assert [] + enriched == enriched;
  }

  /**
   * `save_to_json`: enrich the response's articles with the geocoder keys
   * from `index`; store nothing when none survive. Returns the new files and
   * the geocoder counter.
   */
  function Save(p: Pipeline, keys: seq<string>, index: nat, files: FileSystem, path: string, response: Document)
    : (r: (Result<FileSystem, StoreError>, nat))
    requires index < |keys|
    ensures r.1 < |keys|
  {
    match response.articles
    case None => (Err(ResponseWithoutArticles), index)
    case Some(articles) =>
      var (kept, next) := Enrich(p, keys, index, articles);
      if kept == [] then (Ok(files), next)
      else match Merge(if path in files then Some(files[path]) else None, kept)
        case Err(e) => (Err(e), next)
        case Ok(doc) => (Ok(files[path := Json(doc)]), next)
  }

  /** A save touches at most its own path, and when it writes, the stored articles gain exactly the enriched ones. */
  lemma SaveSpec(p: Pipeline, keys: seq<string>, index: nat, files: FileSystem, path: string, response: Document)
    requires index < |keys|
    ensures var (r, next) := Save(p, keys, index, files, path, response);
            && (response.articles.None? ==> r == Err(ResponseWithoutArticles) && next == index)
            && (response.articles.Some? ==> next == Enrich(p, keys, index, response.articles.value).1)
            && (r.Ok? ==> SameOutside(files, r.value, {path}))
            && (response.articles.Some? && Enrich(p, keys, index, response.articles.value).0 == [] ==> r == Ok(files))
            && (response.articles.Some? && Enrich(p, keys, index, response.articles.value).0 != [] ==>
                  (r.Err? <==> Base(if path in files then Some(files[path]) else None).articles.None?))
            && (r.Ok? && response.articles.Some? && Enrich(p, keys, index, response.articles.value).0 != [] ==>
                  var kept := Enrich(p, keys, index, response.articles.value).0;
                  && path in r.value && r.value[path].Json?
                  && r.value[path].doc.articles
                     == Some(Base(if path in files then Some(files[path]) else None).articles.value + kept)
                  && r.value[path].doc.totalResults == Some(|r.value[path].doc.articles.value|))
  {
  }

  /** `save_to_json` over the disk, with the geocoder counter of utils/utiles.py. */
  method SaveToJson(disk: Disk, geoPool: KeyRing, p: Pipeline, path: string, response: Document)
    returns (r: Result<(), StoreError>)
    requires geoPool.Valid()
    modifies disk, geoPool
    ensures geoPool.Valid()
    ensures var (saved, next) := Save(p, geoPool.keys, old(geoPool.index), old(disk.files), path, response);
            && geoPool.index == next
            && (r.Err? <==> saved.Err?)
            && (saved.Err? ==> r.error == saved.error && disk.files == old(disk.files))
            && (saved.Ok? ==> disk.files == saved.value)
  {
    if response.articles.None? {
      return Err(ResponseWithoutArticles);
    }
    var filtered := AddLocationInfo(p, geoPool, response.articles.value);
    if filtered == [] {
      return Ok(());
    }
    var existing := if path in disk.files then Some(disk.files[path]) else None;
    var merged := Merge(existing, filtered);
    if merged.Err? {
      return Err(merged.error);
    }
    disk.Write(path, merged.value);
    r := Ok(());
  }

  /** One save of an update job: the target path and the fetched response. */
  datatype Job = Job(path: string, response: Document)

  /** Where a sequence of saves stands: the files, the exception that stopped it, the geocoder counter, the saves attempted. */
  datatype RunState = RunState(files: FileSystem, failure: Option<StoreError>, geoIndex: nat, attempted: nat)

  /** The saves of `jobs` in order; the first exception ends the run. */
  function Run(p: Pipeline, keys: seq<string>, index: nat, files: FileSystem, jobs: seq<Job>): (s: RunState)
    requires index < |keys|
    ensures s.geoIndex < |keys| && s.attempted <= |jobs|
    ensures s.failure.None? ==> s.attempted == |jobs|
  {
    if jobs == [] then RunState(files, None, index, 0)
    else
      var before := Run(p, keys, index, files, jobs[..|jobs| - 1]);
      if before.failure.Some? then before
      else
        var job := jobs[|jobs| - 1];
        match Save(p, keys, before.geoIndex, before.files, job.path, job.response)
        case (Err(e), next) => RunState(before.files, Some(e), next, |jobs|)
        case (Ok(files'), next) => RunState(files', None, next, |jobs|)
  }

  /** After the first exception, later jobs change nothing. */
  lemma {:induction false} RunStops(p: Pipeline, keys: seq<string>, index: nat, files: FileSystem, jobs: seq<Job>, more: seq<Job>)
    requires index < |keys| && Run(p, keys, index, files, jobs).failure.Some?
    ensures Run(p, keys, index, files, jobs + more) == Run(p, keys, index, files, jobs)
    decreases |more|
  {
    if more != [] {
      var init := more[..|more| - 1];
      RunStops(p, keys, index, files, jobs, init);
      assert (jobs + more)[..|jobs + more| - 1] == jobs + init;
    } else {
      assert jobs + more == jobs;
    }
  }

  /** The saves of a run write only the paths of its jobs. */
  lemma {:induction false} RunTouchesOnlyJobPaths(p: Pipeline, keys: seq<string>, index: nat, files: FileSystem, jobs: seq<Job>)
    requires index < |keys|
    ensures SameOutside(files, Run(p, keys, index, files, jobs).files, set j | j in jobs :: j.path)
  {
    if jobs != [] {
      var init := jobs[..|jobs| - 1];
      RunTouchesOnlyJobPaths(p, keys, index, files, init);
      var before := Run(p, keys, index, files, init);
      if before.failure.None? {
        var job := jobs[|jobs| - 1];
        SaveSpec(p, keys, before.geoIndex, before.files, job.path, job.response);
      }
      assert jobs == init + [jobs[|jobs| - 1]];
    }
  }

  /** `update_everything`: one news key for every source, one save per source file. */
  function EverythingJobs(fetch: (string, string) -> Document, key: string, count: nat): (jobs: seq<Job>)
    requires count <= |Sources|
    ensures |jobs| == count
    ensures forall k :: 0 <= k < count ==> jobs[k] == Job(SourcePath(Sources[k]), fetch(Sources[k], key))
  {
    if count == 0 then [] else EverythingJobs(fetch, key, count - 1) + [Job(SourcePath(Sources[count - 1]), fetch(Sources[count - 1], key))]
  }

  /** The number of (category, country) pairs `update_top_headline` visits. */
  const PairCount: nat := 49

  lemma PairCountIsProduct()
    ensures PairCount == |Categories| * |Countries|
  {
  }

  /**
   * Pair number `k` of `update_top_headline`, in loop order: the category
   * of the outer loop, fetched with the (k+1)-th news key and saved to the
   * category file; the country plays no part in the request.
   */
  function TopJob(fetch: (string, string) -> Document, keys: seq<string>, start: nat, k: nat): (job: Job)
    requires start < |keys| && k < PairCount
    ensures job.path == CategoryPath(Categories[k / 7])
  {
    var c := Categories[k / 7];
    Job(CategoryPath(c), fetch(c, keys[Steps(start, |keys|, k + 1)]))
  }

  /** All the saves `update_top_headline` would make. */
  function TopJobs(fetch: (string, string) -> Document, keys: seq<string>, start: nat): (jobs: seq<Job>)
    requires start < |keys|
    ensures |jobs| == PairCount
    ensures forall k :: 0 <= k < PairCount ==> jobs[k] == TopJob(fetch, keys, start, k)
  {
    seq(PairCount, k requires 0 <= k < PairCount => TopJob(fetch, keys, start, k))
  }

  /** A run that fails at a job ends there. */
  lemma RunStopsAt(p: Pipeline, keys: seq<string>, index: nat, files: FileSystem, jobs: seq<Job>, count: nat)
    requires index < |keys| && count <= |jobs|
    requires Run(p, keys, index, files, jobs[..count]).failure.Some?
    ensures Run(p, keys, index, files, jobs) == Run(p, keys, index, files, jobs[..count])
  {
    RunStops(p, keys, index, files, jobs[..count], jobs[count..]);
    assert jobs[..count] + jobs[count..] == jobs;
  }

  /** `save_to_json` as job number `t` of a run that has not failed yet. */
  method SaveJob(disk: Disk, geoPool: KeyRing, p: Pipeline, path: string, response: Document,
                 ghost t: nat, ghost jobs: seq<Job>, ghost geoStart: nat, ghost files: FileSystem)
    returns (r: Result<(), StoreError>)
    requires geoPool.Valid() && geoStart < |geoPool.keys| && t < |jobs| && jobs[t] == Job(path, response)
    requires var s := Run(p, geoPool.keys, geoStart, files, jobs[..t]);
             disk.files == s.files && geoPool.index == s.geoIndex && s.failure.None?
    modifies disk, geoPool
    ensures geoPool.Valid()
    ensures var s := Run(p, geoPool.keys, geoStart, files, jobs[..t + 1]);
            && disk.files == s.files && geoPool.index == s.geoIndex
            && (r.Err? <==> s.failure.Some?) && (r.Err? ==> r.error == s.failure.value)
  {
    RunLast(p, geoPool.keys, geoStart, files, jobs, t);
    r := SaveToJson(disk, geoPool, p, path, response);
  }

  /** `update_everything` with a news counter and a geocoder counter. */
  method UpdateEverything(disk: Disk, newsPool: KeyRing, geoPool: KeyRing, p: Pipeline, fetch: (string, string) -> Document)
    returns (r: Result<(), StoreError>)
    requires newsPool.Valid() && geoPool.Valid() && newsPool != geoPool
    modifies disk, newsPool, geoPool
    ensures newsPool.Valid() && geoPool.Valid()
    ensures newsPool.index == Next(old(newsPool.index), |newsPool.keys|)
    ensures var s := Run(p, geoPool.keys, old(geoPool.index), old(disk.files),
                         EverythingJobs(fetch, newsPool.keys[newsPool.index], |Sources|));
            && disk.files == s.files && geoPool.index == s.geoIndex
            && (r.Err? <==> s.failure.Some?) && (r.Err? ==> r.error == s.failure.value)
  {
    var key := newsPool.GetKey();
    ghost var jobs := EverythingJobs(fetch, key, |Sources|);
    var i := 0;
    while i < |Sources|
      modifies disk, geoPool
      invariant 0 <= i <= |Sources| && geoPool.Valid()
      invariant var s := Run(p, geoPool.keys, old(geoPool.index), old(disk.files), jobs[..i]);
                disk.files == s.files && geoPool.index == s.geoIndex && s.failure.None?
    {
      var source := Sources[i];
      var response := fetch(source, key);
      r := SaveJob(disk, geoPool, p, SourcePath(source), response, i, jobs, old(geoPool.index), old(disk.files));
      if r.Err? {
        RunStopsAt(p, geoPool.keys, old(geoPool.index), old(disk.files), jobs, i + 1);
        return;
      }
      i := i + 1;
    }
    assert jobs[..i] == jobs;
    r := Ok(());
  }

  /** A run that has not failed yet takes one more job by one more `save_to_json`. */
  lemma RunLast(p: Pipeline, keys: seq<string>, index: nat, files: FileSystem, jobs: seq<Job>, t: nat)
    requires index < |keys| && t < |jobs|
    requires Run(p, keys, index, files, jobs[..t]).failure.None?
    ensures var before := Run(p, keys, index, files, jobs[..t]);
            var (saved, next) := Save(p, keys, before.geoIndex, before.files, jobs[t].path, jobs[t].response);
            var s := Run(p, keys, index, files, jobs[..t + 1]);
            && s.geoIndex == next && s.attempted == t + 1
            && (saved.Err? ==> s.files == before.files && s.failure == Some(saved.error))
            && (saved.Ok? ==> s.files == saved.value && s.failure.None?)
  {
    assert jobs[..t + 1][..t] == jobs[..t];
  }

  /** One iteration of `update_top_headline`'s inner loop: pair number `t`, whose category is `category`. */
  method SavePair(disk: Disk, newsPool: KeyRing, geoPool: KeyRing, p: Pipeline, fetch: (string, string) -> Document,
                  category: string, ghost t: nat, ghost jobs: seq<Job>, ghost start: nat, ghost geoStart: nat,
                  ghost files: FileSystem)
    returns (r: Result<(), StoreError>)
    requires newsPool.Valid() && geoPool.Valid() && newsPool != geoPool
    requires start < |newsPool.keys| && geoStart < |geoPool.keys| && t < |jobs|
    requires jobs[t] == Job(CategoryPath(category), fetch(category, newsPool.keys[Steps(start, |newsPool.keys|, t + 1)]))
    requires newsPool.index == Steps(start, |newsPool.keys|, t)
    requires var s := Run(p, geoPool.keys, geoStart, files, jobs[..t]);
             disk.files == s.files && geoPool.index == s.geoIndex && s.failure.None?
    modifies disk, newsPool, geoPool
    ensures newsPool.Valid() && geoPool.Valid()
    ensures newsPool.index == Steps(start, |newsPool.keys|, t + 1)
    ensures var s := Run(p, geoPool.keys, geoStart, files, jobs[..t + 1]);
            && disk.files == s.files && geoPool.index == s.geoIndex && s.attempted == t + 1
            && (r.Err? <==> s.failure.Some?) && (r.Err? ==> r.error == s.failure.value)
  {
    RunLast(p, geoPool.keys, geoStart, files, jobs, t);
    var key := newsPool.GetKey();
    var headlines := fetch(category, key);
    assert jobs[t] == Job(CategoryPath(category), headlines);
    r := SaveToJson(disk, geoPool, p, CategoryPath(category), headlines);
  }

  /** `update_top_headline`'s inner loop for category number `i`: one save per country, stopping at the first exception. */
  method SaveCategory(disk: Disk, newsPool: KeyRing, geoPool: KeyRing, p: Pipeline, fetch: (string, string) -> Document,
                      i: nat, ghost jobs: seq<Job>, ghost start: nat, ghost geoStart: nat, ghost files: FileSystem)
    returns (r: Result<(), StoreError>, ghost stopped: nat)
    requires newsPool.Valid() && geoPool.Valid() && newsPool != geoPool
    requires i < |Categories| && start < |newsPool.keys| && geoStart < |geoPool.keys|
    requires jobs == TopJobs(fetch, newsPool.keys, start)
    requires newsPool.index == Steps(start, |newsPool.keys|, 7 * i)
    requires var s := Run(p, geoPool.keys, geoStart, files, jobs[..7 * i]);
             disk.files == s.files && geoPool.index == s.geoIndex && s.failure.None?
    modifies disk, newsPool, geoPool
    ensures newsPool.Valid() && geoPool.Valid()
    ensures r.Ok? ==> newsPool.index == Steps(start, |newsPool.keys|, 7 * i + 7)
    ensures r.Ok? ==> var s := Run(p, geoPool.keys, geoStart, files, jobs[..7 * i + 7]);
                      disk.files == s.files && geoPool.index == s.geoIndex && s.failure.None?
    ensures r.Err? ==> stopped <= |jobs|
    ensures r.Err? ==> var s := Run(p, geoPool.keys, geoStart, files, jobs[..stopped]);
                       && disk.files == s.files && geoPool.index == s.geoIndex
                       && newsPool.index == Steps(start, |newsPool.keys|, s.attempted)
                       && s.failure == Some(r.error)
  {
    stopped := 0;
    var category := Categories[i];
    ghost var t := 7 * i;
    var j := 0;
    while j < |Countries|
      invariant 0 <= j <= |Countries| && t == 7 * i + j && newsPool.Valid() && geoPool.Valid()
      invariant newsPool.index == Steps(start, |newsPool.keys|, t)
      invariant var s := Run(p, geoPool.keys, geoStart, files, jobs[..t]);
                disk.files == s.files && geoPool.index == s.geoIndex && s.failure.None?
    {
      TopJobInCategory(fetch, newsPool.keys, start, i, j);
      r := SavePair(disk, newsPool, geoPool, p, fetch, category, t, jobs, start, geoStart, files);
      if r.Err? {
        stopped := t + 1;
        return;
      }
      j := j + 1;
      t := t + 1;
    }
    assert t == 7 * i + 7;
    r := Ok(());
  }

  lemma TopJobInCategory(fetch: (string, string) -> Document, keys: seq<string>, start: nat, i: nat, j: nat)
    requires start < |keys| && i < |Categories| && j < |Countries|
    ensures 7 * i + j < PairCount
    ensures TopJobs(fetch, keys, start)[7 * i + j]
            == Job(CategoryPath(Categories[i]), fetch(Categories[i], keys[Steps(start, |keys|, 7 * i + j + 1)]))
  {
    assert (7 * i + j) / 7 == i;
  }

  /** `update_top_headline` with a news counter and a geocoder counter: a news key per pair, taken before the fetch. */
  method UpdateTopHeadline(disk: Disk, newsPool: KeyRing, geoPool: KeyRing, p: Pipeline, fetch: (string, string) -> Document)
    returns (r: Result<(), StoreError>)
    requires newsPool.Valid() && geoPool.Valid() && newsPool != geoPool
    modifies disk, newsPool, geoPool
    ensures newsPool.Valid() && geoPool.Valid()
    ensures var s := Run(p, geoPool.keys, old(geoPool.index), old(disk.files), TopJobs(fetch, newsPool.keys, old(newsPool.index)));
            && disk.files == s.files && geoPool.index == s.geoIndex
            && newsPool.index == Steps(old(newsPool.index), |newsPool.keys|, s.attempted)
            && (r.Err? <==> s.failure.Some?) && (r.Err? ==> r.error == s.failure.value)
  {
    ghost var start := newsPool.index;
    ghost var geoStart := geoPool.index;
    ghost var files := disk.files;
    ghost var jobs := TopJobs(fetch, newsPool.keys, start);
    assert jobs[..0] == [];
    var i := 0;
    while i < |Categories|
      invariant 0 <= i <= |Categories| && newsPool.Valid() && geoPool.Valid()
      invariant newsPool.index == Steps(start, |newsPool.keys|, 7 * i)
      invariant var s := Run(p, geoPool.keys, geoStart, files, jobs[..7 * i]);
                disk.files == s.files && geoPool.index == s.geoIndex && s.failure.None?
    {
      ghost var stopped;
      r, stopped := SaveCategory(disk, newsPool, geoPool, p, fetch, i, jobs, start, geoStart, files);
      if r.Err? {
        RunStopsAt(p, geoPool.keys, geoStart, files, jobs, stopped);
        return;
      }
      i := i + 1;
    }
    assert jobs[..7 * i] == jobs;
    r := Ok(());
  }
}
