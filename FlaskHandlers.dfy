/**
 * The Flask application of func.py: its own key counter and overwriting
 * saver, the update jobs, and the three filtering handlers, which map
 * failures to HTTP statuses rather than raising.
 */
module FlaskHandlers {
  import opened Wrappers
  import opened News
  import opened KeyRotation
  import opened Filters

  /** A handler's reply: a listing, a stored document, or an error status with its message. */
  datatype Reply = Listed(listing: Listing) | Stored(doc: Document) | Failure(code: nat, error: string)

  const NotFound := Failure(404, "Data not found")
  const BadTime := Failure(400, "输入时间格式错误")
  /** What Flask answers for an exception the handler does not catch. */
  const Uncaught := Failure(500, "Internal Server Error")

  /** The news client: (category or source, API key) to the response document. */
  type Fetcher = (string, string) -> Document

  /** A filter loop's outcome as a reply: a naive `publishedAt` raises past the handler. */
  function ReplyOf(r: Result<seq<Article>, FilterError>): (reply: Reply)
    ensures r.Ok? ==> reply == Listed(Listing(|r.value|, r.value))
    ensures r.Err? ==> reply == Uncaught
  {
    match r
    case Ok(kept) => Listed(Listing(|kept|, kept))
    case Err(_) => Uncaught
  }

  /** `filter_by_category`: 404 for a missing file, else the last two days up to `now`, inclusive. */
  method FilterByCategory(files: FileSystem, iso: IsoParser, now: int, category: string) returns (reply: Reply)
    ensures CategoryPath(category) !in files ==> reply == NotFound
    ensures CategoryPath(category) in files ==>
              reply == match files[CategoryPath(category)]
                       case Garbled => Uncaught
                       case Json(doc) => ReplyOf(Within(iso, ArticlesOf(doc), now - TwoDays, now))
    ensures reply.Listed? ==> reply.listing.totalResults == |reply.listing.articles|
  {
    var path := CategoryPath(category);
    if path !in files {
      return NotFound;
    }
    if files[path].Garbled? {
      return Uncaught;
    }
    var pastDay := now - TwoDays;
    var kept := KeepWithin(iso, ArticlesOf(files[path].doc), pastDay, now);
    reply := ReplyOf(kept);
  }

  /** A query argument parsed and relabelled as UTC; an absent argument fails to parse like a malformed one. */
  function ParseArg(iso: IsoParser, arg: Option<string>): (r: Option<int>)
    ensures r.Some? <==> arg.Some? && iso(arg.value).Some?
    ensures r.Some? ==> r.value == iso(arg.value).value.wall
  {
    match arg
    case None => None
    case Some(text) => match iso(text) case None => None case Some(s) => Some(Instant(AsUtc(s)))
  }

  /** `filter_by_time`: a malformed bound is reported (400) before a missing file (404). */
  method FilterByTime(files: FileSystem, iso: IsoParser, category: string, startArg: Option<string>, endArg: Option<string>)
    returns (reply: Reply)
    ensures ParseArg(iso, startArg).None? || ParseArg(iso, endArg).None? ==> reply == BadTime
    ensures ParseArg(iso, startArg).Some? && ParseArg(iso, endArg).Some? ==>
              reply == if CategoryPath(category) !in files then NotFound
                       else match files[CategoryPath(category)]
                         case Garbled => Uncaught
                         case Json(doc) =>
                           ReplyOf(Within(iso, ArticlesOf(doc), ParseArg(iso, startArg).value, ParseArg(iso, endArg).value))
    ensures reply.Listed? ==> reply.listing.totalResults == |reply.listing.articles|
  {
    var lo := ParseArg(iso, startArg);
    var hi := ParseArg(iso, endArg);
    if lo.None? || hi.None? {
      return BadTime;
    }
    var path := CategoryPath(category);
    if path !in files {
      return NotFound;
    }
    if files[path].Garbled? {
      return Uncaught;
    }
    var kept := KeepWithin(iso, ArticlesOf(files[path].doc), lo.value, hi.value);
    reply := ReplyOf(kept);
  }

  /** `filter_all_by_time`: 400 for a malformed bound, else every existing category file, in order. */
  method FilterAllByTime(files: FileSystem, iso: IsoParser, startArg: Option<string>, endArg: Option<string>)
    returns (reply: Reply)
    ensures ParseArg(iso, startArg).None? || ParseArg(iso, endArg).None? ==> reply == BadTime
    ensures ParseArg(iso, startArg).Some? && ParseArg(iso, endArg).Some? ==>
              reply == ReplyOf(AllWithin(files, iso, Categories, ParseArg(iso, startArg).value, ParseArg(iso, endArg).value))
    ensures reply.Listed? ==> reply.listing.totalResults == |reply.listing.articles|
  {
    var lo := ParseArg(iso, startArg);
    var hi := ParseArg(iso, endArg);
    if lo.None? || hi.None? {
      return BadTime;
    }
    var all := CollectAllWithin(files, iso, lo.value, hi.value);
    reply := ReplyOf(all);
  }

  /** `get_everything`: the stored source document, or 404. */
  function GetEverything(files: FileSystem, source: string): (reply: Reply)
    ensures SourcePath(source) !in files ==> reply == NotFound
    ensures reply.Stored? <==> SourcePath(source) in files && files[SourcePath(source)].Json?
    ensures reply.Stored? ==> reply.doc == files[SourcePath(source)].doc
  {
    var path := SourcePath(source);
    if path !in files then NotFound
    else match files[path]
      case Garbled => Uncaught
      case Json(doc) => Stored(doc)
  }

  lemma CategoryPathInjective(a: string, b: string)
    requires CategoryPath(a) == CategoryPath(b)
    ensures a == b
  {
    var n := |CategoryDir|;
    assert a == CategoryPath(a)[n..n + |a|];
    assert b == CategoryPath(b)[n..n + |b|];
  }

  lemma CategoryPathsDistinct(i: nat, j: nat)
    requires i < j < |Categories|
    ensures CategoryPath(Categories[i]) != CategoryPath(Categories[j])
  {
    if CategoryPath(Categories[i]) == CategoryPath(Categories[j]) {
      CategoryPathInjective(Categories[i], Categories[j]);
    }
  }

  function CategoryPaths(): set<string> {
    set c | c in Categories :: CategoryPath(c)
  }

  /**
   * One category's pass of `update_top_headline`: a key per country, and
   * each save overwrites the category file, so afterwards it holds the
   * response fetched with the last country's key.
   */
  method RefreshCategory(disk: Disk, pool: KeyRing, fetch: Fetcher, category: string)
    requires pool.Valid()
    modifies disk, pool
    ensures pool.Valid() && pool.index == Steps(old(pool.index), |pool.keys|, 7)
    ensures disk.files == old(disk.files)[CategoryPath(category) := Json(fetch(category, pool.keys[pool.index]))]
  {
    ghost var start := pool.index;
    var j := 0;
    while j < |Countries|
      invariant 0 <= j <= |Countries| && pool.Valid()
      invariant pool.index == Steps(start, |pool.keys|, j)
      invariant j == 0 ==> disk.files == old(disk.files)
      invariant j > 0 ==> disk.files == old(disk.files)[CategoryPath(category) := Json(fetch(category, pool.keys[pool.index]))]
    {
      var key := pool.GetKey();
      var headlines := fetch(category, key);
      disk.Write(CategoryPath(category), headlines);
      j := j + 1;
    }
  }

  lemma {:induction false} StepsAdd(index: nat, size: nat, a: nat, b: nat)
    requires index < size
    ensures Steps(Steps(index, size, a), size, b) == Steps(index, size, a + b)
  {
    if b > 0 {
      StepsAdd(index, size, a, b - 1);
    }
  }

  /** The first `n` category files hold the response fetched with their last country's key. */
  ghost predicate Refreshed(files: FileSystem, fetch: Fetcher, keys: seq<string>, start: nat, n: nat)
    requires start < |keys|
  {
    forall c :: 0 <= c < n && c < |Categories| ==>
      && CategoryPath(Categories[c]) in files
      && files[CategoryPath(Categories[c])] == Json(fetch(Categories[c], keys[Steps(start, |keys|, 7 * c + 7)]))
  }

  /** Rewriting category `i`'s file extends `Refreshed` to `i + 1` and touches no other path. */
  lemma RefreshedStep(orig: FileSystem, files: FileSystem, fetch: Fetcher, keys: seq<string>, start: nat, i: nat)
    requires start < |keys| && i < |Categories|
    requires Refreshed(files, fetch, keys, start, i) && SameOutside(orig, files, CategoryPaths())
    ensures var files' := files[CategoryPath(Categories[i]) := Json(fetch(Categories[i], keys[Steps(start, |keys|, 7 * i + 7)]))];
            Refreshed(files', fetch, keys, start, i + 1) && SameOutside(orig, files', CategoryPaths())
  {
    forall c | 0 <= c < i ensures CategoryPath(Categories[c]) != CategoryPath(Categories[i]) {
      CategoryPathsDistinct(c, i);
    }
    assert CategoryPath(Categories[i]) in CategoryPaths();
  }

  /**
   * `update_top_headline`: every category in turn, each file ending with
   * the response fetched with the key of that category's last country
   * (seven countries, so 49 keys in all).
   */
  method UpdateTopHeadline(disk: Disk, pool: KeyRing, fetch: Fetcher)
    requires pool.Valid()
    modifies disk, pool
    ensures pool.Valid()
    ensures pool.index == Steps(old(pool.index), |pool.keys|, 49)
    ensures forall i :: 0 <= i < |Categories| ==>
              && CategoryPath(Categories[i]) in disk.files
              && disk.files[CategoryPath(Categories[i])]
                 == Json(fetch(Categories[i], pool.keys[Steps(old(pool.index), |pool.keys|, 7 * i + 7)]))
    ensures SameOutside(old(disk.files), disk.files, CategoryPaths())
  {
    ghost var start := pool.index;
    ghost var orig := disk.files;
    var i := 0;
    while i < |Categories|
      invariant 0 <= i <= |Categories| && pool.Valid()
      invariant pool.index == Steps(start, |pool.keys|, 7 * i)
      invariant Refreshed(disk.files, fetch, pool.keys, start, i)
      invariant SameOutside(orig, disk.files, CategoryPaths())
    {
      RefreshNext(disk, pool, fetch, i, start, orig);
      i := i + 1;
    }
    assert 7 * i == 49;
  }

  /** One pass of `update_top_headline`'s outer loop, stated over the categories done so far. */
  method RefreshNext(disk: Disk, pool: KeyRing, fetch: Fetcher, i: nat, ghost start: nat, ghost orig: FileSystem)
    requires pool.Valid() && i < |Categories| && start < |pool.keys|
    requires pool.index == Steps(start, |pool.keys|, 7 * i)
    requires Refreshed(disk.files, fetch, pool.keys, start, i)
    requires SameOutside(orig, disk.files, CategoryPaths())
    modifies disk, pool
    ensures pool.Valid() && pool.index == Steps(start, |pool.keys|, 7 * i + 7)
    ensures Refreshed(disk.files, fetch, pool.keys, start, i + 1)
    ensures SameOutside(orig, disk.files, CategoryPaths())
  {
    ghost var before := disk.files;
    RefreshCategory(disk, pool, fetch, Categories[i]);
    StepsAdd(start, |pool.keys|, 7 * i, 7);
    RefreshedStep(orig, before, fetch, pool.keys, start, i);
  }

  function SourcePaths(): set<string> {
    set s | s in Sources :: SourcePath(s)
  }

  lemma SourcePathInjective(a: string, b: string)
    requires SourcePath(a) == SourcePath(b)
    ensures a == b
  {
    var n := |EverythingDir|;
    assert a == SourcePath(a)[n..n + |a|];
    assert b == SourcePath(b)[n..n + |b|];
  }

  /** The first `n` source files hold the response fetched for that source with `key`. */
  ghost predicate Written(files: FileSystem, fetch: Fetcher, key: string, n: nat) {
    forall k :: 0 <= k < n && k < |Sources| ==>
      SourcePath(Sources[k]) in files && files[SourcePath(Sources[k])] == Json(fetch(Sources[k], key))
  }

  /** Writing source `i`'s file extends `Written` to `i + 1` and touches no other path. */
  lemma WrittenStep(orig: FileSystem, files: FileSystem, fetch: Fetcher, key: string, i: nat)
    requires i < |Sources|
    requires Written(files, fetch, key, i) && SameOutside(orig, files, SourcePaths())
    ensures var files' := files[SourcePath(Sources[i]) := Json(fetch(Sources[i], key))];
            Written(files', fetch, key, i + 1) && SameOutside(orig, files', SourcePaths())
  {
    forall k | 0 <= k < i ensures SourcePath(Sources[k]) != SourcePath(Sources[i]) {
      if SourcePath(Sources[k]) == SourcePath(Sources[i]) {
        SourcePathInjective(Sources[k], Sources[i]);
      }
    }
    assert SourcePath(Sources[i]) in SourcePaths();
  }

  /** `update_everything`: one key for every source, each source file overwritten with its response. */
  method UpdateEverything(disk: Disk, pool: KeyRing, fetch: Fetcher)
    requires pool.Valid()
    modifies disk, pool
    ensures pool.Valid() && pool.index == Next(old(pool.index), |pool.keys|)
    ensures forall s :: s in Sources ==>
              SourcePath(s) in disk.files && disk.files[SourcePath(s)] == Json(fetch(s, pool.keys[pool.index]))
    ensures SameOutside(old(disk.files), disk.files, SourcePaths())
  {
    var key := pool.GetKey();
    ghost var orig := disk.files;
    var i := 0;
    while i < |Sources|
      modifies disk
      invariant 0 <= i <= |Sources|
      invariant Written(disk.files, fetch, key, i)
      invariant SameOutside(orig, disk.files, SourcePaths())
    {
      WrittenStep(orig, disk.files, fetch, key, i);
      disk.Write(SourcePath(Sources[i]), fetch(Sources[i], key));
      i := i + 1;
    }
  }
}
