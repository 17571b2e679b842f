/**
 * The article filters of routers/newsapi/filters.py: keep the records of a
 * category file (or of every category file) whose `publishedAt` falls in an
 * inclusive time window.
 */
module Filters {
  import opened Wrappers
  import opened Seqs
  import opened News
  import opened Text

  /** A parsed `datetime`: wall-clock microseconds and, when it is aware, its UTC offset. */
  datatype Stamp = Stamp(wall: int, offset: Option<int>)

  /** `datetime.fromisoformat`: `None` where it raises. */
  type IsoParser = string -> Option<Stamp>

  /** `timedelta(days=2)` in microseconds. */
  const TwoDays: int := 2 * 24 * 60 * 60 * 1000000

  /** `.replace(tzinfo=timezone.utc)`: keeps the wall clock and relabels the zone, it does not convert. */
  function AsUtc(s: Stamp): (r: Stamp)
    ensures r.offset == Some(0) && r.wall == s.wall
  {
    Stamp(s.wall, Some(0))
  }

  /** The UTC instant of an aware stamp. */
  function Instant(s: Stamp): int
    requires s.offset.Some?
  {
    s.wall - s.offset.value
  }

  /** A bound relabelled as UTC stands for its wall-clock reading, whatever offset the string carried. */
  lemma RelabelIgnoresOffset(s: Stamp, t: Stamp)
    requires s.wall == t.wall && s.offset != t.offset
    ensures Instant(AsUtc(s)) == Instant(AsUtc(t)) == s.wall
  {
  }

  /**
   * `datetime.fromisoformat(pub.replace("Z", "+00:00"))` for a non-empty
   * `publishedAt`; `None` for a missing, empty or unparseable one.
   */
  function Published(iso: IsoParser, a: Article): Option<Stamp> {
    match a.publishedAt
    case None => None
    case Some(s) => if s == "" then None else iso(ReplaceChar(s, 'Z', "+00:00"))
  }

  /** How one record fares against `lo <= pub <= hi`: comparing a naive stamp with an aware bound raises. */
  datatype Verdict = Skip | Keep | Clash

  function Judge(iso: IsoParser, a: Article, lo: int, hi: int): (v: Verdict)
    ensures Published(iso, a).None? ==> v == Skip
    ensures v == Keep <==> Published(iso, a).Some? && Published(iso, a).value.offset.Some?
                           && lo <= Instant(Published(iso, a).value) <= hi
    ensures v == Clash <==> Published(iso, a).Some? && Published(iso, a).value.offset.None?
  {
    match Published(iso, a)
    case None => Skip
    case Some(t) =>
      if t.offset.None? then Clash
      else if lo <= Instant(t) <= hi then Keep else Skip
  }

  datatype FilterError =
    | FileNotFound(path: string)
    | BadTimeFormat
    | Undecodable(path: string)
    | NaiveComparison

  /** The records kept by one `for news in data.get("articles", [])` loop, or the error it raises. */
  function Within(iso: IsoParser, articles: seq<Article>, lo: int, hi: int): (r: Result<seq<Article>, FilterError>)
    ensures r.Ok? ==> |r.value| <= |articles|
    ensures r.Err? ==> r.error == NaiveComparison
  {
    if articles == [] then Ok([])
    else
      match Within(iso, articles[..|articles| - 1], lo, hi)
      case Err(e) => Err(e)
      case Ok(kept) =>
        match Judge(iso, articles[|articles| - 1], lo, hi)
        case Skip => Ok(kept)
        case Keep => Ok(kept + [articles[|articles| - 1]])
        case Clash => Err(NaiveComparison)
  }

  /** A kept record is in the input with its stamp inside the window; every such record is kept; order is preserved. */
  lemma {:induction false} WithinSpec(iso: IsoParser, articles: seq<Article>, lo: int, hi: int)
    requires Within(iso, articles, lo, hi).Ok?
    ensures IsSubsequence(Within(iso, articles, lo, hi).value, articles)
    ensures forall a :: a in Within(iso, articles, lo, hi).value ==> Judge(iso, a, lo, hi) == Keep
    ensures forall a :: a in articles && Judge(iso, a, lo, hi) == Keep ==> a in Within(iso, articles, lo, hi).value
  {
    if articles != [] {
      var init, last := articles[..|articles| - 1], articles[|articles| - 1];
      WithinSpec(iso, init, lo, hi);
      assert articles == init + [last];
      var kept := Within(iso, init, lo, hi).value;
      if Judge(iso, last, lo, hi) == Keep {
        SubsequenceTake(kept, init, last);
      } else {
        SubsequenceSkip(kept, init, last);
      }
    }
  }

  /** The loop raises exactly when some record has a parseable but naive stamp. */
  lemma {:induction false} WithinFails(iso: IsoParser, articles: seq<Article>, lo: int, hi: int)
    ensures Within(iso, articles, lo, hi).Err? ==> Within(iso, articles, lo, hi) == Err(NaiveComparison)
    ensures Within(iso, articles, lo, hi).Err? ==> exists a :: a in articles && Judge(iso, a, lo, hi) == Clash
    ensures (exists a :: a in articles && Judge(iso, a, lo, hi) == Clash) ==> Within(iso, articles, lo, hi).Err?
  {
    if articles != [] {
      var init, last := articles[..|articles| - 1], articles[|articles| - 1];
      WithinFails(iso, init, lo, hi);
      assert articles == init + [last];
    }
  }

  lemma {:induction false} WithinErrSticks(iso: IsoParser, articles: seq<Article>, i: nat, lo: int, hi: int)
    requires i <= |articles| && Within(iso, articles[..i], lo, hi).Err?
    ensures Within(iso, articles, lo, hi) == Within(iso, articles[..i], lo, hi)
    decreases |articles| - i
  {
    if i < |articles| {
      assert articles[..i + 1][..i] == articles[..i];
      WithinErrSticks(iso, articles, i + 1, lo, hi);
    } else {
      assert articles[..i] == articles;
    }
  }

  /** The filtering loop: append what falls in `[lo, hi]`, skip what has no usable stamp, raise on a naive one. */
  method KeepWithin(iso: IsoParser, articles: seq<Article>, lo: int, hi: int)
    returns (r: Result<seq<Article>, FilterError>)
    ensures r == Within(iso, articles, lo, hi)
  {
    var filtered: seq<Article> := [];
    var i := 0;
    while i < |articles|
      invariant 0 <= i <= |articles|
      invariant Within(iso, articles[..i], lo, hi) == Ok(filtered)
    {
      assert articles[..i + 1][..i] == articles[..i];
      var news := articles[i];
      var pub := Published(iso, news);
      if pub.Some? {
        if pub.value.offset.None? {
          WithinErrSticks(iso, articles, i + 1, lo, hi);
          return Err(NaiveComparison);
        }
        var t := Instant(pub.value);
        if lo <= t && t <= hi {
          filtered := filtered + [news];
        }
      }
      i := i + 1;
    }
    assert articles[..i] == articles;
    r := Ok(filtered);
  }

  /** The `{"totalResults", "articles"}` reply of every filter. */
  datatype Listing = Listing(totalResults: int, articles: seq<Article>)

  function ListingOf(r: Result<seq<Article>, FilterError>): (l: Result<Listing, FilterError>)
    ensures l.Ok? <==> r.Ok?
    ensures l.Ok? ==> l.value.articles == r.value && l.value.totalResults == |l.value.articles|
    ensures l.Err? ==> l.error == r.error
  {
    match r
    case Ok(kept) => Ok(Listing(|kept|, kept))
    case Err(e) => Err(e)
  }

  /** `data.get("articles", [])` of a decoded file. */
  function ArticlesOf(doc: Document): seq<Article> {
    doc.articles.GetOr([])
  }

  /** What `filter_by_category` returns. */
  function CategoryListing(files: FileSystem, iso: IsoParser, now: int, category: string): (r: Result<Listing, FilterError>)
    ensures CategoryPath(category) !in files ==> r == Err(FileNotFound(CategoryPath(category)))
    ensures CategoryPath(category) in files && files[CategoryPath(category)].Garbled? ==>
              r == Err(Undecodable(CategoryPath(category)))
    ensures CategoryPath(category) in files && files[CategoryPath(category)].Json? ==>
              r == ListingOf(Within(iso, ArticlesOf(files[CategoryPath(category)].doc), now - TwoDays, now))
    ensures r.Ok? ==> r.value.totalResults == |r.value.articles|
  {
    var path := CategoryPath(category);
    if path !in files then Err(FileNotFound(path))
    else match files[path]
      case Garbled => Err(Undecodable(path))
      case Json(doc) => ListingOf(Within(iso, ArticlesOf(doc), now - TwoDays, now))
  }

  /** `filter_by_category`: the file's records published in the last two days before `now`, both ends inclusive. */
  method FilterByCategory(files: FileSystem, iso: IsoParser, now: int, category: string)
    returns (r: Result<Listing, FilterError>)
    ensures r == CategoryListing(files, iso, now, category)
  {
    var path := CategoryPath(category);
    if path !in files {
      return Err(FileNotFound(path));
    }
    var pastDay := now - TwoDays;
    if files[path].Garbled? {
      return Err(Undecodable(path));
    }
    var kept := KeepWithin(iso, ArticlesOf(files[path].doc), pastDay, now);
    r := ListingOf(kept);
  }

  /** Both bounds parsed and relabelled as UTC: their wall-clock readings. */
  function ParseBounds(iso: IsoParser, startText: string, endText: string): (r: Result<(int, int), FilterError>)
    ensures r.Err? <==> iso(startText).None? || iso(endText).None?
    ensures r.Err? ==> r.error == BadTimeFormat
    ensures r.Ok? ==> r.value == (iso(startText).value.wall, iso(endText).value.wall)
  {
    match (iso(startText), iso(endText))
    case (Some(s), Some(e)) => Ok((Instant(AsUtc(s)), Instant(AsUtc(e))))
    case _ => Err(BadTimeFormat)
  }

  /** What `filter_by_time` returns. */
  function TimeListing(files: FileSystem, iso: IsoParser, category: string, startText: string, endText: string)
    : (r: Result<Listing, FilterError>)
    ensures CategoryPath(category) !in files ==> r == Err(FileNotFound(CategoryPath(category)))
    ensures CategoryPath(category) in files && ParseBounds(iso, startText, endText).Err? ==> r == Err(BadTimeFormat)
    ensures CategoryPath(category) in files && ParseBounds(iso, startText, endText).Ok? ==>
              var (lo, hi) := ParseBounds(iso, startText, endText).value;
              r == match files[CategoryPath(category)]
                   case Garbled => Err(Undecodable(CategoryPath(category)))
                   case Json(doc) => ListingOf(Within(iso, ArticlesOf(doc), lo, hi))
    ensures r.Ok? ==> r.value.totalResults == |r.value.articles|
  {
    var path := CategoryPath(category);
    if path !in files then Err(FileNotFound(path))
    else match ParseBounds(iso, startText, endText)
      case Err(e) => Err(e)
      case Ok((lo, hi)) =>
        match files[path]
        case Garbled => Err(Undecodable(path))
        case Json(doc) => ListingOf(Within(iso, ArticlesOf(doc), lo, hi))
  }

  /** `filter_by_time`: the missing file is reported before a malformed bound. */
  method FilterByTime(files: FileSystem, iso: IsoParser, category: string, startText: string, endText: string)
    returns (r: Result<Listing, FilterError>)
    ensures r == TimeListing(files, iso, category, startText, endText)
  {
    var path := CategoryPath(category);
    if path !in files {
      return Err(FileNotFound(path));
    }
    var bounds := ParseBounds(iso, startText, endText);
    if bounds.Err? {
      return Err(BadTimeFormat);
    }
    var (lo, hi) := bounds.value;
    if files[path].Garbled? {
      return Err(Undecodable(path));
    }
    var kept := KeepWithin(iso, ArticlesOf(files[path].doc), lo, hi);
    r := ListingOf(kept);
  }

  /** The records of every existing category file in window, in `categories` order; missing files are skipped. */
  function AllWithin(files: FileSystem, iso: IsoParser, categories: seq<string>, lo: int, hi: int)
    : Result<seq<Article>, FilterError>
  {
    if categories == [] then Ok([])
    else
      var c := categories[|categories| - 1];
      match AllWithin(files, iso, categories[..|categories| - 1], lo, hi)
      case Err(e) => Err(e)
      case Ok(acc) =>
        if CategoryPath(c) !in files then Ok(acc)
        else match files[CategoryPath(c)]
          case Garbled => Err(Undecodable(CategoryPath(c)))
          case Json(doc) =>
            match Within(iso, ArticlesOf(doc), lo, hi)
            case Err(e) => Err(e)
            case Ok(kept) => Ok(acc + kept)
  }

  /** Every record returned comes, in window, from an existing category file; with no file at all the result is empty. */
  lemma {:induction false} AllWithinSpec(files: FileSystem, iso: IsoParser, categories: seq<string>, lo: int, hi: int)
    requires AllWithin(files, iso, categories, lo, hi).Ok?
    ensures forall a :: a in AllWithin(files, iso, categories, lo, hi).value ==>
              && Judge(iso, a, lo, hi) == Keep
              && exists c :: c in categories && CategoryPath(c) in files && files[CategoryPath(c)].Json?
                             && a in ArticlesOf(files[CategoryPath(c)].doc)
    ensures (forall c :: c in categories ==> CategoryPath(c) !in files) ==> AllWithin(files, iso, categories, lo, hi) == Ok([])
  {
    if categories != [] {
      var init, c := categories[..|categories| - 1], categories[|categories| - 1];
      AllWithinSpec(files, iso, init, lo, hi);
      assert categories == init + [c];
      if CategoryPath(c) in files && files[CategoryPath(c)].Json? {
        var doc := files[CategoryPath(c)].doc;
        WithinSpec(iso, ArticlesOf(doc), lo, hi);
        SubsequenceMembers(Within(iso, ArticlesOf(doc), lo, hi).value, ArticlesOf(doc));
      }
    }
  }

  lemma {:induction false} AllWithinErrSticks(files: FileSystem, iso: IsoParser, categories: seq<string>, i: nat, lo: int, hi: int)
    requires i <= |categories| && AllWithin(files, iso, categories[..i], lo, hi).Err?
    ensures AllWithin(files, iso, categories, lo, hi) == AllWithin(files, iso, categories[..i], lo, hi)
    decreases |categories| - i
  {
    if i < |categories| {
      assert categories[..i + 1][..i] == categories[..i];
      AllWithinErrSticks(files, iso, categories, i + 1, lo, hi);
    } else {
      assert categories[..i] == categories;
    }
  }

  /** The outer loop over `CATEGORIES`, extending one result list. */
  method CollectAllWithin(files: FileSystem, iso: IsoParser, lo: int, hi: int)
    returns (r: Result<seq<Article>, FilterError>)
    ensures r == AllWithin(files, iso, Categories, lo, hi)
  {
    var filtered: seq<Article> := [];
    var i := 0;
    while i < |Categories|
      invariant 0 <= i <= |Categories|
      invariant AllWithin(files, iso, Categories[..i], lo, hi) == Ok(filtered)
    {
      assert Categories[..i + 1][..i] == Categories[..i];
      var path := CategoryPath(Categories[i]);
      if path in files {
        if files[path].Garbled? {
          AllWithinErrSticks(files, iso, Categories, i + 1, lo, hi);
          return Err(Undecodable(path));
        }
        var kept := KeepWithin(iso, ArticlesOf(files[path].doc), lo, hi);
        if kept.Err? {
          AllWithinErrSticks(files, iso, Categories, i + 1, lo, hi);
          return kept;
        }
        filtered := filtered + kept.value;
      }
      i := i + 1;
    }
    assert Categories[..i] == Categories;
    r := Ok(filtered);
  }

  /** What `filter_all_by_time` returns. */
  function AllTimeListing(files: FileSystem, iso: IsoParser, startText: string, endText: string): (r: Result<Listing, FilterError>)
    ensures ParseBounds(iso, startText, endText).Err? ==> r == Err(BadTimeFormat)
    ensures ParseBounds(iso, startText, endText).Ok? ==>
              var (lo, hi) := ParseBounds(iso, startText, endText).value;
              r == ListingOf(AllWithin(files, iso, Categories, lo, hi))
    ensures r.Ok? ==> r.value.totalResults == |r.value.articles|
  {
    match ParseBounds(iso, startText, endText)
    case Err(e) => Err(e)
    case Ok((lo, hi)) => ListingOf(AllWithin(files, iso, Categories, lo, hi))
  }

  /** `filter_all_by_time`: malformed bounds first, then every category file in order. */
  method FilterAllByTime(files: FileSystem, iso: IsoParser, startText: string, endText: string)
    returns (r: Result<Listing, FilterError>)
    ensures r == AllTimeListing(files, iso, startText, endText)
  {
    var bounds := ParseBounds(iso, startText, endText);
    if bounds.Err? {
      return Err(BadTimeFormat);
    }
    var (lo, hi) := bounds.value;
    var all := CollectAllWithin(files, iso, lo, hi);
    r := ListingOf(all);
  }

  /** `get_everything_by_source`: the source file's document as stored. */
  function GetEverythingBySource(files: FileSystem, source: string): (r: Result<Document, FilterError>)
    ensures r.Ok? <==> SourcePath(source) in files && files[SourcePath(source)].Json?
    ensures r.Ok? ==> r.value == files[SourcePath(source)].doc
    ensures SourcePath(source) !in files ==> r == Err(FileNotFound(SourcePath(source)))
  {
    var path := SourcePath(source);
    if path !in files then Err(FileNotFound(path))
    else match files[path]
      case Garbled => Err(Undecodable(path))
      case Json(doc) => Ok(doc)
  }
}
