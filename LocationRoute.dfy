/**
 * The `/articles/with-location` handler of routers/newsapi/location.py:
 * pick a filter from the query, turn its failure into status 400, then run
 * its own enrichment loop, which geocodes with one fixed key, consults no
 * override table and lets a failed request escape as status 500.
 */
module LocationRoute {
  import opened Wrappers
  import opened Seqs
  import opened News
  import opened Gazetteer
  import opened Geocoder
  import opened Enrichment
  import opened Filters
  import opened Text

  /** `location_mapping`: the aliases folded into one canonical name. */
  const LocationMapping: map<string, string> := map[
    "Donald Trump" := "United States",
    "U.S." := "United States",
    "U.S" := "United States",
    "USA" := "United States",
    "United States" := "United States",
    "美国" := "United States",
    "European" := "Europe"]

  const UnitedStatesAliases: seq<string> := ["U.S.", "U.S", "USA", "United States", "Donald Trump", "美国"]

  /** The six spellings of the United States name one place. */
  lemma UnitedStatesAliasesFold()
    ensures forall s :: s in UnitedStatesAliases ==> Lookup(LocationMapping, s) == "United States"
    ensures Lookup(LocationMapping, "European") == "Europe"
  {
  }

  /** However many of those spellings an article mentions, "United States" is geocoded at most once for it. */
  lemma UnitedStatesOnce(ents: seq<Entity>, i: nat, j: nat)
    requires i < j < |CanonicalNames(LocationMapping, ents)|
    ensures CanonicalNames(LocationMapping, ents)[i] != "United States" || CanonicalNames(LocationMapping, ents)[j] != "United States"
  {
    CanonicalNamesBound(LocationMapping, ents);
  }

  /** The query string: each parameter absent or given. */
  datatype Query = Query(category: Option<string>, startTime: Option<string>, endTime: Option<string>)

  /** Python truthiness of an optional string: present and non-empty. */
  predicate Truthy(o: Option<string>) {
    o.Some? && o.value != ""
  }

  datatype Route = ByTime | ByCategory | AllByTime | Insufficient

  /** The `if`/`elif` chain that picks a filter. */
  function Dispatch(q: Query): (r: Route)
    ensures r == ByTime <==> Truthy(q.category) && Truthy(q.startTime) && Truthy(q.endTime)
    ensures r == ByCategory <==> Truthy(q.category) && !(Truthy(q.startTime) && Truthy(q.endTime))
    ensures r == AllByTime <==> !Truthy(q.category) && Truthy(q.startTime) && Truthy(q.endTime)
    ensures r == Insufficient <==> !Truthy(q.category) && !(Truthy(q.startTime) && Truthy(q.endTime))
  {
    if Truthy(q.category) && Truthy(q.startTime) && Truthy(q.endTime) then ByTime
    else if Truthy(q.category) then ByCategory
    else if Truthy(q.startTime) && Truthy(q.endTime) then AllByTime
    else Insufficient
  }

  /** A category with a single bound is filtered by the two-day window; the lone bound is ignored. */
  lemma LoneBoundIgnored(c: string, bound: string)
    requires c != ""
    ensures Dispatch(Query(Some(c), Some(bound), None)) == ByCategory
    ensures Dispatch(Query(Some(c), None, Some(bound))) == ByCategory
    ensures Dispatch(Query(Some(c), Some(""), Some(bound))) == ByCategory
  {
  }

  /** Why the handler answers with an error. */
  datatype Cause = FilterFailed(error: FilterError) | MissingParameters | GeocodeFailed(fault: GeocodeFault)

  datatype RouteReply = Found(listing: Listing) | Refused(code: nat, cause: Cause)

  /** What the chosen filter of routers/newsapi/filters.py returns. */
  function Selected(files: FileSystem, iso: IsoParser, now: int, q: Query): (r: Option<Result<Listing, FilterError>>)
    ensures r.None? <==> Dispatch(q) == Insufficient
  {
    match Dispatch(q)
    case Insufficient => None
    case ByCategory => Some(CategoryListing(files, iso, now, q.category.value))
    case ByTime => Some(TimeListing(files, iso, q.category.value, q.startTime.value, q.endTime.value))
    case AllByTime => Some(AllTimeListing(files, iso, q.startTime.value, q.endTime.value))
  }

  /** `geocode_location` per name, in order; the first failure escapes. */
  function RouteGeocode(respond: Responder, key: string, names: seq<string>): (r: Result<seq<Option<Coords>>, GeocodeFault>)
    ensures r.Ok? ==> |r.value| == |names|
  {
    if names == [] then Ok([])
    else
      match RouteGeocode(respond, key, names[..|names| - 1])
      case Err(e) => Err(e)
      case Ok(results) =>
        match GeocodeUnguarded(respond(names[|names| - 1], key))
        case Err(e) => Err(e)
        case Ok(c) => Ok(results + [c])
  }

  /** One article of the handler's loop: `Ok(None)` when skipped or without coordinates. */
  function RouteEnrichArticle(recognize: Recognizer, respond: Responder, key: string, a: Article)
    : Result<Option<Article>, GeocodeFault>
  {
    var text := CombinedText(a);
    if text == [] then Ok(None)
    else
      var names := CanonicalNames(LocationMapping, recognize(text));
      match RouteGeocode(respond, key, names)
      case Err(e) => Err(e)
      case Ok(results) =>
        var infos := Attach(names, results);
        if infos == [] then Ok(None) else Ok(Some(a.(location := Some(infos))))
  }

  /** The handler's loop over the filtered articles. */
  function RouteEnrich(recognize: Recognizer, respond: Responder, key: string, articles: seq<Article>)
    : (r: Result<seq<Article>, GeocodeFault>)
    ensures r.Ok? ==> |r.value| <= |articles|
  {
    if articles == [] then Ok([])
    else
      match RouteEnrich(recognize, respond, key, articles[..|articles| - 1])
      case Err(e) => Err(e)
      case Ok(kept) =>
        match RouteEnrichArticle(recognize, respond, key, articles[|articles| - 1])
        case Err(e) => Err(e)
        case Ok(one) => Ok(if one.Some? then kept + [one.value] else kept)
  }

  /** The shared pipeline with this handler's tables: the alias table, no overrides, a single key. */
  function RoutePipeline(recognize: Recognizer, respond: Responder): Pipeline {
    Pipeline(Gazetteer(LocationMapping, [], map[]), recognize, respond)
  }

  /** When no request escapes, geocoding by name equals the shared pipeline's with a one-key pool. */
  lemma {:induction false} RouteGeocodeIsShared(respond: Responder, key: string, names: seq<string>)
    requires RouteGeocode(respond, key, names).Ok?
    ensures GeocodeResults(map[], respond, [key], 0, names) == (RouteGeocode(respond, key, names).value, 0)
  {
    if names != [] {
      RouteGeocodeIsShared(respond, key, names[..|names| - 1]);
    }
  }

  /** When no request escapes, the handler's loop keeps exactly what the shared pipeline keeps. */
  lemma {:induction false} RouteEnrichIsShared(recognize: Recognizer, respond: Responder, key: string, articles: seq<Article>)
    requires RouteEnrich(recognize, respond, key, articles).Ok?
    ensures Enrich(RoutePipeline(recognize, respond), [key], 0, articles) == (RouteEnrich(recognize, respond, key, articles).value, 0)
  {
    if articles != [] {
      var init := articles[..|articles| - 1];
      RouteEnrichIsShared(recognize, respond, key, init);
      var a := articles[|articles| - 1];
      var text := CombinedText(a);
      if text != [] {
        RouteGeocodeIsShared(respond, key, CanonicalNames(LocationMapping, recognize(text)));
      }
    }
  }

  /** The handler's output: input order kept, every article located with names from its own text. */
  lemma RouteEnrichKeepsOrder(recognize: Recognizer, respond: Responder, key: string, articles: seq<Article>)
    requires RouteEnrich(recognize, respond, key, articles).Ok?
    ensures var kept := RouteEnrich(recognize, respond, key, articles).value;
            && IsSubsequence(UnlocatedAll(kept), UnlocatedAll(articles))
            && forall a :: a in kept ==> Located(RoutePipeline(recognize, respond), a)
  {
    RouteEnrichIsShared(recognize, respond, key, articles);
    EnrichKeepsOrder(RoutePipeline(recognize, respond), [key], 0, articles);
  }

  lemma {:induction false} RouteGeocodeErrSticks(respond: Responder, key: string, names: seq<string>, i: nat)
    requires i <= |names| && RouteGeocode(respond, key, names[..i]).Err?
    ensures RouteGeocode(respond, key, names) == RouteGeocode(respond, key, names[..i])
    decreases |names| - i
  {
    if i < |names| {
      assert names[..i + 1][..i] == names[..i];
      RouteGeocodeErrSticks(respond, key, names, i + 1);
    } else {
      assert names[..i] == names;
    }
  }

  lemma {:induction false} RouteEnrichErrSticks(recognize: Recognizer, respond: Responder, key: string, articles: seq<Article>, i: nat)
    requires i <= |articles| && RouteEnrich(recognize, respond, key, articles[..i]).Err?
    ensures RouteEnrich(recognize, respond, key, articles) == RouteEnrich(recognize, respond, key, articles[..i])
    decreases |articles| - i
  {
    if i < |articles| {
      assert articles[..i + 1][..i] == articles[..i];
      RouteEnrichErrSticks(recognize, respond, key, articles, i + 1);
    } else {
      assert articles[..i] == articles;
    }
  }

  /** The inner loop over one article's names. */
  method GeocodeNames(respond: Responder, key: string, names: seq<string>) returns (r: Result<seq<LocationInfo>, GeocodeFault>)
    ensures RouteGeocode(respond, key, names).Err? ==> r == Err(RouteGeocode(respond, key, names).error)
    ensures RouteGeocode(respond, key, names).Ok? ==> r == Ok(Attach(names, RouteGeocode(respond, key, names).value))
  {
    var infos: seq<LocationInfo> := [];
    var k := 0;
    while k < |names|
      invariant 0 <= k <= |names|
      invariant RouteGeocode(respond, key, names[..k]).Ok?
      invariant infos == Attach(names[..k], RouteGeocode(respond, key, names[..k]).value)
    {
      assert names[..k + 1][..k] == names[..k];
      var coords := GeocodeUnguarded(respond(names[k], key));
      if coords.Err? {
        RouteGeocodeErrSticks(respond, key, names, k + 1);
        return Err(coords.error);
      }
      if coords.value.Some? {
        infos := infos + [LocationInfo(names[k], coords.value.value.lat, coords.value.value.lng)];
      }
      k := k + 1;
    }
    assert names[..k] == names;
    r := Ok(infos);
  }

  /** One article of the handler's loop: skip blank text, geocode its names, keep it when some resolve. */
  method EnrichOne(recognize: Recognizer, respond: Responder, key: string, article: Article)
    returns (r: Result<Option<Article>, GeocodeFault>)
    ensures r == RouteEnrichArticle(recognize, respond, key, article)
  {
    var combined := CombinedText(article);
    if combined == [] {
      return Ok(None);
    }
    var names := CanonicalNames(LocationMapping, recognize(combined));
    var infos := GeocodeNames(respond, key, names);
    if infos.Err? {
      return Err(infos.error);
    }
    if infos.value == [] {
      return Ok(None);
    }
    r := Ok(Some(article.(location := Some(infos.value))));
  }

  /** The outer loop: `articles_with_location`, built article by article. */
  method EnrichFiltered(recognize: Recognizer, respond: Responder, key: string, articles: seq<Article>)
    returns (r: Result<seq<Article>, GeocodeFault>)
    ensures r == RouteEnrich(recognize, respond, key, articles)
  {
    var withLocation: seq<Article> := [];
    var i := 0;
    while i < |articles|
      invariant 0 <= i <= |articles|
      invariant RouteEnrich(recognize, respond, key, articles[..i]) == Ok(withLocation)
    {
      assert articles[..i + 1][..i] == articles[..i];
      var one := EnrichOne(recognize, respond, key, articles[i]);
      if one.Err? {
        RouteEnrichErrSticks(recognize, respond, key, articles, i + 1);
        return Err(one.error);
      }
      if one.value.Some? {
        withLocation := withLocation + [one.value.value];
      }
      i := i + 1;
    }
    assert articles[..i] == articles;
    r := Ok(withLocation);
  }

  /** The whole handler, as a function of the stored files, the clock and the services. */
  function Handle(files: FileSystem, iso: IsoParser, now: int, recognize: Recognizer, respond: Responder, key: string, q: Query)
    : (reply: RouteReply)
    ensures reply.Refused? ==> reply.code == 400 || reply.code == 500
    ensures reply.Found? ==> reply.listing.totalResults == |reply.listing.articles|
  {
    match Selected(files, iso, now, q)
    case None => Refused(400, MissingParameters)
    case Some(Err(e)) => Refused(400, FilterFailed(e))
    case Some(Ok(data)) =>
      match RouteEnrich(recognize, respond, key, data.articles)
      case Err(fault) => Refused(500, GeocodeFailed(fault))
      case Ok(kept) => Found(Listing(|kept|, kept))
  }

  /** Every filter failure is a 400, a geocoding failure a 500, and a listing counts its own articles. */
  lemma HandleStatuses(files: FileSystem, iso: IsoParser, now: int, recognize: Recognizer, respond: Responder, key: string, q: Query)
    ensures var reply := Handle(files, iso, now, recognize, respond, key, q);
            && (Dispatch(q) == Insufficient ==> reply == Refused(400, MissingParameters))
            && (reply.Refused? && reply.cause.FilterFailed? ==> reply.code == 400)
            && (reply.Refused? && reply.code == 500 ==> reply.cause.GeocodeFailed?)
            && (reply.Found? ==> reply.listing.totalResults == |reply.listing.articles|)
            && (Selected(files, iso, now, q).Some? && Selected(files, iso, now, q).value.Err? ==>
                  reply == Refused(400, FilterFailed(Selected(files, iso, now, q).value.error)))
  {
  }

  /** `get_articles_with_location`: `now` is the clock reading the category filter takes. */
  method GetArticlesWithLocation(files: FileSystem, iso: IsoParser, now: int, recognize: Recognizer, respond: Responder,
                                 key: string, q: Query)
    returns (reply: RouteReply)
    ensures reply == Handle(files, iso, now, recognize, respond, key, q)
  {
    var data: Result<Listing, FilterError>;
    if Truthy(q.category) && Truthy(q.startTime) && Truthy(q.endTime) {
      data := Filters.FilterByTime(files, iso, q.category.value, q.startTime.value, q.endTime.value);
    } else if Truthy(q.category) {
      data := Filters.FilterByCategory(files, iso, now, q.category.value);
    } else if Truthy(q.startTime) && Truthy(q.endTime) {
      data := Filters.FilterAllByTime(files, iso, q.startTime.value, q.endTime.value);
    } else {
      return Refused(400, MissingParameters);
    }
    if data.Err? {
      return Refused(400, FilterFailed(data.error));
    }
    var kept := EnrichFiltered(recognize, respond, key, data.value.articles);
    if kept.Err? {
      return Refused(500, GeocodeFailed(kept.error));
    }
    reply := Found(Listing(|kept.value|, kept.value));
  }
}
