# News location enrichment, modelled in Dafny

This project models the core of a news back end:

- It pulls top headlines and per-source articles from a news API on a schedule.
- It enriches each article with the places it mentions. Place names come from GPE/NORP entity spans, are normalised through an alias table and are geocoded with a rotating pool of access keys.
- It stores the results as JSON files.
- It serves them through Flask and FastAPI handlers: time-window filters, a location endpoint, a per-country bar chart, a GeoJSON map export and a category listing.

The model covers these parts of the source:

- the round-robin key counter (`get_key`) shared by four files;
- alias lookup and fuzzy normalisation (`smart_map_location`);
- the guarded geocoder (`geocode_location`, both the synchronous and the `asyncio` version);
- article enrichment (`add_location_info`, both versions);
- the JSON filters of `routers/newsapi/filters.py`;
- the Flask application of `func.py`;
- the append-only store of `routers/newsapi/api.py`;
- the `/articles/with-location` handler;
- the chart counting and sorting of `routers/newsapi/charts.py`;
- GeoJSON conversion and request validation of `routers/geoserver/exportMap.py`, following RFC 7946 sections 3.1.1, 3.2 and 3.3;
- the category listing of `routers/newsapi/test_data.py`.

Foreign components become function-typed parameters ("oracles"):

- the entity recogniser;
- the fuzzy scorer;
- the geocoding service;
- `datetime.fromisoformat`;
- the news API client;
- point-in-polygon tests on the country shapes;
- folium;
- the headless browser;
- `os.listdir`;
- `str()` of an arbitrary JSON value.

The data directory is a map from path to content. A file holds either a decoded document or text `json.load` rejects.

State that the source changes in place is modelled as classes:

- `KeyRotation.KeyRing` is a key counter.
- `News.Disk` is the data directory as the savers write it.

Loops become methods with loop invariants. Each method is proved equal to a recursive specification function, and the properties are lemmas about those functions.

Modules:

- `Wrappers`, `Seqs`: `Option`/`Result` and sequence facts.
- `News`: articles, documents, files, the category, country and source constants.
- `Text`: f-string rendering, `str.strip`, `str.replace`.
- `KeyRotation`: `get_key`.
- `Gazetteer`, `Normalizer`: the lookup tables and `smart_map_location`.
- `Geocoder`: `geocode_location`.
- `Enrichment`: `add_location_info`.
- `Filters`: `routers/newsapi/filters.py`.
- `FlaskHandlers`: `func.py`.
- `Store`: `routers/newsapi/api.py`.
- `LocationRoute`: `routers/newsapi/location.py`.
- `Charts`: `routers/newsapi/charts.py`.
- `ExportMap`: `routers/geoserver/exportMap.py`.
- `TestData`: `routers/newsapi/test_data.py`.

Where the code and its written description differ, the model follows the code:

- An article whose `title` and `description` are JSON `null` is not blank. The f-string renders it as `"None None"`, so it is enriched (`Text.NullFieldsAreNotBlank`).
- `filter_by_time` in `routers/newsapi/filters.py` reports a missing file before a malformed bound. The Flask `filter_by_time` in `func.py` does the opposite: 400 before 404.
- `update_top_headline` iterates over the countries but never passes the country to the request. Each category file is therefore fetched seven times with seven successive keys:
  - the Flask version keeps only the last response;
  - the FastAPI store appends every response.
- In `get_test_data` the 404 raised for a missing category is caught by the handler's own `except Exception`. The client sees a 500.
- The `/articles/with-location` handler catches filter errors, including the `TypeError` of comparing a naive `publishedAt` with an aware bound, and answers 400.

## Model

| member | source | states |
|---|---|---|
| KeyRotation.StartIndex | routers/newsapi/api.py:29-31 | the seed lies inside the pool; an empty pool (no configured keys) makes loading fail |
| KeyRotation.KeyRing.constructor | utils/utiles.py:21-22 | the counter starts at the seed over the loaded pool |
| KeyRotation.KeyRing.GetKey | utils/utiles.py:23-27 | the index advances by one modulo the pool size and the key handed out is the one at the new index |
| KeyRotation.Next | func.py:25-28 | one step of the counter stays in the pool and equals `(i + 1) % n` |
| KeyRotation.Steps | routers/newsapi/utiles.py:26-30 | the counter after any number of calls still indexes the pool |
| KeyRotation.Rotation | routers/newsapi/api.py:33-36 | `count` successive calls hand out `count` indices |
| KeyRotation.RotationAt | utils/utiles.py:23-27 | the j-th call hands out `index + j + 1`, wrapped past the end of the pool |
| KeyRotation.RotationCoversPool | utils/utiles.py:23-27 | any `n` consecutive calls use every key of an `n`-key pool |
| KeyRotation.RotationNoRepeat | utils/utiles.py:23-27 | no key is used twice within `n` consecutive calls |
| KeyRotation.RotationEndsAtSteps | utils/utiles.py:23-27 | the last index handed out is where the counter stands afterwards |
| KeyRotation.StepsShift | utils/utiles.py:23-27 | starting one step later equals taking one more step |
| Gazetteer.LoadTable | utils/utiles.py:29-44 | a missing or malformed table file loads as `{}`, otherwise as parsed |
| Gazetteer.Lookup | utils/utiles.py:95 | `get(raw, raw)`: the canonical name for a known alias, the raw name otherwise |
| Normalizer.SmartMapLocation | utils/utiles.py:47-56 | an exact alias wins; it fails exactly when there is no exact alias and the table is empty; any result is the raw name or a canonical name |
| Normalizer.ExactMatchIgnoresScorer | utils/utiles.py:48-49 | an exact alias gives the same answer whatever the fuzzy scorer |
| Normalizer.FuzzyTier | utils/utiles.py:51-56 | without an exact alias, a score of at least 80 maps through the best key and a lower score passes the name through |
| Geocoder.Interpret | utils/utiles.py:71-81 | coordinates exactly for status 0 with a location; every failure gives `None` |
| Geocoder.GeocodeStep | utils/utiles.py:58-81 | an override hit answers from the table and costs no key; a miss uses the next key and interprets the service's answer |
| Geocoder.GeocodeLocation | routers/newsapi/utiles.py:61-84 | the coordinates and the new counter are those of `GeocodeStep` |
| Geocoder.OneRotationPerMiss | utils/utiles.py:59-67 | the counter moves exactly once per name outside the override table |
| Geocoder.GeocodeUnguarded | routers/newsapi/location.py:35-48 | without a `try`: a failed request or a status-0 reply without a location escapes; another status gives `None` |
| Text.Strip | utils/utiles.py:88-89 | `strip()` never lengthens the text, and a non-empty result neither starts nor ends with whitespace |
| Text.StripEmpty | utils/utiles.py:88-89 | `strip()` is empty exactly when the text is all whitespace |
| Text.CombinedText | utils/utiles.py:86-89 | the combined f-string, stripped: no longer than both fields and a space, with no whitespace at either end |
| Text.CombinedTextEmpty | utils/utiles.py:86-89 | the combined text is empty exactly when both fields render as whitespace |
| Text.NullFieldsAreNotBlank | utils/utiles.py:86-88 | `null` title and description render as `"None None"`, not as blank |
| Text.ReplaceChar | routers/newsapi/filters.py:33 | after replacing every `Z`, none is left unless the replacement has one |
| Enrichment.PlaceSpans | utils/utiles.py:93 | at most one span per entity |
| Enrichment.PlaceSpansSpec | utils/utiles.py:93 | the spans are exactly the texts of GPE/NORP entities |
| Enrichment.LookupAll | utils/utiles.py:95 | each name is looked up in place |
| Enrichment.CanonicalNames | utils/utiles.py:93-95 | the mapped names, each once, at most one per entity |
| Enrichment.CanonicalNamesBound | utils/utiles.py:93-95 | the names geocoded are distinct and no more than the distinct place spans |
| Enrichment.CanonicalNamesOrigin | utils/utiles.py:93-95 | every geocoded name is the lookup of some place span of the text |
| Enrichment.GeocodeResults | routers/newsapi/utiles.py:101-102 | one result per name, and the counter stays in the pool |
| Enrichment.Unresolved | utils/utiles.py:98-99 | at most one override miss per name |
| Enrichment.GeocodeResultsRotations | utils/utiles.py:98-99 | the counter advances once per name outside the override table |
| Enrichment.GeocodeResultsPaired | routers/newsapi/utiles.py:101-105 | the k-th result answers the k-th name: the override or the service's answer with some pool key |
| Enrichment.Attach | utils/utiles.py:97-101 | at most one entry per name |
| Enrichment.AttachPaired | routers/newsapi/utiles.py:104-107 | each entry pairs a name with its own coordinates, and every non-null result is attached |
| Enrichment.AttachDistinct | utils/utiles.py:95-101 | distinct names give entries with distinct locations |
| Enrichment.EnrichArticle | utils/utiles.py:85-105 | one article's outcome leaves the counter inside the pool |
| Enrichment.Enrich | utils/utiles.py:83-107 | the batch never grows |
| Enrichment.EnrichArticleKept | utils/utiles.py:88-105 | an article is kept exactly when its text is not blank and some name geocodes; a kept article is the input with a non-empty `location` list of its own names, nothing else changed |
| Enrichment.EnrichKeepsOrder | utils/utiles.py:83-107 | the output is an order-preserving subsequence of the input, every output article located |
| Enrichment.BlankArticleSkipped | utils/utiles.py:86-90 | blank text is skipped without consulting the recogniser, the geocoder or a key |
| Enrichment.ArticleRotations | utils/utiles.py:92-99 | key use per article: one per name outside the overrides, at most one per distinct place span, none for blank text |
| Enrichment.OverrideKeepsArticle | utils/utiles.py:97-105 | a non-blank article naming an override place is kept with the override coordinates |
| Enrichment.ArticleLocationsDistinct | utils/utiles.py:95-104 | no article carries the same place twice |
| Enrichment.AddLocationInfo | utils/utiles.py:83-107 | the kept articles and the counter are those of `Enrich` |
| Enrichment.LocateNames | utils/utiles.py:97-101 | the located names and the counter are those of `GeocodeResults` attached to the names |
| Enrichment.GatherGeocodes | routers/newsapi/utiles.py:101-102 | the gathered results and the counter are those of `GeocodeResults` |
| Enrichment.AddLocationInfoGathered | routers/newsapi/utiles.py:86-113 | gathering before zipping keeps exactly what the one-by-one loop keeps |
| Enrichment.ZipLocations | routers/newsapi/utiles.py:104-107 | zipping names with results keeps exactly the names whose result is present, in order |
| Filters.AsUtc | routers/newsapi/filters.py:48-49 | `.replace(tzinfo=utc)` keeps the wall clock and sets offset 0 |
| Filters.RelabelIgnoresOffset | routers/newsapi/filters.py:48-49 | a bound's own offset is discarded, not converted |
| Filters.Judge | routers/newsapi/filters.py:29-37 | a record is kept exactly when its stamp is aware and inside the window; a naive stamp raises; an unusable one is skipped |
| Filters.Within | routers/newsapi/filters.py:27-37 | the kept records never outnumber the input, and the only error is a naive-versus-aware comparison |
| Filters.WithinSpec | routers/newsapi/filters.py:27-37 | the kept records are an ordered subsequence, all inside the window, and every in-window record is kept |
| Filters.WithinFails | routers/newsapi/filters.py:36 | the loop raises exactly when some record has a naive stamp |
| Filters.KeepWithin | routers/newsapi/filters.py:27-37 | the loop's result is `Within` |
| Filters.ListingOf | routers/newsapi/filters.py:39 | `totalResults` is the number of articles returned |
| Filters.CategoryListing | routers/newsapi/filters.py:15-39 | a missing file fails first, a corrupt file raises, otherwise the records of the last two days up to now; the listing counts its articles |
| Filters.FilterByCategory | routers/newsapi/filters.py:15-39 | the method returns `CategoryListing` |
| Filters.ParseBounds | routers/newsapi/filters.py:47-51 | fails exactly when a bound does not parse; otherwise the bounds' wall-clock readings |
| Filters.TimeListing | routers/newsapi/filters.py:41-68 | a missing file is reported before a malformed bound; otherwise the file's records inside the bounds; the listing counts its articles |
| Filters.FilterByTime | routers/newsapi/filters.py:41-68 | the method returns `TimeListing` |
| Filters.AllWithinSpec | routers/newsapi/filters.py:78-99 | every record returned lies in the window and comes from an existing category file; with no files the result is empty |
| Filters.CollectAllWithin | routers/newsapi/filters.py:78-97 | the loop over the categories returns `AllWithin` |
| Filters.AllTimeListing | routers/newsapi/filters.py:70-99 | malformed bounds fail; otherwise every existing category file in order; the listing counts its articles |
| Filters.FilterAllByTime | routers/newsapi/filters.py:70-99 | the method returns `AllTimeListing`, its categories collected by `CollectAllWithin` |
| Filters.GetEverythingBySource | routers/newsapi/filters.py:101-109 | the stored source document, or a missing-file error |
| News.Disk.Write | func.py:31-35 | the file holds exactly the new document afterwards, other files untouched |
| FlaskHandlers.ReplyOf | func.py:79-91 | a listing counts its own articles; a raised comparison is a 500 |
| FlaskHandlers.FilterByCategory | func.py:65-91 | 404 for a missing file; otherwise the last two days up to now |
| FlaskHandlers.ParseArg | func.py:97-104 | an absent or malformed argument fails; otherwise its wall-clock reading |
| FlaskHandlers.FilterByTime | func.py:95-121 | a malformed bound gives 400 before a missing file gives 404 |
| FlaskHandlers.FilterAllByTime | func.py:125-156 | 400 for a malformed bound; otherwise every existing category file in order |
| FlaskHandlers.GetEverything | func.py:160-167 | the stored document, or 404 for a missing file |
| FlaskHandlers.RefreshCategory | func.py:43-48 | seven keys used; the category file ends holding the response fetched with the last of them |
| FlaskHandlers.UpdateTopHeadline | func.py:41-48 | 49 keys used; each category file holds the response of its last country's key; nothing else changes |
| FlaskHandlers.RefreshNext | func.py:42-48 | one outer pass uses seven more keys and extends the refreshed categories by one without touching other paths |
| FlaskHandlers.RefreshedStep | func.py:48 | rewriting one category file keeps every earlier category file and every path outside the category files |
| FlaskHandlers.UpdateEverything | func.py:51-61 | one key for every source; each source file is overwritten; nothing else changes |
| FlaskHandlers.WrittenStep | func.py:61 | writing one source file keeps every earlier source file and every path outside the source files |
| Store.Base | routers/newsapi/api.py:45-52 | a decodable stored file is the starting document; a missing or corrupt one restarts from the empty document |
| Store.Merge | routers/newsapi/api.py:54-55 | the stored articles gain the batch at the end, the count is recomputed, other fields kept; a store without articles raises |
| Store.MergeTwice | routers/newsapi/api.py:54-55 | two saves in a row equal one save of both batches (append-only, no deduplication) |
| Store.MergeResets | routers/newsapi/api.py:45-55 | a corrupt or missing store holds exactly the new batch |
| Store.Save | routers/newsapi/api.py:38-60 | the geocoder counter stays in the pool |
| Store.SaveSpec | routers/newsapi/api.py:38-60 | a response without articles raises; nothing is written when no article is located; when some are located the save fails exactly on a stored document without articles, and otherwise the stored list becomes the old list followed by the enriched articles, touching no other path |
| Store.SaveToJson | routers/newsapi/api.py:38-60 | the disk and the geocoder counter end as `Save` says, and the disk is unchanged on failure |
| Store.Run | routers/newsapi/api.py:62-68 | a run without failure attempts every job |
| Store.RunStops | routers/newsapi/api.py:62-68 | after the first exception later jobs change nothing |
| Store.RunTouchesOnlyJobPaths | routers/newsapi/api.py:62-82 | a run writes only its jobs' paths |
| Store.EverythingJobs | routers/newsapi/api.py:71-82 | one save per source, all fetched with one key |
| Store.PairCountIsProduct | routers/newsapi/api.py:63-64 | 49 is the number of (category, country) pairs |
| Store.TopJob | routers/newsapi/api.py:63-68 | pair `k` saves to the file of category `k / 7` |
| Store.TopJobs | routers/newsapi/api.py:62-68 | one save per pair, in loop order |
| Store.RunStopsAt | routers/newsapi/api.py:62-68 | a run that fails at a job ends there |
| Store.UpdateEverything | routers/newsapi/api.py:71-83 | one news key; the disk and the geocoder counter are those of the run over the source jobs; failure is reported |
| Store.SavePair | routers/newsapi/api.py:65-68 | one pair: the next news key, then the save |
| Store.RunLast | routers/newsapi/api.py:68 | a run that has not failed takes its next job by one `save_to_json`, stopping on its exception |
| Store.SaveCategory | routers/newsapi/api.py:64-68 | one category's seven pairs, stopping at the first exception |
| Store.TopJobInCategory | routers/newsapi/api.py:63-68 | pair `7 i + j` is category `i` fetched with key number `7 i + j + 1` |
| Store.UpdateTopHeadline | routers/newsapi/api.py:62-69 | the disk and the geocoder counter are those of the run over the 49 pairs; one news key per attempted pair |
| LocationRoute.UnitedStatesAliasesFold | routers/newsapi/location.py:51-60 | the six United States spellings and "European" map to their canonical names |
| LocationRoute.UnitedStatesOnce | routers/newsapi/location.py:109 | "United States" is geocoded at most once per article |
| LocationRoute.Dispatch | routers/newsapi/location.py:72-88 | each of the four branches is taken exactly when its truthiness condition holds |
| LocationRoute.LoneBoundIgnored | routers/newsapi/location.py:72-79 | a category with only one bound uses the two-day filter |
| LocationRoute.Selected | routers/newsapi/location.py:72-86 | no filter runs exactly when the parameters are insufficient; otherwise the result is that of the `Filters` method the branch calls |
| LocationRoute.RouteGeocode | routers/newsapi/location.py:112-115 | one result per name when no request fails |
| LocationRoute.RouteEnrich | routers/newsapi/location.py:93-119 | the handler's loop never grows the list |
| LocationRoute.RouteGeocodeIsShared | routers/newsapi/location.py:35-48 | without failures this geocoder answers as the shared one with a one-key pool and no overrides |
| LocationRoute.RouteEnrichIsShared | routers/newsapi/location.py:95-119 | without failures the handler keeps exactly what the shared enrichment keeps |
| LocationRoute.RouteEnrichKeepsOrder | routers/newsapi/location.py:95-119 | the output is an ordered subsequence of the filtered articles, every one located |
| LocationRoute.RouteGeocodeErrSticks | routers/newsapi/location.py:112-115 | the first escaping failure ends the loop |
| LocationRoute.RouteEnrichErrSticks | routers/newsapi/location.py:95-119 | the first escaping failure ends the handler |
| LocationRoute.GeocodeNames | routers/newsapi/location.py:111-115 | the entries are `Attach` of the results, or the first failure |
| LocationRoute.EnrichFiltered | routers/newsapi/location.py:93-119 | the loop's result is `RouteEnrich` |
| LocationRoute.EnrichOne | routers/newsapi/location.py:96-119 | one article: blank text is skipped, a geocoder fault escapes, and the article is kept exactly when some name resolves |
| LocationRoute.Handle | routers/newsapi/location.py:66-122 | the handler answers a listing that counts its own articles, or a 400 or 500 |
| LocationRoute.HandleStatuses | routers/newsapi/location.py:72-122 | insufficient parameters and filter failures give 400, geocoding failures 500; a listing counts its articles |
| LocationRoute.GetArticlesWithLocation | routers/newsapi/location.py:66-122 | the handler's reply is `Handle` of its inputs |
| Charts.Label | routers/newsapi/charts.py:77-78 | `NAME`, else `COUNTRY`, else "未知国家" |
| Charts.FirstContaining | routers/newsapi/charts.py:73-77 | the first row containing the point, or none when no row does |
| Charts.ItemCountries | routers/newsapi/charts.py:69-80 | at most one credit per location |
| Charts.Credits | routers/newsapi/charts.py:67-80 | no more credits than locations over all items |
| Charts.Bump | routers/newsapi/charts.py:80 | the dict grows by at most one key |
| Charts.BumpSpec | routers/newsapi/charts.py:80 | the named count rises by one and no other changes; keys stay distinct |
| Charts.Tally | routers/newsapi/charts.py:65-82 | the dict has no more keys than there are credits |
| Charts.TallySpec | routers/newsapi/charts.py:65-82 | each key counts its credits exactly, keys are the credited countries, each count is at least 1 and the counts sum to the credits |
| Charts.CreditLocations | routers/newsapi/charts.py:69-80 | the inner loop bumps the dict once for each of the item's locations that some region contains |
| Charts.TallyAppend | routers/newsapi/charts.py:63-82 | counting further credits continues from the earlier dict, so the per-item loop builds the tally of all credits |
| Charts.CountNewsByCountry | routers/newsapi/charts.py:63-82 | the dict is the tally of every credit |
| Charts.CountsMeaning | routers/newsapi/charts.py:63-82 | distinct keys, counts at least 1, total at most the number of locations |
| Charts.ItemCountriesSpec | routers/newsapi/charts.py:69-80 | every credit comes from a matched location and every matched location is credited |
| Charts.Insert | routers/newsapi/charts.py:87 | insertion adds one entry |
| Charts.SortByCount | routers/newsapi/charts.py:87 | sorting keeps the length |
| Charts.InsertSorted | routers/newsapi/charts.py:87 | insertion keeps the order non-increasing and adds exactly one entry |
| Charts.InsertStable | routers/newsapi/charts.py:87 | an inserted entry goes after the equal counts already placed |
| Charts.SortByCountSpec | routers/newsapi/charts.py:87 | non-increasing counts, a permutation of the entries, ties in dict order |
| Charts.BarChart | routers/newsapi/charts.py:84-147 | the axis and the series have one value per entry |
| Charts.BarChartSpec | routers/newsapi/charts.py:87-124 | each bar is an entry of the dict, every entry is a bar, and bars never grow left to right |
| ExportMap.FeatureOf | routers/geoserver/exportMap.py:88-95 | a Point Feature at `[longitude, latitude]` with `properties or {}` |
| ExportMap.FeatureRoundTrip | routers/geoserver/exportMap.py:92 | reading a Feature back gives its point |
| ExportMap.GeoJsonOf | routers/geoserver/exportMap.py:83-103 | a FeatureCollection with one Feature per point in order |
| ExportMap.PointsToGeoJson | routers/geoserver/exportMap.py:83-103 | the loop builds `GeoJsonOf` |
| ExportMap.GeoJsonRoundTrip | routers/geoserver/exportMap.py:87-96 | every Feature reads back as the point it came from |
| ExportMap.Tiles | routers/geoserver/exportMap.py:48-56 | a known basemap is used as named, any other gives OpenStreetMap |
| ExportMap.PopupText | routers/geoserver/exportMap.py:71-77 | the joined `key: value` text is empty exactly when there are no properties |
| ExportMap.MarkerOf | routers/geoserver/exportMap.py:71-77 | a marker stands at `[latitude, longitude]` and any popup is 300 wide |
| ExportMap.JoinEmpty | routers/geoserver/exportMap.py:73 | joining non-empty parts is empty only for no parts |
| ExportMap.MarkerPopup | routers/geoserver/exportMap.py:71-77 | a marker has a popup exactly when its point has non-empty properties |
| ExportMap.MapViewOf | routers/geoserver/exportMap.py:45-81 | centre, zoom, basemap and size as requested, and one marker per point in order |
| ExportMap.CreateFoliumMap | routers/geoserver/exportMap.py:45-81 | the loop builds `MapViewOf` |
| ExportMap.Validate | routers/geoserver/exportMap.py:205-216 | the four checks in order, the first failure a 400 with its message |
| ExportMap.CaptureMapImage | routers/geoserver/exportMap.py:171-174 | any browser failure becomes a 500 `HTTPException` |
| ExportMap.Decimal | routers/geoserver/exportMap.py:232 | a count renders as decimal digits |
| ExportMap.DecimalRoundTrip | routers/geoserver/exportMap.py:232 | the digits read back as the count |
| ExportMap.Export | routers/geoserver/exportMap.py:204-239 | the endpoint answers either a 400 or 500 refusal or a successful export carrying an image |
| ExportMap.ExportSpec | routers/geoserver/exportMap.py:204-239 | validation first; an `HTTPException` passes unchanged and other errors become 500; success carries the image, the point count and, exactly when there are points, the points' own GeoJSON |
| ExportMap.MessageCount | routers/geoserver/exportMap.py:232 | the message's count reads back as the number of points |
| TestData.GetTestData | routers/newsapi/test_data.py:14-26 | the stored document, or a 500; a missing file's 404 text arrives inside a 500 |
| TestData.MissingIsNot404 | routers/newsapi/test_data.py:19-26 | a missing category never reaches the client as a 404 |
| TestData.BeforeFirstDot | routers/newsapi/test_data.py:33 | a dot-free prefix of the name, ending at its first dot |
| TestData.SampleTestRedundant | routers/newsapi/test_data.py:34 | the `.sample` test never excludes a `.json` name |
| TestData.CategoryNames | routers/newsapi/test_data.py:33-34 | at most one category per file name |
| TestData.CategoryNamesSpec | routers/newsapi/test_data.py:33-34 | the categories are exactly the prefixes of the `.json` names |
| TestData.AvailableCategories | routers/newsapi/test_data.py:29-37 | an unreadable directory answers 500 and only then; otherwise no more categories than files |
| TestData.AvailableCategoriesSpec | routers/newsapi/test_data.py:28-37 | each category once, exactly the prefixes of the `.json` names, none with a dot; an unreadable directory is a 500 |

## Left out

- I/O, `print`, `time.sleep`/`asyncio.sleep`, request timeouts, the scheduler and the Flask/FastAPI plumbing. Files are a map, clocks are parameters (`now`), and services are oracles.
- The internals of the spaCy model and its `EntityRuler` patterns, the fuzzy scorer, the geocoding HTTP service, the news API client, geopandas/shapely, folium and the headless browser. Each is an oracle whose answers the model takes as given.
- `capture_map_image` beyond its error wrapping (`ExportMap.CaptureMapImage`). The screenshot, resizing and temporary files are foreign I/O.
- `load_country_shapes`, the chart endpoint's error wrapping, `layers.py`, `models.py`, `envtest.py` and `main.py`. They hold configuration, schema or start-up code with no modelled behaviour.
- Floating point: coordinates are `real`, and timestamps are integer microseconds. NaN values of the shapes table are not modelled.
- The text of exception messages (`str(e)`) that the handlers put in `detail`. Errors are modelled by kind (`FilterError`, `GeocodeFault`, `Raised`), except where the source writes a fixed message.
- JSON fields of articles and documents other than those read or written (`url` stands for the rest). Non-string `publishedAt` values are not modelled.
- Filters.ArticlesOf: a stored `"articles": null` is treated as an absent key, so the filters of both `routers/newsapi/filters.py` and `func.py` give an empty listing. The source's `data.get('articles', [])` returns `None` there and the loop raises `TypeError`.
- How the key list is read from the environment: `ast.literal_eval` in three files, comma splitting in `routers/newsapi/api.py`.
- The news API's `from_param` (a clock reading) and `page_size` arguments.
- Enrichment.Enrich: a Python `set` is iterated in hash order, and the model lists it in first-mention order. The set of names, their number and the number of key rotations do not depend on the order. The order of the attached entries does. So does the pairing of names to keys, since keys are handed out in list order: when the service's answer depends on the key (one key over quota, say), the names that resolve, the names attached and whether the article is kept can differ from the source's run.
- Enrichment.AddLocationInfo: articles are values. The source mutates the caller's article dicts in place (aliasing) and the model does not.
- Enrichment.GeocodeResults: override table values are assumed to be `{lat, lng}` pairs. A malformed entry (for instance `{}`, which is falsy) is not modelled.
- Geocoder.Interpret: `status` is compared as an integer. Python values equal to `0`, such as `0.0` or `False`, are not distinguished.
- Charts.CountNewsByCountry: a present `NAME`/`COUNTRY` column with a missing value (NaN) is not modelled.
- TestData.AvailableCategoriesSpec: `list(set(...))` has no defined order. The model lists categories in first-seen order and proves only membership and distinctness.
- ExportMap.MapViewOf: marker tooltips (`:.6f` float formatting) are not modelled. Property values are an opaque type rendered by a `str` parameter.
- Store.UpdateTopHeadline: the news client is assumed to return a document. Its own exceptions (network, quota) are not modelled.
- Store.UpdateEverything: the news client (`fetch`) is assumed to return a document. Its own exceptions (network, quota) are not modelled.
- FlaskHandlers.RefreshCategory: the news client (`fetch`) is assumed to return a document. Its own exceptions (network, quota) are not modelled.
- FlaskHandlers.UpdateTopHeadline: the news client (`fetch`) is assumed to return a document. Its own exceptions (network, quota) are not modelled.
- FlaskHandlers.UpdateEverything: the news client (`fetch`) is assumed to return a document. Its own exceptions (network, quota) are not modelled.
