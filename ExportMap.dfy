/**
 * routers/geoserver/exportMap.py: the map-export endpoint. Points become a
 * GeoJSON FeatureCollection (RFC 7946, sections 3.1.1, 3.2 and 3.3), the
 * folium map gets its basemap and one marker per point, and the request is
 * validated before anything is rendered. Folium itself and the headless
 * browser that screenshots the map are oracles.
 */
module ExportMap {
  import opened Wrappers

  /** A value of a point's `properties` dict (`Any`): only its `str()` rendering is observed. */
  type Value(==)

  /** `Dict[str, Any]` as its items in insertion order. */
  type Properties = seq<(string, Value)>

  /** `PointData`: `properties` defaults to `{}` and may be sent as `null`. */
  datatype PointData = PointData(latitude: real, longitude: real, properties: Option<Properties>)

  /** `ExportMapRequest`: `points` defaults to `[]` and may be sent as `null`. */
  datatype ExportRequest = ExportRequest(
    centerLat: real, centerLng: real, zoom: int, width: int, height: int,
    points: Option<seq<PointData>>, basemapType: string)

  // ---- points_to_geojson ----

  /** A GeoJSON Point geometry: `coordinates` is one position. */
  datatype Geometry = Geometry(kind: string, coordinates: seq<real>)

  datatype Feature = Feature(kind: string, geometry: Geometry, properties: Properties)

  datatype FeatureCollection = FeatureCollection(kind: string, features: seq<Feature>)

  /** One point's Feature: position in longitude, latitude order; `properties or {}`. */
  function FeatureOf(p: PointData): (f: Feature)
    ensures f.kind == "Feature" && f.geometry.kind == "Point"
    ensures f.geometry.coordinates == [p.longitude, p.latitude]
    ensures p.properties.None? ==> f.properties == []
    ensures p.properties.Some? ==> f.properties == p.properties.value
  {
    Feature("Feature", Geometry("Point", [p.longitude, p.latitude]), p.properties.GetOr([]))
  }

  /** The point a Feature describes, read back from its position. */
  function PointOf(f: Feature): Option<PointData> {
    if |f.geometry.coordinates| == 2 then
      Some(PointData(f.geometry.coordinates[1], f.geometry.coordinates[0], Some(f.properties)))
    else None
  }

  /** Reading a Feature back gives the point, with `null` properties read as `{}`. */
  lemma FeatureRoundTrip(p: PointData)
    ensures PointOf(FeatureOf(p)) == Some(p.(properties := Some(p.properties.GetOr([]))))
  {
  }

  function GeoJsonOf(points: seq<PointData>): (g: FeatureCollection)
    ensures g.kind == "FeatureCollection" && |g.features| == |points|
    ensures forall i :: 0 <= i < |points| ==> g.features[i] == FeatureOf(points[i])
  {
    FeatureCollection("FeatureCollection", seq(|points|, i requires 0 <= i < |points| => FeatureOf(points[i])))
  }

  /** `points_to_geojson`: one Feature appended per point, in input order. */
  method PointsToGeoJson(points: seq<PointData>) returns (g: FeatureCollection)
    ensures g == GeoJsonOf(points)
  {
    var features: seq<Feature> := [];
    for i := 0 to |points|
      invariant |features| == i
      invariant forall k :: 0 <= k < i ==> features[k] == FeatureOf(points[k])
    {
      var feature := Feature("Feature", Geometry("Point", [points[i].longitude, points[i].latitude]),
                             if points[i].properties.Some? then points[i].properties.value else []);
      features := features + [feature];
    }
    g := FeatureCollection("FeatureCollection", features);
  }

  /** Every Feature of the collection reads back as the point it came from. */
  lemma GeoJsonRoundTrip(points: seq<PointData>)
    requires forall i :: 0 <= i < |points| ==> points[i].properties.Some?
    ensures var g := GeoJsonOf(points);
            forall i :: 0 <= i < |points| ==> PointOf(g.features[i]) == Some(points[i])
  {
    forall i | 0 <= i < |points| ensures PointOf(GeoJsonOf(points).features[i]) == Some(points[i]) {
      FeatureRoundTrip(points[i]);
    }
  }

  // ---- create_folium_map ----

  const TilesMapping: map<string, string> := map[
    "OpenStreetMap" := "OpenStreetMap",
    "Stamen Terrain" := "Stamen Terrain",
    "Stamen Toner" := "Stamen Toner",
    "CartoDB positron" := "CartoDB positron",
    "CartoDB dark_matter" := "CartoDB dark_matter"]

  /** `tiles_mapping.get(basemap_type, "OpenStreetMap")`: a known basemap is used as named, any other gives OpenStreetMap. */
  function Tiles(basemapType: string): (t: string)
    ensures basemapType in TilesMapping ==> t == basemapType
    ensures basemapType !in TilesMapping ==> t == "OpenStreetMap"
    ensures t in TilesMapping
  {
    if basemapType in TilesMapping then TilesMapping[basemapType] else "OpenStreetMap"
  }

  /** `sep.join(parts)`. */
  function Join(sep: string, parts: seq<string>): string {
    if parts == [] then ""
    else if |parts| == 1 then parts[0]
    else parts[0] + sep + Join(sep, parts[1..])
  }

  /** `"<br>".join(f"{k}: {v}" for k, v in properties.items())`, with `str` the rendering of a value. */
  function PopupText(props: Properties, str: Value -> string): (r: string)
    ensures r == "" <==> props == []
  {
    var parts := seq(|props|, i requires 0 <= i < |props| => props[i].0 + ": " + str(props[i].1));
    assert forall i :: 0 <= i < |parts| ==> parts[i] != "" by {
      forall i | 0 <= i < |parts| ensures parts[i] != "" {
        assert |parts[i]| >= 2;
      }
    }
    JoinEmpty("<br>", parts);
    Join("<br>", parts)
  }

  lemma {:induction false} JoinEmpty(sep: string, parts: seq<string>)
    requires forall i :: 0 <= i < |parts| ==> parts[i] != ""
    ensures Join(sep, parts) == "" <==> parts == []
  {
    if |parts| > 1 {
      JoinEmpty(sep, parts[1..]);
    }
  }

  datatype Popup = Popup(text: string, maxWidth: int)

  datatype Marker = Marker(location: seq<real>, popup: Option<Popup>)

  /** The folium map: centre, zoom, basemap, size and markers; marker tooltips are not modelled. */
  datatype MapView = MapView(location: seq<real>, zoom: int, tiles: string, width: int, height: int, markers: seq<Marker>)

  function MarkerOf(p: PointData, str: Value -> string): (m: Marker)
    ensures m.location == [p.latitude, p.longitude]
    ensures m.popup.Some? ==> m.popup.value.maxWidth == 300
  {
    var text := if p.properties.Some? && p.properties.value != [] then PopupText(p.properties.value, str) else "";
    Marker([p.latitude, p.longitude], if text != "" then Some(Popup(text, 300)) else None)
  }

  /** A marker carries a popup exactly when its point has a non-empty properties dict. */
  lemma MarkerPopup(p: PointData, str: Value -> string)
    ensures MarkerOf(p, str).popup.Some? <==> p.properties.Some? && p.properties.value != []
    ensures MarkerOf(p, str).popup.Some? ==> MarkerOf(p, str).popup.value == Popup(PopupText(p.properties.value, str), 300)
  {
    if p.properties.Some? {
      var props := p.properties.value;
      JoinEmpty("<br>", seq(|props|, i requires 0 <= i < |props| => props[i].0 + ": " + str(props[i].1)));
    }
  }

  /** The points a request asks to draw: `request.points` when truthy, otherwise none. */
  function PointsOf(req: ExportRequest): seq<PointData> {
    if req.points.Some? then req.points.value else []
  }

  /** The map `create_folium_map` builds: latitude-first centre and markers, one marker per point in order. */
  function MapViewOf(req: ExportRequest, str: Value -> string): (m: MapView)
    ensures m.location == [req.centerLat, req.centerLng] && m.zoom == req.zoom
    ensures m.tiles == Tiles(req.basemapType) && m.width == req.width && m.height == req.height
    ensures |m.markers| == |PointsOf(req)|
    ensures forall i :: 0 <= i < |m.markers| ==> m.markers[i] == MarkerOf(PointsOf(req)[i], str)
  {
    var points := PointsOf(req);
    MapView([req.centerLat, req.centerLng], req.zoom, Tiles(req.basemapType), req.width, req.height,
            seq(|points|, i requires 0 <= i < |points| => MarkerOf(points[i], str)))
  }

  /** `create_folium_map`: the map object, then one `Marker(...).add_to(m)` per point. */
  method CreateFoliumMap(req: ExportRequest, str: Value -> string) returns (m: MapView)
    ensures m == MapViewOf(req, str)
  {
    m := MapView([req.centerLat, req.centerLng], req.zoom, Tiles(req.basemapType), req.width, req.height, []);
    if req.points.Some? && req.points.value != [] {
      var points := req.points.value;
      for i := 0 to |points|
        invariant m == MapViewOf(req, str).(markers := m.markers)
        invariant |m.markers| == i
        invariant forall k :: 0 <= k < i ==> m.markers[k] == MarkerOf(points[k], str)
      {
        var popupText := "";
        if points[i].properties.Some? && points[i].properties.value != [] {
          popupText := PopupText(points[i].properties.value, str);
        }
        var marker := Marker([points[i].latitude, points[i].longitude],
                             if popupText != "" then Some(Popup(popupText, 300)) else None);
        m := m.(markers := m.markers + [marker]);
      }
    }
  }

  // ---- export_map ----

  /** An exception as the endpoint sees it: an `HTTPException` or anything else. */
  datatype Raised = Http(code: int, detail: string) | Other(text: string)

  /** The endpoint's outcome: the `ExportMapResponse`, or the HTTP error FastAPI answers with. */
  datatype Reply =
    | Exported(success: bool, imageBase64: Option<string>, message: string, geojson: Option<FeatureCollection>)
    | Refused(code: int, detail: string)

  const LatitudeRange := "纬度必须在-90到90之间"
  const LongitudeRange := "经度必须在-180到180之间"
  const ZoomRange := "缩放级别必须在1到18之间"
  const SizePositive := "图片尺寸必须大于0"

  /** The guard checks, in order: the first that fails answers 400. */
  function Validate(req: ExportRequest): (r: Option<Raised>)
    ensures r.None? <==>
      -90.0 <= req.centerLat <= 90.0 && -180.0 <= req.centerLng <= 180.0 &&
      1 <= req.zoom <= 18 && req.width > 0 && req.height > 0
    ensures r == Some(Http(400, LatitudeRange)) <==> !(-90.0 <= req.centerLat <= 90.0)
    ensures r == Some(Http(400, LongitudeRange)) <==>
      -90.0 <= req.centerLat <= 90.0 && !(-180.0 <= req.centerLng <= 180.0)
    ensures r == Some(Http(400, ZoomRange)) <==>
      -90.0 <= req.centerLat <= 90.0 && -180.0 <= req.centerLng <= 180.0 && !(1 <= req.zoom <= 18)
    ensures r == Some(Http(400, SizePositive)) <==>
      -90.0 <= req.centerLat <= 90.0 && -180.0 <= req.centerLng <= 180.0 && 1 <= req.zoom <= 18 &&
      (req.width <= 0 || req.height <= 0)
  {
    if !(-90.0 <= req.centerLat <= 90.0) then Some(Http(400, LatitudeRange))
    else if !(-180.0 <= req.centerLng <= 180.0) then Some(Http(400, LongitudeRange))
    else if !(1 <= req.zoom <= 18) then Some(Http(400, ZoomRange))
    else if req.width <= 0 || req.height <= 0 then Some(Http(400, SizePositive))
    else None
  }

  /** `capture_map_image`: whatever goes wrong in the browser is raised as a 500 `HTTPException`. */
  function CaptureMapImage(shot: Result<string, string>): (r: Result<string, Raised>)
    ensures shot.Ok? ==> r == Ok(shot.value)
    ensures shot.Err? ==> r == Err(Http(500, "截图失败: " + shot.error))
  {
    match shot
    case Ok(image) => Ok(image)
    case Err(details) => Err(Http(500, "截图失败: " + details))
  }

  /** Decimal rendering of a count, as `f"{n}"` gives it. */
  function Decimal(n: nat): (s: string)
    ensures |s| > 0 && forall i :: 0 <= i < |s| ==> '0' <= s[i] <= '9'
  {
    if n < 10 then [('0' as int + n) as char] else Decimal(n / 10) + [('0' as int + n % 10) as char]
  }

  function ParseDecimal(s: string): nat
    requires forall i :: 0 <= i < |s| ==> '0' <= s[i] <= '9'
  {
    if s == [] then 0 else ParseDecimal(s[..|s| - 1]) * 10 + (s[|s| - 1] as int - '0' as int)
  }

  lemma {:induction false} DecimalRoundTrip(n: nat)
    ensures ParseDecimal(Decimal(n)) == n
  {
    if n >= 10 {
      DecimalRoundTrip(n / 10);
      var s := Decimal(n);
      assert s[..|s| - 1] == Decimal(n / 10);
    }
  }

  const MessageHead := "成功导出地图图片，包含"
  const MessageTail := "个点"

  function Message(count: nat): string {
    MessageHead + Decimal(count) + MessageTail
  }

  /**
   * `export_map`. `folium` is what building the map raises, if anything;
   * `browser` is the screenshot the headless browser takes, or the error
   * it fails with. Validation comes first; an `HTTPException` reaches the
   * client unchanged, any other exception as a 500.
   */
  function Export(req: ExportRequest, str: Value -> string, folium: MapView -> Option<string>,
                  browser: (MapView, int, int) -> Result<string, string>): (r: Reply)
    ensures r.Refused? ==> r.code == 400 || r.code == 500
    ensures r.Exported? ==> r.success && r.imageBase64.Some?
  {
    var raised: Result<Reply, Raised> :=
      match Validate(req)
      case Some(e) => Err(e)
      case None =>
        var view := MapViewOf(req, str);
        if folium(view).Some? then Err(Other(folium(view).value))
        else
          match CaptureMapImage(browser(view, req.width, req.height))
          case Err(e) => Err(e)
          case Ok(image) =>
            var points := PointsOf(req);
            Ok(Exported(true, Some(image), Message(|points|), if points != [] then Some(GeoJsonOf(points)) else None));
    match raised
    case Ok(reply) => reply
    case Err(Http(code, detail)) => Refused(code, detail)
    case Err(Other(text)) => Refused(500, "导出地图失败: " + text)
  }

  /**
   * What the endpoint answers: a failed guard's 400 unchanged; a folium
   * failure as 500; otherwise the browser's image, a message counting the
   * points, and GeoJSON exactly when there are points.
   */
  lemma ExportSpec(req: ExportRequest, str: Value -> string, folium: MapView -> Option<string>,
                   browser: (MapView, int, int) -> Result<string, string>)
    ensures var reply := Export(req, str, folium, browser);
            var view := MapViewOf(req, str);
            && (Validate(req).Some? ==> reply == Refused(400, Validate(req).value.detail))
            && (Validate(req).None? && folium(view).Some? ==>
                  reply == Refused(500, "导出地图失败: " + folium(view).value))
            && (Validate(req).None? && folium(view).None? && browser(view, req.width, req.height).Err? ==>
                  reply == Refused(500, "截图失败: " + browser(view, req.width, req.height).error))
            && (reply.Exported? <==>
                  Validate(req).None? && folium(view).None? && browser(view, req.width, req.height).Ok?)
            && (reply.Exported? ==>
                  && reply.success
                  && reply.imageBase64 == Some(browser(view, req.width, req.height).value)
                  && reply.message[..|MessageHead|] == MessageHead
                  && reply.message[|MessageHead|..|reply.message| - |MessageTail|] == Decimal(|PointsOf(req)|)
                  && (reply.geojson.None? <==> PointsOf(req) == [])
                  && (reply.geojson.Some? ==> reply.geojson.value == GeoJsonOf(PointsOf(req))))
  {
    var reply := Export(req, str, folium, browser);
    if reply.Exported? {
      var d := Decimal(|PointsOf(req)|);
      assert reply.message == MessageHead + d + MessageTail;
      assert reply.message[|MessageHead|..|reply.message| - |MessageTail|] == d;
    }
  }

  /** The count in the message reads back as the number of points. */
  lemma MessageCount(count: nat)
    ensures var m := Message(count);
            var digits := m[|MessageHead|..|m| - |MessageTail|];
            && (forall i :: 0 <= i < |digits| ==> '0' <= digits[i] <= '9')
            && ParseDecimal(digits) == count
  {
    var m := Message(count);
    assert m[|MessageHead|..|m| - |MessageTail|] == Decimal(count);
    DecimalRoundTrip(count);
  }
}
