/**
 * `geocode_location`: the manual-override table first, otherwise one key
 * rotation and one request to the geocoding service, whose answer is
 * reduced to coordinates or `None`.
 */
module Geocoder {
  import opened Wrappers
  import opened News
  import opened KeyRotation

  /**
   * What a request yields: a decoded JSON reply (its `status`, and
   * `result.location` when present), or `Failed` for a raised exception
   * (network error, timeout, a body that is not JSON).
   */
  datatype Response = Reply(status: Option<int>, location: Option<Coords>) | Failed

  /** The geocoding service: (address, access key) to its response. */
  type Responder = (string, string) -> Response

  /**
   * The response handling of the guarded geocoders: coordinates only for
   * status 0; a missing `result.location` under status 0 raises inside the
   * `try` and, like every other failure, gives `None`.
   */
  function Interpret(resp: Response): (r: Option<Coords>)
    ensures r.Some? <==> resp.Reply? && resp.status == Some(0) && resp.location.Some?
    ensures r.Some? ==> r.value == resp.location.value
  {
    match resp
    case Failed => None
    case Reply(status, location) => if status == Some(0) then location else None
  }

  /**
   * One `geocode_location(name)` on the counter's state `index`: the
   * coordinates and the counter afterwards.
   */
  function GeocodeStep(overrides: map<string, Coords>, respond: Responder, keys: seq<string>,
                       index: nat, name: string): (r: (Option<Coords>, nat))
    requires index < |keys|
    ensures r.1 < |keys|
    ensures name in overrides ==> r == (Some(overrides[name]), index)
    ensures name !in overrides ==> r.1 == Next(index, |keys|)
    ensures name !in overrides ==> r.0 == Interpret(respond(name, keys[r.1]))
  {
    if name in overrides then (Some(overrides[name]), index)
    else
      var next := Next(index, |keys|);
      (Interpret(respond(name, keys[next])), next)
  }

  /** `geocode_location` with its effect on the shared key counter. */
  method GeocodeLocation(pool: KeyRing, overrides: map<string, Coords>, respond: Responder, name: string)
    returns (coords: Option<Coords>)
    requires pool.Valid()
    modifies pool
    ensures pool.Valid()
    ensures (coords, pool.index) == GeocodeStep(overrides, respond, pool.keys, old(pool.index), name)
  {
    if name in overrides {
      coords := Some(overrides[name]);
      return;
    }
    var key := pool.GetKey();
    coords := Interpret(respond(name, key));
  }

  /** An override hit costs no key; a miss costs exactly one, whatever the outcome. */
  lemma OneRotationPerMiss(overrides: map<string, Coords>, respond: Responder, keys: seq<string>,
                           index: nat, name: string)
    requires index < |keys|
    ensures GeocodeStep(overrides, respond, keys, index, name).1
            == if name in overrides then index else Next(index, |keys|)
  {
  }

  /** What the route handler's own geocoder lets escape: the request failing, or status 0 without a location. */
  datatype GeocodeFault = RequestFailed | MissingResult

  /**
   * The route handler's geocoder: a fixed key, no override table, no
   * `try`, so failures propagate instead of becoming `None`.
   */
  function GeocodeUnguarded(resp: Response): (r: Result<Option<Coords>, GeocodeFault>)
    ensures r == Ok(None) <==> resp.Reply? && resp.status != Some(0)
    ensures r.Ok? && r.value.Some? <==> Interpret(resp).Some?
    ensures r.Ok? && r.value.Some? ==> r.value == Interpret(resp)
    ensures r == Err(MissingResult) <==> resp.Reply? && resp.status == Some(0) && resp.location.None?
  {
    match resp
    case Failed => Err(RequestFailed)
    case Reply(status, location) =>
      if status == Some(0) then
        if location.Some? then Ok(location) else Err(MissingResult)
      else Ok(None)
  }
}
