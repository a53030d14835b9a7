/** The `/api/plan_trip` endpoint: validate the coordinates, run the
    adventure-finder worker, and answer with the map's URL when the worker
    succeeded and the map file is there. */
module PlanTrip {
  import opened PyJson
  import opened Http
  import opened RunScript

  const MapFilename: string := "adventure_map.html"
  const DefaultRadius: real := 15.0

  /** The JSON body's fields; `None` is a missing key. */
  datatype Request = Request(latitude: Option<Json>, longitude: Option<Json>, radiusMiles: Option<Json>)

  /** The worker's arguments: the converted numbers and the map path. */
  datatype TripArgs = TripArgs(latitude: real, longitude: real, radiusMiles: real, output: string)

  /** Either the endpoint answers at once, or it runs the worker with these arguments. */
  datatype Validation = Reject(response: Response) | Launch(args: TripArgs)

  /** `not data.get(key)` */
  predicate Missing(v: Option<Json>) {
    v.None? || !Truthy(v.value)
  }

  /** `data.get('radius_miles', 15.0)` */
  function RadiusField(req: Request): Json {
    if req.radiusMiles.Some? then req.radiusMiles.value else JNum(DefaultRadius)
  }

  /** The three `float()` conversions, in the order the source makes them. */
  function Conversions(req: Request, parseFloat: string -> Option<real>): seq<Conversion>
    requires !Missing(req.latitude) && !Missing(req.longitude)
  {
    [ToFloat(req.latitude.value, parseFloat), ToFloat(req.longitude.value, parseFloat),
     ToFloat(RadiusField(req), parseFloat)]
  }

  /** Index of the first conversion that did not produce a number. */
  function FirstFailure(cs: seq<Conversion>): (i: nat)
    ensures i <= |cs|
    ensures forall k :: 0 <= k < i ==> cs[k].Converted?
    ensures i < |cs| ==> !cs[i].Converted?
  {
    if cs == [] then 0
    else if !cs[0].Converted? then 0
    else FirstFailure(cs[1..]) + 1
  }

  /** Lines 73-85: what happens before any worker runs. */
  function Validate(req: Request, parseFloat: string -> Option<real>, mapPath: string): (v: Validation)
    ensures Missing(req.latitude) || Missing(req.longitude) ==>
              v == Reject(Failure(400, "Missing latitude or longitude"))
    ensures !Missing(req.latitude) && !Missing(req.longitude) ==>
              var cs := Conversions(req, parseFloat);
              var i := FirstFailure(cs);
              (i == 3 ==> v == Launch(TripArgs(cs[0].x, cs[1].x, cs[2].x, mapPath)))
              && (i < 3 && cs[i].ValueError? ==>
                    v == Reject(Failure(400, "Invalid numeric input for coordinates or radius")))
              && (i < 3 && cs[i].TypeError? ==> v == Reject(Unhandled))
  {
    if Missing(req.latitude) || Missing(req.longitude) then
      Reject(Failure(400, "Missing latitude or longitude"))
    else
      var lat := ToFloat(req.latitude.value, parseFloat);
      var lon := ToFloat(req.longitude.value, parseFloat);
      var radius := ToFloat(RadiusField(req), parseFloat);
      if lat.TypeError? then Reject(Unhandled)
      else if lat.ValueError? then Reject(Failure(400, "Invalid numeric input for coordinates or radius"))
      else if lon.TypeError? then Reject(Unhandled)
      else if lon.ValueError? then Reject(Failure(400, "Invalid numeric input for coordinates or radius"))
      else if radius.TypeError? then Reject(Unhandled)
      else if radius.ValueError? then Reject(Failure(400, "Invalid numeric input for coordinates or radius"))
      else Launch(TripArgs(lat.x, lon.x, radius.x, mapPath))
  }

  /** Lines 97-107: the worker's result and whether the map file exists
      afterwards decide the answer. */
  function Outcome(result: RunResult, mapExists: bool, mapPath: string): (r: Response)
    ensures r == Success(map["map_url" := JStr("/" + MapFilename)]) <==> result.success && mapExists
    ensures !(result.success && mapExists) ==> IsFailure(r) && r.JsonResponse? && r.status == 500
    ensures !result.success ==> r == Failure(500, result.error)
  {
    if result.success then
      if mapExists then Success(map["map_url" := JStr("/" + MapFilename)])
      else Failure(500, "Script executed but map file '" + mapPath + "' not found. Script output: "
                        + result.output + " Stderr: " + result.error)
    else Failure(500, result.error)
  }

  /** `plan_trip`: the worker's result and the map's existence are inputs, and
      they are looked at only when validation let the request through. */
  function PlanTrip(req: Request, parseFloat: string -> Option<real>, mapPath: string,
                    result: RunResult, mapExists: bool): (r: Response)
    ensures IsSuccess(r) <==> Validate(req, parseFloat, mapPath).Launch? && result.success && mapExists
    ensures Validate(req, parseFloat, mapPath).Reject? ==> r == Validate(req, parseFloat, mapPath).response
  {
    match Validate(req, parseFloat, mapPath)
    case Reject(response) => response
    case Launch(_) => Outcome(result, mapExists, mapPath)
  }

  /** A request with a missing or falsy coordinate, or a coordinate or
      radius that does not convert, is answered without the worker: the
      answer is the same whatever the worker would have done. */
  lemma RejectedWithoutWorker(req: Request, parseFloat: string -> Option<real>, mapPath: string,
                              r1: RunResult, e1: bool, r2: RunResult, e2: bool)
    requires Validate(req, parseFloat, mapPath).Reject?
    ensures PlanTrip(req, parseFloat, mapPath, r1, e1) == PlanTrip(req, parseFloat, mapPath, r2, e2)
  {}

  /** The endpoint runs the worker exactly when both coordinates are truthy
      and all three values convert to numbers, and it hands the worker those
      numbers and the map path. */
  lemma LaunchIff(req: Request, parseFloat: string -> Option<real>, mapPath: string)
    ensures Validate(req, parseFloat, mapPath).Launch? <==>
              !Missing(req.latitude) && !Missing(req.longitude)
              && FirstFailure(Conversions(req, parseFloat)) == 3
    ensures Validate(req, parseFloat, mapPath).Launch? ==>
              Validate(req, parseFloat, mapPath).args.output == mapPath
              && ToFloat(req.latitude.value, parseFloat) == Converted(Validate(req, parseFloat, mapPath).args.latitude)
              && ToFloat(req.longitude.value, parseFloat) == Converted(Validate(req, parseFloat, mapPath).args.longitude)
              && ToFloat(RadiusField(req), parseFloat) == Converted(Validate(req, parseFloat, mapPath).args.radiusMiles)
  {
    if !Missing(req.latitude) && !Missing(req.longitude) {
      var cs := Conversions(req, parseFloat);
      var i := FirstFailure(cs);
      assert i < 3 ==> !cs[i].Converted?;
    }
  }

  /** Coordinates given as the number 0 count as missing, so the equator and
      the prime meridian cannot be planned for. */
  lemma ZeroIsMissing(parseFloat: string -> Option<real>, mapPath: string, radius: Option<Json>)
    ensures Validate(Request(Some(JNum(0.0)), Some(JNum(-77.0)), radius), parseFloat, mapPath)
         == Reject(Failure(400, "Missing latitude or longitude"))
  {}

  /** A coordinate sent as a list or `null` radius raises a `TypeError`,
      which the endpoint does not catch, so the client gets Flask's 500 page
      and not the 400 envelope. */
  lemma TypeErrorEscapes(parseFloat: string -> Option<real>, mapPath: string)
    ensures Validate(Request(Some(JArr([JNum(1.0)])), Some(JNum(2.0)), None), parseFloat, mapPath) == Reject(Unhandled)
    ensures Validate(Request(Some(JNum(1.0)), Some(JNum(2.0)), Some(JNull)), parseFloat, mapPath) == Reject(Unhandled)
  {}
}
