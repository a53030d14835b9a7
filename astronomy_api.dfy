/** The star-chart client: HTTP Basic credentials, the chart request's
    payload, the reduction of the service's answer to a result dict, and the
    IP-geolocation lookup's handling of its answer. */
module AstronomyApi {
  import opened PyStr
  import opened PyJson
  import Bytes
  import Utf8
  import Base64

  /** `get_auth_string(app_id, app_secret)`: `None` when either part is
      missing or empty, otherwise the Base64 (section 4 of RFC 4648) of the
      UTF-8 bytes of `id:secret` (section 2 of RFC 7617). */
  function AuthString(appId: Option<string>, appSecret: Option<string>): (r: Option<string>)
    ensures r.None? <==> Blank(appId) || Blank(appSecret)
  {
    if Blank(appId) || Blank(appSecret) then None
    else Some(Base64.Encode(Utf8.Encode(appId.value + ":" + appSecret.value)))
  }

  /** The credentials decode back to `id:secret`, and their length is four
      characters per started group of three bytes. */
  lemma {:induction false} AuthStringDecodes(appId: string, appSecret: string)
    requires appId != "" && appSecret != ""
    ensures var r := AuthString(Some(appId), Some(appSecret));
            var bytes := Utf8.Encode(appId + ":" + appSecret);
            r.Some?
            && Base64.Decode(r.value) == Some(bytes)
            && Utf8.Decode(bytes) == Some(appId + ":" + appSecret)
            && |r.value| == 4 * ((|bytes| + 2) / 3)
  {
    var bytes := Utf8.Encode(appId + ":" + appSecret);
    Base64.DecodeEncode(bytes);
    Utf8.DecodeEncode(appId + ":" + appSecret);
    Base64.EncodedLength(bytes);
  }

  /** A server splitting the decoded pair at its first colon, as section 2
      of RFC 7617 prescribes, gets back the id and the secret whenever the id
      itself has no colon (the secret may). */
  lemma UserPassSplits(appId: string, appSecret: string)
    requires ':' !in appId
    ensures var pair := appId + ":" + appSecret;
            ':' in pair && IndexOf(pair, ':') == |appId|
            && pair[..IndexOf(pair, ':')] == appId && AfterFirst(pair, ':') == appSecret
  {
    var pair := appId + ":" + appSecret;
    assert pair[|appId|] == ':' && pair[..|appId|] == appId;
    IndexOfFirst(pair, ':', |appId|);
    assert pair[|appId| + 1..] == appSecret;
  }

  /** `obj[key]` on a dict holding `key`; `None` for anything else or a
      previous step that failed. */
  function Get(j: Option<Json>, key: string): Option<Json> {
    if j.Some? && j.value.JObj? && key in j.value.fields then Some(j.value.fields[key]) else None
  }

  const DefaultStyle: string := "default"

  /** Lines 71-94: the chart request body.  `date` is the caller's
      `date_str`, `today` the clock's date in `%Y-%m-%d` form, and `style`
      `None` when the caller left the default. */
  function Payload(latitude: Json, longitude: Json, date: Option<string>, style: Option<string>,
                   today: string): (p: Json)
    ensures Get(Get(Some(p), "observer"), "latitude") == Some(latitude)
    ensures Get(Get(Some(p), "observer"), "longitude") == Some(longitude)
    ensures Get(Get(Some(p), "observer"), "date") == Some(JStr(if date.Some? then date.value else today))
    ensures Get(Some(p), "style") == Some(JStr(if style.Some? then style.value else DefaultStyle))
    ensures Get(Get(Some(p), "view"), "type") == Some(JStr("area"))
    ensures Get(Get(Get(Some(p), "view"), "parameters"), "zoom") == Some(JNum(2.0))
    ensures Get(Get(Get(Get(Get(Some(p), "view"), "parameters"), "position"), "equatorial"), "rightAscension") == Some(JNum(1.0))
    ensures Get(Get(Get(Get(Get(Some(p), "view"), "parameters"), "position"), "equatorial"), "declination") == Some(latitude)
    ensures p.JObj? && p.fields.Keys == {"style", "observer", "view"}
  {
    var equatorial := JObj(map["rightAscension" := JNum(1.0), "declination" := latitude]);
    var parameters := JObj(map["position" := JObj(map["equatorial" := equatorial]), "zoom" := JNum(2.0)]);
    JObj(map[
      "style" := JStr(if style.Some? then style.value else DefaultStyle),
      "observer" := JObj(map["latitude" := latitude, "longitude" := longitude,
                             "date" := JStr(if date.Some? then date.value else today)]),
      "view" := JObj(map["type" := JStr("area"), "parameters" := parameters])])
  }

  /** How the chart request went.  `Responded` carries the status code, what
      `response.json()` made of the body, and the body's text. */
  datatype ChartCall =
    | Responded(status: int, body: Parsed, text: string)
    | TimedOut
    /** Any other `requests` failure before a response (connection refused, DNS). */
    | RequestFailed
    /** `TooManyRedirects`, which carries the last redirect answer (a 3xx)
        and its body's text. */
    | Redirected(text: string)
    /** An exception outside `requests`. */
    | Crashed

  const MissingCredentials: string := "Astronomy API credentials (APP_ID, APP_SECRET) missing."
  const FormatUnexpected: string := "Astronomy API response format unexpected."
  const TimeoutError: string := "Timeout connecting to Astronomy API."
  const RequestError: string := "Failed to generate star map."
  const UnexpectedPrefix: string := "An unexpected error occurred: "

  /** The error result `{"error": ..., "details": ...}`. */
  function ErrorWithDetails(error: string, details: Json): Json {
    JObj(map["error" := JStr(error), "details" := details])
  }

  /** What the answer's JSON holds at `data.imageUrl`, following Python's
      `in` and indexing: `Some(Some(url))` when present, `Some(None)` when a
      key is absent, `None` when a step raises `TypeError`. */
  function ImageUrl(data: Json): Option<Option<Json>> {
    match In("data", data)
    case None => None
    case Some(hasData) =>
      if !hasData then Some(None)
      else if !data.JObj? then None   // a list or text holding "data" cannot be indexed by it
      else
        var inner := data.fields["data"];
        match In("imageUrl", inner)
        case None => None
        case Some(hasUrl) =>
          if !hasUrl then Some(None)
          else if !inner.JObj? then None
          else Some(Some(inner.fields["imageUrl"]))
  }

  /** The URL is found exactly when the answer is a dict whose `"data"` is a
      dict holding `"imageUrl"`. */
  lemma ImageUrlFound(data: Json)
    ensures (ImageUrl(data).Some? && ImageUrl(data).value.Some?) <==>
              Get(Get(Some(data), "data"), "imageUrl").Some?
    ensures ImageUrl(data).Some? && ImageUrl(data).value.Some? ==>
              Some(ImageUrl(data).value.value) == Get(Get(Some(data), "data"), "imageUrl")
  {}

  /** The statuses `raise_for_status` raises for: 4xx and 5xx. */
  predicate ErrorStatus(status: int) {
    400 <= status < 600
  }

  /** The `response` a request failure carries: the answer for a 4xx/5xx
      status (`raise_for_status`) and the last answer of a redirect loop;
      none for a failure before any answer or for `requests`' own error on
      a body that is not JSON. */
  function FailedResponse(call: ChartCall): Option<string>
  {
    if call.Responded? && ErrorStatus(call.status) then Some(call.text)
    else if call.Redirected? then Some(call.text)
    else None
  }

  /** `requests.Response.__bool__` (`ok`): false exactly for a 4xx/5xx status;
      a redirect answer is a 3xx, so it is true. */
  predicate ResponseTruthy(call: ChartCall) {
    (call.Responded? && !ErrorStatus(call.status)) || call.Redirected?
  }

  /** Line 112 as written, `e.response.text if e.response else str(e)`:
      the test is the response's truthiness, not its presence. */
  function DetailsAsWritten(call: ChartCall, errorText: string): string {
    if FailedResponse(call).Some? && ResponseTruthy(call) then FailedResponse(call).value else errorText
  }

  /** As written, the details are `str(e)` for every 4xx/5xx answer and
      every failure without an answer: the 4xx/5xx response is falsy, so the
      service's error body never reaches the caller.  Only the 3xx answer a
      redirect loop carries is truthy, and its body is used. */
  lemma ErrorBodyNeverUsed(call: ChartCall, errorText: string)
    ensures !call.Redirected? ==> DetailsAsWritten(call, errorText) == errorText
    ensures call.Redirected? ==> DetailsAsWritten(call, errorText) == call.text
  {}

  /** The details evidently intended (`if e.response is not None`): the
      service's error body whenever there is one. */
  function Details(call: ChartCall, errorText: string): (d: string)
    ensures FailedResponse(call).Some? ==> d == FailedResponse(call).value
    ensures FailedResponse(call).None? ==> d == errorText
  {
    match FailedResponse(call)
    case Some(text) => text
    case None => errorText
  }

  /** A 4xx/5xx answer whose body differs from the exception text shows the
      body in the corrected details and not in the details as written. */
  lemma ErrorBodyLost(status: int, body: Parsed, text: string, errorText: string)
    requires ErrorStatus(status) && text != errorText
    ensures DetailsAsWritten(Responded(status, body, text), errorText) != text
    ensures Details(Responded(status, body, text), errorText) == text
  {}

  /** `get_star_chart_image_url(latitude, longitude)` after the request:
      `errorText` is `str(e)` of whatever exception was raised.  A 4xx/5xx
      status raises from `raise_for_status`, any other status does not; a
      body that is not JSON raises `requests`' own JSON error, also a
      request failure. */
  function ChartResult(call: ChartCall, errorText: string): (r: Json)
    ensures r.JObj?
    ensures "success" in r.fields <==>
              call.Responded? && !ErrorStatus(call.status) && call.body.Parsed?
              && ImageUrl(call.body.value).Some? && ImageUrl(call.body.value).value.Some?
    ensures "success" in r.fields ==>
              r.fields == map["success" := JBool(true), "image_url" := ImageUrl(call.body.value).value.value]
    ensures "success" !in r.fields ==> "error" in r.fields && r.fields["error"].JStr? && r.fields["error"].s != ""
    ensures call.TimedOut? ==> r == JObj(map["error" := JStr(TimeoutError)])
    ensures call.Responded? && ErrorStatus(call.status) ==> r == ErrorWithDetails(RequestError, JStr(call.text))
    ensures call.Redirected? ==> r == ErrorWithDetails(RequestError, JStr(call.text))
  {
    match call
    case TimedOut => JObj(map["error" := JStr(TimeoutError)])
    case RequestFailed => ErrorWithDetails(RequestError, JStr(Details(call, errorText)))
    case Redirected(_) => ErrorWithDetails(RequestError, JStr(Details(call, errorText)))
    case Crashed => JObj(map["error" := JStr(UnexpectedPrefix + errorText)])
    case Responded(status, body, text) =>
      if ErrorStatus(status) || body.DecodeError? then ErrorWithDetails(RequestError, JStr(Details(call, errorText)))
      else match ImageUrl(body.value)
        case None => JObj(map["error" := JStr(UnexpectedPrefix + errorText)])
        case Some(None) => ErrorWithDetails(FormatUnexpected, body.value)
        case Some(Some(url)) => JObj(map["success" := JBool(true), "image_url" := url])
  }

  /** A status of 600 or more is not raised for: an answer holding the
      image URL is a success whatever its status code. */
  lemma HighStatusSucceeds(status: int, url: Json, text: string, errorText: string)
    requires status >= 600
    ensures ChartResult(Responded(status, Parsed(JObj(map["data" := JObj(map["imageUrl" := url])])), text), errorText)
         == JObj(map["success" := JBool(true), "image_url" := url])
  {}

  /** `get_star_chart_image_url`: without credentials nothing is sent and
      the result is only the error. */
  function StarChart(appId: Option<string>, appSecret: Option<string>, call: ChartCall, errorText: string): (r: Json)
    ensures AuthString(appId, appSecret).None? ==> r == JObj(map["error" := JStr(MissingCredentials)])
    ensures AuthString(appId, appSecret).Some? ==> r == ChartResult(call, errorText)
  {
    if AuthString(appId, appSecret).None? then JObj(map["error" := JStr(MissingCredentials)])
    else ChartResult(call, errorText)
  }

  /** A successful dict answer missing the keys gives the format error with
      the whole answer as details. */
  lemma MissingImageUrl(status: int, fields: map<string, Json>, text: string, errorText: string)
    requires !ErrorStatus(status) && "data" !in fields
    ensures ChartResult(Responded(status, Parsed(JObj(fields)), text), errorText)
         == ErrorWithDetails(FormatUnexpected, JObj(fields))
  {}

  /** What the ipinfo request gave: the answer's JSON, or a failure. */
  datatype IpLookup = Found(data: Json) | LookupTimedOut | LookupFailed | LookupCrashed

  /** The location dict; absent fields of the answer are `null`. */
  datatype Location = Location(latitude: real, longitude: real, city: Json, region: Json,
                               country: Json, timezone: Json)

  /** The `loc` text when the answer is a dict holding a text there; any
      other answer raises or lacks it. */
  function LocText(data: Json): Option<string> {
    if data.JObj? && "loc" in data.fields && data.fields["loc"].JStr? then Some(data.fields["loc"].s)
    else None
  }

  /** `get_location_from_ip(ip, key)`, where `lookup` is what the request
      gave and `parseFloat` stands for `float()` on a text.  Every failure,
      raised or not, is `None`. */
  function LocationFromIp(key: Option<string>, lookup: IpLookup, parseFloat: string -> Option<real>)
    : (r: Option<Location>)
    ensures Blank(key) ==> r.None?
    ensures r.Some? ==>
              lookup.Found? && LocText(lookup.data).Some?
              && var parts := Split(LocText(lookup.data).value, ',');
              |parts| == 2 && parseFloat(parts[0]) == Some(r.value.latitude)
              && parseFloat(parts[1]) == Some(r.value.longitude)
    ensures r.Some? ==> r.value.city == GetOr(lookup.data.fields, "city", JNull)
                        && r.value.region == GetOr(lookup.data.fields, "region", JNull)
                        && r.value.country == GetOr(lookup.data.fields, "country", JNull)
                        && r.value.timezone == GetOr(lookup.data.fields, "timezone", JNull)
  {
    if Blank(key) then None
    else match lookup
      case Found(data) =>
        (match LocText(data)
         case None => None
         case Some(loc) =>
           var parts := Split(loc, ',');
           if |parts| != 2 || parseFloat(parts[0]).None? || parseFloat(parts[1]).None? then None
           else Some(Location(parseFloat(parts[0]).value, parseFloat(parts[1]).value,
                              GetOr(data.fields, "city", JNull), GetOr(data.fields, "region", JNull),
                              GetOr(data.fields, "country", JNull), GetOr(data.fields, "timezone", JNull))))
      case _ => None
  }

  /** A `loc` of the form `"lat,lon"` yields that latitude and longitude, in
      that order. */
  lemma LocSplits(key: string, fields: map<string, Json>, lat: string, lon: string,
                  parseFloat: string -> Option<real>, x: real, y: real)
    requires key != ""
    requires ',' !in lat && ',' !in lon
    requires parseFloat(lat) == Some(x) && parseFloat(lon) == Some(y)
    requires "loc" in fields && fields["loc"] == JStr(lat + "," + lon)
    ensures var r := LocationFromIp(Some(key), Found(JObj(fields)), parseFloat);
            r.Some? && r.value.latitude == x && r.value.longitude == y
  {
    SplitJoin([lat, lon], ',');
    assert Join([lat, lon], ',') == lat + "," + lon;
  }
}
