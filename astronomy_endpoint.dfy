/** The `/api/astronomy` endpoint: check the star-chart credentials, work
    out the client's location from its IP address (or fall back to a fixed
    place), ask for the chart, and wrap the result. */
module AstronomyEndpoint {
  import opened PyStr
  import opened PyJson
  import opened Http
  import opened AstronomyApi

  /** The server's settings: `APP_ID`, `APP_SECRET` and the ipinfo `API_KEY`. */
  datatype Env = Env(appId: Option<string>, appSecret: Option<string>, ipinfoKey: Option<string>)

  const FallbackLatitude: real := 38.8951
  const FallbackLongitude: real := -77.0364

  const NotConfigured: string := "Astronomy API credentials (APP_ID, APP_SECRET) not configured on server."
  const NoLocation: string := "Could not determine location from IP address."

  /** Lines 278-281: the `X-Forwarded-For` header if sent, else the peer's
      address; a value holding a comma is cut to its first entry, stripped.
      A value without a comma is kept as it is. */
  function ClientIp(forwardedFor: Option<string>, remoteAddr: Option<string>): (ip: Option<string>)
    ensures var raw := if forwardedFor.Some? then forwardedFor else remoteAddr;
            (raw.Some? && ',' in raw.value ==>
               ip.Some? && ',' !in ip.value && IsStripped(ip.value)
               && exists rest :: raw.value == Split(raw.value, ',')[0] + [','] + rest
                                 && ip.value == Strip(Split(raw.value, ',')[0]))
            && (!(raw.Some? && ',' in raw.value) ==> ip == raw)
  {
    var raw := if forwardedFor.Some? then forwardedFor else remoteAddr;
    if raw.Some? && ',' in raw.value then
      var first := Split(raw.value, ',')[0];
      FirstPartThenComma(raw.value);
      StripIsTrim(first);
      StripKeepsOut(first, ',');
      Some(Strip(first))
    else raw
  }

  /** A text holding a comma is its first part, the comma, and the rest. */
  lemma FirstPartThenComma(s: string)
    requires ',' in s
    ensures exists rest :: s == Split(s, ',')[0] + [','] + rest
  {
    SplitFirst(s, ',');
  }

  /** Stripping only removes characters. */
  lemma StripKeepsOut(s: string, c: char)
    requires c !in s
    ensures c !in Strip(s)
  {
    StripIsTrim(s);
    var i, j :| 0 <= i <= j <= |s| && Strip(s) == s[i..j];
    forall x | x in s[i..j]
      ensures x in s
    {
      var k :| 0 <= k < j - i && s[i..j][k] == x;
      assert s[i + k] == x;
    }
  }

  /** Line 285: the fixed location is used for a loopback address or when
      there is no ipinfo key. */
  predicate UsesFallback(ip: Option<string>, ipinfoKey: Option<string>) {
    ip == Some("127.0.0.1") || ip == Some("::1") || Blank(ipinfoKey)
  }

  /** Lines 283-293: the location as latitude and longitude; `lookup` is
      what the ipinfo request would give, used only without the fallback. */
  function ClientLocation(ip: Option<string>, ipinfoKey: Option<string>, lookup: IpLookup,
                          parseFloat: string -> Option<real>): (loc: Option<(real, real)>)
    ensures UsesFallback(ip, ipinfoKey) ==> loc == Some((FallbackLatitude, FallbackLongitude))
    ensures !UsesFallback(ip, ipinfoKey) ==>
              (loc.Some? <==> LocationFromIp(ipinfoKey, lookup, parseFloat).Some?)
              && (loc.Some? ==> loc.value == (LocationFromIp(ipinfoKey, lookup, parseFloat).value.latitude,
                                              LocationFromIp(ipinfoKey, lookup, parseFloat).value.longitude))
  {
    if UsesFallback(ip, ipinfoKey) then Some((FallbackLatitude, FallbackLongitude))
    else match LocationFromIp(ipinfoKey, lookup, parseFloat)
      case None => None
      case Some(l) => Some((l.latitude, l.longitude))
  }

  const ChartFailed: string := "Failed to generate star chart."

  /** Lines 307-314: the star-chart result turned into the answer. */
  function ChartResponse(result: Json): (r: Response)
    requires result.JObj?
    requires "success" in result.fields && Truthy(result.fields["success"]) ==> "image_url" in result.fields
    ensures IsSuccess(r) <==> "success" in result.fields && Truthy(result.fields["success"])
    ensures IsSuccess(r) ==>
              r == Success(map["data" := JObj(map["image_url" := result.fields["image_url"]])])
    ensures !IsSuccess(r) ==>
              r == JsonResponse(500, JObj(map["success" := JBool(false),
                                              "error" := GetOr(result.fields, "error", JStr(ChartFailed)),
                                              "details" := GetOr(result.fields, "details", JNull)]))
  {
    if "success" in result.fields && Truthy(result.fields["success"]) then
      Success(map["data" := JObj(map["image_url" := result.fields["image_url"]])])
    else
      JsonResponse(500, JObj(map["success" := JBool(false),
                                 "error" := GetOr(result.fields, "error", JStr(ChartFailed)),
                                 "details" := GetOr(result.fields, "details", JNull)]))
  }

  /** `get_astronomy_info`.  The request headers, the ipinfo answer, the
      chart service's answer and the exception text are inputs. */
  function Astronomy(env: Env, forwardedFor: Option<string>, remoteAddr: Option<string>, lookup: IpLookup,
                     parseFloat: string -> Option<real>, call: ChartCall, errorText: string): (r: Response)
    ensures Blank(env.appId) || Blank(env.appSecret) ==> r == Failure(500, NotConfigured)
    ensures !(Blank(env.appId) || Blank(env.appSecret))
            && ClientLocation(ClientIp(forwardedFor, remoteAddr), env.ipinfoKey, lookup, parseFloat).None? ==>
              r == Failure(500, NoLocation)
  {
    if Blank(env.appId) || Blank(env.appSecret) then Failure(500, NotConfigured)
    else match ClientLocation(ClientIp(forwardedFor, remoteAddr), env.ipinfoKey, lookup, parseFloat)
      case None => Failure(500, NoLocation)
      case Some(_) => ChartResponse(StarChart(env.appId, env.appSecret, call, errorText))
  }

  /** The chart request the endpoint sends, once credentials and a location
      are there: no date and the default style, so today's date is used. */
  function ChartRequest(env: Env, forwardedFor: Option<string>, remoteAddr: Option<string>, lookup: IpLookup,
                        parseFloat: string -> Option<real>, today: string): (sent: Option<Json>)
    ensures var loc := ClientLocation(ClientIp(forwardedFor, remoteAddr), env.ipinfoKey, lookup, parseFloat);
            (sent.Some? <==> !Blank(env.appId) && !Blank(env.appSecret) && loc.Some?)
            && (sent.Some? ==>
                  Get(Get(sent, "observer"), "latitude") == Some(JNum(loc.value.0))
                  && Get(Get(sent, "observer"), "longitude") == Some(JNum(loc.value.1))
                  && Get(Get(sent, "observer"), "date") == Some(JStr(today))
                  && Get(Some(sent.value), "style") == Some(JStr(DefaultStyle)))
  {
    if AuthString(env.appId, env.appSecret).None? then None
    else match ClientLocation(ClientIp(forwardedFor, remoteAddr), env.ipinfoKey, lookup, parseFloat)
      case None => None
      case Some((lat, lon)) => Some(Payload(JNum(lat), JNum(lon), None, None, today))
  }

  /** The answer is a success exactly when the credentials are set, a
      location was found, and the chart service gave an image URL. */
  lemma SuccessIff(env: Env, forwardedFor: Option<string>, remoteAddr: Option<string>, lookup: IpLookup,
                   parseFloat: string -> Option<real>, call: ChartCall, errorText: string)
    ensures IsSuccess(Astronomy(env, forwardedFor, remoteAddr, lookup, parseFloat, call, errorText)) <==>
              !Blank(env.appId) && !Blank(env.appSecret)
              && ClientLocation(ClientIp(forwardedFor, remoteAddr), env.ipinfoKey, lookup, parseFloat).Some?
              && "success" in ChartResult(call, errorText).fields
  {}

  /** With a loopback address or without an ipinfo key, the answer and the
      request sent do not depend on what ipinfo would say, and the chart is
      centred on the fixed location. */
  lemma FallbackIgnoresLookup(env: Env, forwardedFor: Option<string>, remoteAddr: Option<string>,
                              l1: IpLookup, l2: IpLookup, parseFloat: string -> Option<real>,
                              call: ChartCall, errorText: string, today: string)
    requires UsesFallback(ClientIp(forwardedFor, remoteAddr), env.ipinfoKey)
    ensures Astronomy(env, forwardedFor, remoteAddr, l1, parseFloat, call, errorText)
         == Astronomy(env, forwardedFor, remoteAddr, l2, parseFloat, call, errorText)
    ensures ChartRequest(env, forwardedFor, remoteAddr, l1, parseFloat, today)
         == ChartRequest(env, forwardedFor, remoteAddr, l2, parseFloat, today)
    ensures var sent := ChartRequest(env, forwardedFor, remoteAddr, l1, parseFloat, today);
            sent.Some? ==>
              Get(Get(Some(sent.value), "observer"), "latitude") == Some(JNum(FallbackLatitude))
              && Get(Get(Some(sent.value), "observer"), "longitude") == Some(JNum(FallbackLongitude))
  {}

  /** A request from behind proxies is located by the first address in
      `X-Forwarded-For`, whatever the peer address is. */
  lemma FirstForwardedAddress(first: string, rest: string, r1: Option<string>, r2: Option<string>)
    requires ',' !in first
    ensures ClientIp(Some(first + "," + rest), r1) == ClientIp(Some(first + "," + rest), r2)
    ensures ClientIp(Some(first + "," + rest), r1) == Some(Strip(first))
  {
    var s := first + "," + rest;
    assert s[|first|] == ',';
    SplitAtFirst(first, rest, ',');
  }

  /** A service error answer becomes a 500 carrying the request-failure
      message and the service's body as details. */
  lemma ServiceErrorDetails(env: Env, forwardedFor: Option<string>, remoteAddr: Option<string>,
                            lookup: IpLookup, parseFloat: string -> Option<real>,
                            status: int, body: Parsed, text: string, errorText: string)
    requires !Blank(env.appId) && !Blank(env.appSecret)
    requires ClientLocation(ClientIp(forwardedFor, remoteAddr), env.ipinfoKey, lookup, parseFloat).Some?
    requires ErrorStatus(status)
    ensures Astronomy(env, forwardedFor, remoteAddr, lookup, parseFloat, Responded(status, body, text), errorText)
         == JsonResponse(500, JObj(map["success" := JBool(false), "error" := JStr(RequestError),
                                       "details" := JStr(text)]))
  {}
}
