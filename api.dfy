/**
 * The HTTP surface of the monitor: the routes `setup` registers on the
 * port-80 WebServer, and the responses of `handleRoot`,
 * `handleObservation` and `handleNotFound`. A response is modelled as its
 * status, content type, extra headers and a structured body; the JSON
 * document is the map of keys ArduinoJson would serialise.
 */
module Api {
  import opened Wrappers
  import opened Platform
  import opened Sampler
  import opened Naming

  datatype HttpMethod = Get | Post | Put | Patch | Delete | Options | Head

  /** A request as the WebServer parses it: method and path. */
  datatype Request = Request(verb: HttpMethod, uri: string)

  datatype Handler = RootHandler | ObservationHandler | NotFoundHandler

  /** One `server.on(uri, method, handler)` registration. */
  datatype Route = Route(uri: string, verb: HttpMethod, handler: Handler)

  const RootPath: string := "/"
  const ObservationPath: string := "/api/v1/observation"

  /** The routes `setup` registers, in registration order, and the `onNotFound` handler. */
  const Routes: seq<Route> := [Route(RootPath, Get, RootHandler), Route(ObservationPath, Get, ObservationHandler)]
  const NotFound: Handler := NotFoundHandler

  datatype JsonValue = JString(str: string) | JFloat(number: Float32) | JInt(integer: int)

  datatype Body =
    | Text(text: string)
    /** The status page: device id, `<hostname>.local` and the station IP, inside fixed markup. */
    | StatusPage(deviceId: string, mdnsName: string, ip: string)
    | Json(doc: map<string, JsonValue>)

  datatype Response = Response(status: int, contentType: string, headers: seq<(string, string)>, body: Body)

  /** What the handlers read at request time besides the cached snapshot. */
  datatype RequestEnv = RequestEnv(
    /** `time(&now)`: seconds since the epoch, whatever the clock holds. */
    epochSeconds: int,
    /** `getLocalTime` then `strftime("%Y-%m-%dT%H:%M:%SZ")`; None when the clock is not set. */
    isoTime: Option<string>,
    /** `WiFi.localIP().toString()`. */
    ip: string)

  /** The headers `handleObservation` sends before the body, in order. */
  const CorsHeaders: seq<(string, string)> := [
    ("Access-Control-Allow-Origin", "*"),
    ("Access-Control-Allow-Methods", "GET, OPTIONS"),
    ("Access-Control-Allow-Headers", "Content-Type")]

  /** The keys every observation document carries. */
  const ObservationKeys: set<string> := {
    "device_id", "temperature_celsius", "humidity_percent", "pressure_hpa", "timestamp", "last_read_ms"}

  function HandleRoot(deviceId: string, env: RequestEnv): Response {
    Response(200, "text/html", [], StatusPage(deviceId, Hostname(deviceId) + ".local", env.ip))
  }

  function HandleNotFound(): Response {
    Response(404, "text/plain", [], Text("Not Found"))
  }

  /** The JSON document of `handleObservation`; "timestamp_iso" only when the clock query succeeds. */
  function ObservationDoc(deviceId: string, s: Snapshot, env: RequestEnv): map<string, JsonValue> {
    var doc := map[
      "device_id" := JString(deviceId),
      "temperature_celsius" := JFloat(s.temperature),
      "humidity_percent" := JFloat(s.humidity),
      "pressure_hpa" := JFloat(s.pressure),
      "timestamp" := JInt(env.epochSeconds)];
    var doc := if env.isoTime.Some? then doc["timestamp_iso" := JString(env.isoTime.value)] else doc;
    doc["last_read_ms" := JInt(s.lastSensorRead)]
  }

  function HandleObservation(deviceId: string, s: Snapshot, env: RequestEnv): Response {
    Response(200, "application/json", CorsHeaders, Json(ObservationDoc(deviceId, s, env)))
  }

  function Invoke(h: Handler, deviceId: string, s: Snapshot, env: RequestEnv): Response {
    match h
    case RootHandler => HandleRoot(deviceId, env)
    case ObservationHandler => HandleObservation(deviceId, s, env)
    case NotFoundHandler => HandleNotFound()
  }

  predicate Matches(r: Route, req: Request) {
    r.verb == req.verb && r.uri == req.uri
  }

  /** The handler of the first registered route whose method and path match the request. */
  function FindRoute(routes: seq<Route>, req: Request): (h: Option<Handler>)
    ensures h.None? <==> forall i :: 0 <= i < |routes| ==> !Matches(routes[i], req)
    ensures h.Some? ==> exists i :: 0 <= i < |routes| && Matches(routes[i], req) && routes[i].handler == h.value &&
                                    forall j :: 0 <= j < i ==> !Matches(routes[j], req)
  {
    if routes == [] then None
    else if Matches(routes[0], req) then Some(routes[0].handler)
    else
      var h := FindRoute(routes[1..], req);
      assert forall i :: 1 <= i < |routes| ==> routes[1..][i - 1] == routes[i];
      h
  }

  /** The response the WebServer produces for a request: first matching route, else the not-found handler. */
  function Serve(routes: seq<Route>, notFound: Handler, req: Request, deviceId: string, s: Snapshot, env: RequestEnv): Response {
    match FindRoute(routes, req)
    case Some(h) => Invoke(h, deviceId, s, env)
    case None => Invoke(notFound, deviceId, s, env)
  }

  /**
   * The route table: GET / gives 200 text/html, GET /api/v1/observation
   * gives 200 application/json, every other request 404 text/plain
   * "Not Found".
   */
  lemma {:induction false} RouteTable(req: Request, deviceId: string, s: Snapshot, env: RequestEnv)
    ensures var r := Serve(Routes, NotFound, req, deviceId, s, env);
      && (req == Request(Get, RootPath) ==> r.status == 200 && r.contentType == "text/html")
      && (req == Request(Get, ObservationPath) ==> r.status == 200 && r.contentType == "application/json")
      && (req != Request(Get, RootPath) && req != Request(Get, ObservationPath) ==>
            r == Response(404, "text/plain", [], Text("Not Found")))
  {
    assert Routes[0] == Route(RootPath, Get, RootHandler);
    assert Routes[1] == Route(ObservationPath, Get, ObservationHandler);
  }

  /** The status page names the device and its mDNS host. */
  lemma StatusPageNamesDevice(deviceId: string, s: Snapshot, env: RequestEnv)
    ensures var r := Serve(Routes, NotFound, Request(Get, RootPath), deviceId, s, env);
      r.body == StatusPage(deviceId, Hostname(deviceId) + ".local", env.ip)
  {
    RouteTable(Request(Get, RootPath), deviceId, s, env);
  }

  /** What a client reads back out of an observation document. */
  datatype Observation = Observation(
    deviceId: string, temperature: Float32, humidity: Float32, pressure: Float32,
    timestamp: int, timestampIso: Option<string>, lastReadMs: int)

  /** A client's decoding of an observation document; None if a required field is missing or ill-typed. */
  function ParseObservation(doc: map<string, JsonValue>): Option<Observation> {
    if && "device_id" in doc && doc["device_id"].JString?
       && "temperature_celsius" in doc && doc["temperature_celsius"].JFloat?
       && "humidity_percent" in doc && doc["humidity_percent"].JFloat?
       && "pressure_hpa" in doc && doc["pressure_hpa"].JFloat?
       && "timestamp" in doc && doc["timestamp"].JInt?
       && "last_read_ms" in doc && doc["last_read_ms"].JInt?
    then
      var iso := if "timestamp_iso" in doc && doc["timestamp_iso"].JString? then Some(doc["timestamp_iso"].str) else None;
      Some(Observation(doc["device_id"].str, doc["temperature_celsius"].number, doc["humidity_percent"].number,
                       doc["pressure_hpa"].number, doc["timestamp"].integer, iso, doc["last_read_ms"].integer))
    else None
  }

  /**
   * Every GET /api/v1/observation response carries the three CORS headers;
   * its document has exactly the six fixed keys, plus "timestamp_iso" iff
   * the clock query succeeded; and a client reads back the device id, the
   * cached readings and `lastSensorRead` verbatim.
   */
  lemma {:induction false} ObservationReflectsSnapshot(deviceId: string, s: Snapshot, env: RequestEnv)
    ensures var r := Serve(Routes, NotFound, Request(Get, ObservationPath), deviceId, s, env);
      && r.status == 200
      && r.headers == CorsHeaders
      && r.body.Json?
      && r.body.doc.Keys == ObservationKeys + (if env.isoTime.Some? then {"timestamp_iso"} else {})
      && ParseObservation(r.body.doc) ==
           Some(Observation(deviceId, s.temperature, s.humidity, s.pressure, env.epochSeconds, env.isoTime, s.lastSensorRead))
  {
    RouteTable(Request(Get, ObservationPath), deviceId, s, env);
    var doc := ObservationDoc(deviceId, s, env);
    assert "device_id" in doc && "temperature_celsius" in doc && "humidity_percent" in doc;
    assert "pressure_hpa" in doc && "timestamp" in doc && "last_read_ms" in doc;
    assert env.isoTime.Some? <==> "timestamp_iso" in doc;
  }
}
