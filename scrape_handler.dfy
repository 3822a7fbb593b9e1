/**
 * The request handling of `RequestHandler.do_GET` and `return_error`
 * (src/axis_exporter/exporter.py:66-175): the camera's address and
 * credentials are read from the query string (the credentials from the
 * environment first), each missing one answered with a 500; a request for
 * the metrics endpoint with everything present fetches the parameter list
 * and the temperature status from the camera and records the readings;
 * `/` gets the index page's headers; anything else a 404 unless a 500 was
 * already sent.
 *
 * What the handler writes to the socket is a log of `Response`s, what it
 * asks of the camera a log of `DeviceRequest`s and what it sets on the
 * gauges a log of `Observation`s. The camera is a `Device` that gives one
 * reply (or none) to each of the two requests. An exception that escapes
 * `do_GET` ends the handling: it is the `Crash` the handling ends with.
 */
module ScrapeHandler {
  import opened Wrappers
  import opened Text
  import opened FlatKey
  import opened Metrics

  /** exporter.py:19-20. */
  const TemperatureApi := "/axis-cgi/temperaturecontrol.cgi?action=statusall"
  const ParameterListApi := "/axis-cgi/param.cgi?action=list"

  /**
   * The values `parse_qs` gives a name: at least one, and none of them
   * empty, since `keep_blank_values` is off and a blank `name=` is dropped.
   */
  type Values = vs: seq<string> | |vs| >= 1 && forall i :: 0 <= i < |vs| ==> vs[i] != "" witness ["0"]

  /** The result of `parse_qs(urlparse(self.path).query)`. */
  type Query = map<string, Values>

  /** The request as `do_GET` sees it: `urlparse(self.path).path` and the parsed query. */
  datatype Request = Request(path: string, query: Query)

  /** `os.getenv('AXIS_USERNAME')` and `os.getenv('AXIS_PASSWORD')`. */
  datatype Env = Env(user: Option<string>, password: Option<string>)

  /** What `requests.get` gives for one URL: the response text, or an exception. */
  datatype Fetch = Reply(text: string) | Unreachable

  /** The camera's answers to the parameter-list request and to the temperature request. */
  datatype Device = Device(parameters: Fetch, temperatures: Fetch)

  /** One `requests.get(url, auth=HTTPDigestAuth(user, password))`. */
  datatype DeviceRequest = DeviceRequest(url: string, user: string, password: string)

  /** The body written after the headers: none, or the registry's exposition text. */
  datatype Body = NoBody | Exposition

  /** One `send_response`, its headers and the body written after them. */
  datatype Response = Response(status: int, contentType: Option<string>, body: Body)

  /** `return_error` (exporter.py:66-68). */
  const ServerError := Response(500, None, NoBody)
  /** exporter.py:174-175. */
  const NotFound := Response(404, None, NoBody)
  /** exporter.py:155-158. */
  const MetricsPage := Response(200, Some("text/plain"), Exposition)
  /** exporter.py:161-163: the body that follows is never written (see `TextBody`). */
  const IndexHeaders := Response(200, Some("text/html"), NoBody)

  /** The exception that ends `do_GET`. */
  datatype Crash =
    | BadPort(text: string)       // `int()` of the port raises ValueError, which `except KeyError` lets through
    | DeviceError                 // `requests.get` raises
    | BadReply(error: ParseError) // `parse_response` raises on the camera's text
    | MissingData(lookup: SchemaError) // a lookup in the parsed text raises
    | TextBody                    // `self.wfile.write` of a `str` raises TypeError

  datatype Outcome = Outcome(sent: seq<Response>, fetches: seq<DeviceRequest>, observations: seq<Observation>, crash: Option<Crash>)

  /** The camera's address as exporter.py:90-92 reads it. */
  datatype Site = Site(host: string, port: int, proto: string)

  /** Why exporter.py:89-92 does not give a site. */
  datatype SiteError = MissingParameter(name: string) | PortNotInteger(text: string)

  /**
   * exporter.py:89-92: `camera_host`, then `int(camera_port)`, then
   * `camera_proto`; the first lookup that raises ends the block.
   */
  function ReadSite(q: Query): (r: Result<Site, SiteError>)
    ensures r.Ok? <==> && "camera_host" in q && "camera_port" in q && "camera_proto" in q
                       && ParseInt(q["camera_port"][0]).Some?
    ensures r.Ok? ==> r.value == Site(q["camera_host"][0], ParseInt(q["camera_port"][0]).value, q["camera_proto"][0])
    ensures r == Err(MissingParameter("camera_host")) <==> "camera_host" !in q
    ensures r == Err(MissingParameter("camera_port")) <==> "camera_host" in q && "camera_port" !in q
    ensures (r.Err? && r.error.PortNotInteger?) <==>
            "camera_host" in q && "camera_port" in q && ParseInt(q["camera_port"][0]).None?
    ensures r.Err? && r.error.PortNotInteger? ==> r.error.text == q["camera_port"][0]
  {
    if "camera_host" !in q then Err(MissingParameter("camera_host"))
    else if "camera_port" !in q then Err(MissingParameter("camera_port"))
    else
      match ParseInt(q["camera_port"][0])
      case None => Err(PortNotInteger(q["camera_port"][0]))
      case Some(port) =>
        if "camera_proto" !in q then Err(MissingParameter("camera_proto"))
        else Ok(Site(q["camera_host"][0], port, q["camera_proto"][0]))
  }

  /**
   * exporter.py:98-112: a credential set in the environment is used as it
   * is; otherwise the query's value, or nothing (and a 500) when it has none.
   */
  function Credential(env: Option<string>, q: Query, name: string): (r: Option<string>)
    ensures env.Some? ==> r == env
    ensures env.None? ==> (r.Some? <==> name in q)
    ensures env.None? && name in q ==> r == Some(q[name][0])
  {
    if env.Some? then env
    else if name in q then Some(q[name][0])
    else None
  }

  /** The `return_error` of one check of exporter.py:89-112, if it failed. */
  function ErrorIf(failed: bool): seq<Response> {
    if failed then [ServerError] else []
  }

  /** How many of the three checks of exporter.py:89-112 called `return_error`. */
  function MissingCount(site: Result<Site, SiteError>, user: Option<string>, password: Option<string>): nat {
    (if site.Err? then 1 else 0) + (if user.None? then 1 else 0) + (if password.None? then 1 else 0)
  }

  /** `n` calls of `return_error`. */
  function ServerErrors(n: nat): (rs: seq<Response>)
    ensures |rs| == n && forall i :: 0 <= i < n ==> rs[i] == ServerError
  {
    if n == 0 then [] else [ServerError] + ServerErrors(n - 1)
  }

  /**
   * The guard of exporter.py:115: the metrics endpoint, and host, user,
   * password and port truthy (a non-empty string, a non-zero int) and a
   * protocol that is not None.
   */
  predicate ScrapeAllowed(path: string, endpoint: string, site: Result<Site, SiteError>, user: Option<string>, password: Option<string>)
    ensures ScrapeAllowed(path, endpoint, site, user, password) ==> MissingCount(site, user, password) == 0
  {
    && path == endpoint
    && site.Ok? && site.value.host != "" && site.value.port != 0
    && user.Some? && user.value != ""
    && password.Some? && password.value != ""
  }

  /** `"{}://{}:{}".format(camera_proto, camera_host, camera_port)` (exporter.py:117). */
  function CameraUrl(site: Site): (url: string)
  {
    var prefix := site.proto + "://" + site.host + ":";
    var url := prefix + IntToString(site.port);
    ParseIntToString(site.port);
    assert url[..|prefix|] == prefix && url[|prefix|..] == IntToString(site.port);
    url
  }

  /**
   * The camera's base URL is `proto://host:` followed by the port, written
   * so that `int()` reads the same number back.
   */
  lemma CameraUrlParts(site: Site)
    ensures var prefix := site.proto + "://" + site.host + ":";
      && |prefix| < |CameraUrl(site)|
      && CameraUrl(site)[..|prefix|] == prefix
      && ParseInt(CameraUrl(site)[|prefix|..]) == Some(site.port)
  {
    var prefix := site.proto + "://" + site.host + ":";
    ParseIntToString(site.port);
    assert CameraUrl(site)[..|prefix|] == prefix && CameraUrl(site)[|prefix|..] == IntToString(site.port);
  }

  /** The request of exporter.py:119-120. */
  function ParameterRequest(site: Site, user: string, password: string): DeviceRequest {
    DeviceRequest(CameraUrl(site) + ParameterListApi, user, password)
  }

  /** The request of exporter.py:125-126. */
  function TemperatureRequest(site: Site, user: string, password: string): DeviceRequest {
    DeviceRequest(CameraUrl(site) + TemperatureApi, user, password)
  }

  /**
   * exporter.py:119-123: the camera's parameter list, parsed, and the model
   * name read from it.
   */
  function ModelFrom(reply: Fetch): (r: Result<string, Crash>)
    ensures reply.Unreachable? ==> r == Err(DeviceError)
    ensures reply.Reply? && Parse(reply.text).Err? ==> r == Err(BadReply(Parse(reply.text).error))
    ensures r.Ok? ==> reply.Reply? && Parse(reply.text).Ok? && ProductName(Parse(reply.text).value) == Ok(r.value)
    ensures reply.Reply? && Parse(reply.text).Ok? && ProductName(Parse(reply.text).value).Ok? ==>
            r == Ok(ProductName(Parse(reply.text).value).value)
    ensures reply.Reply? && Parse(reply.text).Ok? && ProductName(Parse(reply.text).value).Err? ==>
            r == Err(MissingData(ProductName(Parse(reply.text).value).error))
  {
    match reply
    case Unreachable => Err(DeviceError)
    case Reply(text) =>
      match Parse(text)
      case Err(e) => Err(BadReply(e))
      case Ok(parameters) =>
        match ProductName(parameters)
        case Err(e) => Err(MissingData(e))
        case Ok(model) => Ok(model)
  }

  /** exporter.py:125-127: the camera's temperature status, parsed. */
  function ReadingsFrom(reply: Fetch): (r: Result<Dict, Crash>)
    ensures reply.Unreachable? ==> r == Err(DeviceError)
    ensures reply.Reply? ==> (r.Ok? <==> Parse(reply.text).Ok?)
    ensures r.Ok? ==> reply.Reply? && r.value == Parse(reply.text).value
    ensures reply.Reply? && Parse(reply.text).Err? ==> r == Err(BadReply(Parse(reply.text).error))
  {
    match reply
    case Unreachable => Err(DeviceError)
    case Reply(text) =>
      match Parse(text)
      case Err(e) => Err(BadReply(e))
      case Ok(readings) => Ok(readings)
  }

  /**
   * The second half of the metrics branch (exporter.py:125-158): fetch and
   * parse the temperatures, set the gauges, then answer with the exposition.
   */
  function Measure(site: Site, user: string, password: string, model: string, reply: Fetch): (o: Outcome)
    ensures o.fetches == [TemperatureRequest(site, user, password)]
    ensures o.crash.None? <==> o.sent == [MetricsPage]
    ensures o.crash.Some? <==> o.sent == []
    ensures o.observations != [] ==> ReadingsFrom(reply).Ok?
  {
    var second := TemperatureRequest(site, user, password);
    match ReadingsFrom(reply)
    case Err(c) => Outcome([], [second], [], Some(c))
    case Ok(readings) =>
      var m := MapReadings(model, site.host, readings);
      if m.failure.Some? then Outcome([], [second], m.observations, Some(MissingData(m.failure.value)))
      else Outcome([MetricsPage], [second], m.observations, None)
  }

  /**
   * The metrics branch (exporter.py:117-158): fetch and parse the parameter
   * list and read the model, then `Measure`.
   */
  function Scrape(site: Site, user: string, password: string, device: Device): (o: Outcome)
    ensures 1 <= |o.fetches| <= 2
    ensures o.fetches[0] == ParameterRequest(site, user, password)
    ensures |o.fetches| == 2 ==> o.fetches[1] == TemperatureRequest(site, user, password)
    ensures |o.fetches| == 2 <==> ModelFrom(device.parameters).Ok?
    ensures o.crash.None? <==> o.sent == [MetricsPage]
    ensures o.crash.Some? <==> o.sent == []
    ensures o.observations != [] ==> |o.fetches| == 2
  {
    var first := ParameterRequest(site, user, password);
    match ModelFrom(device.parameters)
    case Err(c) => Outcome([], [first], [], Some(c))
    case Ok(model) =>
      var r := Measure(site, user, password, model, device.temperatures);
      assert ([first] + r.fetches)[1] == r.fetches[0];
      Outcome(r.sent, [first] + r.fetches, r.observations, r.crash)
  }

  /**
   * What `do_GET` does after the parameter checks (exporter.py:115-175):
   * the metrics branch, the index page, or a 404 when no check failed.
   */
  function Respond(path: string, endpoint: string, site: Result<Site, SiteError>, user: Option<string>, password: Option<string>, device: Device): (o: Outcome)
    ensures |o.sent| <= 1
    ensures o.fetches != [] <==> ScrapeAllowed(path, endpoint, site, user, password)
    ensures o.crash.None? && MissingCount(site, user, password) == 0 ==> o.sent != []
  {
    if ScrapeAllowed(path, endpoint, site, user, password) then Scrape(site.value, user.value, password.value, device)
    else if path == "/" then Outcome([IndexHeaders], [], [], Some(TextBody))
    else if MissingCount(site, user, password) == 0 then Outcome([NotFound], [], [], None)
    else Outcome([], [], [], None)
  }

  /** Everything one call of `do_GET` does, in order. */
  function Handle(req: Request, env: Env, endpoint: string, device: Device): (o: Outcome)
    ensures o.crash.None? ==> o.sent != []
    ensures o.fetches != [] ==> o.sent == [] || o.sent == [MetricsPage]
  {
    var site := ReadSite(req.query);
    if site.Err? && site.error.PortNotInteger? then Outcome([], [], [], Some(BadPort(site.error.text)))
    else
      var user := Credential(env.user, req.query, "camera_user");
      var password := Credential(env.password, req.query, "camera_password");
      var r := Respond(req.path, endpoint, site, user, password, device);
      Outcome(ServerErrors(MissingCount(site, user, password)) + r.sent, r.fetches, r.observations, r.crash)
  }

  /**
   * The handler object: the responses it has written, the requests it has
   * made of cameras and the gauge values it has set.
   */
  class RequestHandler {
    var sent: seq<Response>
    var fetched: seq<DeviceRequest>
    var observed: seq<Observation>

    constructor ()
      ensures sent == [] && fetched == [] && observed == []
    {
      sent, fetched, observed := [], [], [];
    }

    /** `send_response`, `send_header`s and `end_headers`, with what `wfile.write` then wrote. */
    method Send(r: Response)
      modifies this
      ensures sent == old(sent) + [r] && fetched == old(fetched) && observed == old(observed)
    {
      sent := sent + [r];
    }

    /** `return_error` (exporter.py:66-68): a 500 with no headers of its own. */
    method ReturnError()
      modifies this
      ensures sent == old(sent) + [ServerError] && fetched == old(fetched) && observed == old(observed)
    {
      Send(ServerError);
    }

    /** `requests.get` on the camera: the request is made whatever the answer. */
    method Get(request: DeviceRequest, reply: Fetch) returns (r: Fetch)
      modifies this
      ensures r == reply
      ensures fetched == old(fetched) + [request] && sent == old(sent) && observed == old(observed)
    {
      fetched := fetched + [request];
      r := reply;
    }

    /**
     * exporter.py:89-96: the site parameters, one 500 when one is missing;
     * a port that is not an integer raises before anything is sent.
     */
    method ReadSiteParameters(q: Query) returns (site: Result<Site, SiteError>)
      modifies this
      ensures site == ReadSite(q)
      ensures sent == old(sent) + ErrorIf(site.Err? && site.error.MissingParameter?)
      ensures fetched == old(fetched) && observed == old(observed)
    {
      if "camera_host" !in q {
        ReturnError();
        return Err(MissingParameter("camera_host"));
      }
      var host := q["camera_host"][0];
      if "camera_port" !in q {
        ReturnError();
        return Err(MissingParameter("camera_port"));
      }
      var port := ParseInt(q["camera_port"][0]);
      if port.None? {
        return Err(PortNotInteger(q["camera_port"][0]));
      }
      if "camera_proto" !in q {
        ReturnError();
        return Err(MissingParameter("camera_proto"));
      }
      site := Ok(Site(host, port.value, q["camera_proto"][0]));
    }

    /** exporter.py:98-112: one credential, with a 500 when neither source has it. */
    method ReadCredential(env: Option<string>, q: Query, name: string) returns (value: Option<string>)
      modifies this
      ensures value == Credential(env, q, name)
      ensures sent == old(sent) + ErrorIf(value.None?)
      ensures fetched == old(fetched) && observed == old(observed)
    {
      value := env;
      if value.None? {
        if name in q {
          value := Some(q[name][0]);
        } else {
          ReturnError();
        }
      }
    }

    /** exporter.py:119-123: the request, `parse_response`, then the model lookup. */
    method FetchModel(request: DeviceRequest, reply: Fetch) returns (r: Result<string, Crash>)
      modifies this
      ensures r == ModelFrom(reply)
      ensures fetched == old(fetched) + [request] && sent == old(sent) && observed == old(observed)
    {
      var response := Get(request, reply);
      if response.Unreachable? {
        return Err(DeviceError);
      }
      var data := ParseResponse(response.text);
      if data.Err? {
        return Err(BadReply(data.error));
      }
      var model := ProductName(data.value);
      if model.Err? {
        return Err(MissingData(model.error));
      }
      r := Ok(model.value);
    }

    /** exporter.py:125-127: the request, then `parse_response`. */
    method FetchReadings(request: DeviceRequest, reply: Fetch) returns (r: Result<Dict, Crash>)
      modifies this
      ensures r == ReadingsFrom(reply)
      ensures fetched == old(fetched) + [request] && sent == old(sent) && observed == old(observed)
    {
      var response := Get(request, reply);
      if response.Unreachable? {
        return Err(DeviceError);
      }
      var data := ParseResponse(response.text);
      if data.Err? {
        return Err(BadReply(data.error));
      }
      r := Ok(data.value);
    }

    /** exporter.py:125-158, the second half of the metrics branch. */
    method MeasureCamera(site: Site, user: string, password: string, model: string, reply: Fetch) returns (crash: Option<Crash>)
      modifies this
      ensures var o := Measure(site, user, password, model, reply);
        && sent == old(sent) + o.sent
        && fetched == old(fetched) + o.fetches
        && observed == old(observed) + o.observations
        && crash == o.crash
    {
      var request := TemperatureRequest(site, user, password);
      var data := FetchReadings(request, reply);
      if data.Err? {
        AppendNothing(old(sent));
        AppendNothing(old(observed));
        return Some(data.error);
      }
      var readings := MapReadings(model, site.host, data.value);
      observed := observed + readings.observations;
      if readings.failure.Some? {
        AppendNothing(old(sent));
        return Some(MissingData(readings.failure.value));
      }
      Send(MetricsPage);
      crash := None;
    }

    /** exporter.py:117-158, the metrics branch of `do_GET`. */
    method ScrapeCamera(site: Site, user: string, password: string, device: Device) returns (crash: Option<Crash>)
      modifies this
      ensures var o := Scrape(site, user, password, device);
        && sent == old(sent) + o.sent
        && fetched == old(fetched) + o.fetches
        && observed == old(observed) + o.observations
        && crash == o.crash
    {
      var model := FetchModel(ParameterRequest(site, user, password), device.parameters);
      if model.Err? {
        AppendNothing(old(sent));
        AppendNothing(old(observed));
        return Some(model.error);
      }
      ghost var r := Measure(site, user, password, model.value, device.temperatures);
      crash := MeasureCamera(site, user, password, model.value, device.temperatures);
      AppendAssociates(old(fetched), [ParameterRequest(site, user, password)], r.fetches);
    }

    /** exporter.py:115-175, once the parameters are read. */
    method Answer(path: string, endpoint: string, site: Result<Site, SiteError>, user: Option<string>, password: Option<string>, device: Device)
      returns (crash: Option<Crash>)
      modifies this
      ensures var o := Respond(path, endpoint, site, user, password, device);
        && sent == old(sent) + o.sent
        && fetched == old(fetched) + o.fetches
        && observed == old(observed) + o.observations
        && crash == o.crash
    {
      var errorDetected := site.Err? || user.None? || password.None?;
      if ScrapeAllowed(path, endpoint, site, user, password) {
        crash := ScrapeCamera(site.value, user.value, password.value, device);
      } else {
        AppendNothing(fetched);
        AppendNothing(observed);
        if path == "/" {
          Send(IndexHeaders);
          crash := Some(TextBody);
        } else {
          if !errorDetected {
            Send(NotFound);
          } else {
            AppendNothing(sent);
          }
          crash := None;
        }
      }
    }

    /** `do_GET` (exporter.py:70-175). */
    method DoGet(req: Request, env: Env, endpoint: string, device: Device) returns (crash: Option<Crash>)
      modifies this
      ensures var o := Handle(req, env, endpoint, device);
        && sent == old(sent) + o.sent
        && fetched == old(fetched) + o.fetches
        && observed == old(observed) + o.observations
        && crash == o.crash
    {
      var q := req.query;
      var site := ReadSiteParameters(q);
      if site.Err? && site.error.PortNotInteger? {
        AppendNothing(old(sent));
        AppendNothing(old(fetched));
        AppendNothing(old(observed));
        return Some(BadPort(site.error.text));
      }
      var user := ReadCredential(env.user, q, "camera_user");
      var password := ReadCredential(env.password, q, "camera_password");
      ghost var errors := ServerErrors(MissingCount(site, user, password));
      ServerErrorsAdd(old(sent), site.Err?, user.None?, password.None?);
      ghost var r := Respond(req.path, endpoint, site, user, password, device);
      crash := Answer(req.path, endpoint, site, user, password, device);
      AppendAssociates(old(sent), errors, r.sent);
    }
  }

  lemma AppendNothing<T>(s: seq<T>)
    ensures s + [] == s
  {
  }

  lemma PrependNothing<T>(s: seq<T>)
    ensures [] + s == s
  {
  }

  lemma AppendAssociates<T>(s: seq<T>, a: seq<T>, b: seq<T>)
    ensures s + a + b == s + (a + b)
  {
  }

  /** The 500s of the three checks, one after another. */
  lemma ServerErrorsAdd(log: seq<Response>, site: bool, user: bool, password: bool)
    ensures log + ErrorIf(site) + ErrorIf(user) + ErrorIf(password)
            == log + ServerErrors((if site then 1 else 0) + (if user then 1 else 0) + (if password then 1 else 0))
  {
    var n := (if site then 1 else 0) + (if user then 1 else 0) + (if password then 1 else 0);
    var rs := ErrorIf(site) + ErrorIf(user) + ErrorIf(password);
    ServerErrorsAll(rs, n);
    AppendAssociates(log, ErrorIf(site), ErrorIf(user));
    AppendAssociates(log, ErrorIf(site) + ErrorIf(user), ErrorIf(password));
  }

  /** A log of `n` responses that are all 500s is `ServerErrors(n)`. */
  lemma ServerErrorsAll(rs: seq<Response>, n: nat)
    requires |rs| == n && forall i :: 0 <= i < n ==> rs[i] == ServerError
    ensures rs == ServerErrors(n)
  {
  }

  /*
   * What one request leads to, stated on `Handle`.
   */

  /** The site read from the query, the user and the password, as `do_GET` settles them. */
  function Settled(req: Request, env: Env): (Result<Site, SiteError>, Option<string>, Option<string>) {
    (ReadSite(req.query), Credential(env.user, req.query, "camera_user"), Credential(env.password, req.query, "camera_password"))
  }

  /** When the guard of exporter.py:115 holds, the request is the metrics branch alone. */
  lemma HandleScrapes(req: Request, env: Env, endpoint: string, device: Device)
    requires var (site, user, password) := Settled(req, env);
      ScrapeAllowed(req.path, endpoint, site, user, password)
    ensures var (site, user, password) := Settled(req, env);
      Handle(req, env, endpoint, device) == Scrape(site.value, user.value, password.value, device)
  {
    var (site, user, password) := Settled(req, env);
    assert MissingCount(site, user, password) == 0;
    PrependNothing(Scrape(site.value, user.value, password.value, device).sent);
  }

  /**
   * A port that `int()` rejects ends the request before anything is sent or
   * fetched, whatever else the query holds.
   */
  lemma BadPortAborts(req: Request, env: Env, endpoint: string, device: Device)
    requires "camera_host" in req.query && "camera_port" in req.query
    requires ParseInt(req.query["camera_port"][0]).None?
    ensures var o := Handle(req, env, endpoint, device);
      o.sent == [] && o.fetches == [] && o.observations == [] && o.crash == Some(BadPort(req.query["camera_port"][0]))
  {
  }

  /**
   * Each failed check of exporter.py:89-112 sends exactly one 500, all of
   * them before anything else, and at most one more response follows; when
   * any check failed the camera is never contacted.
   */
  lemma ErrorsFirst(req: Request, env: Env, endpoint: string, device: Device)
    requires !(ReadSite(req.query).Err? && ReadSite(req.query).error.PortNotInteger?)
    ensures var (site, user, password) := Settled(req, env);
      var n := MissingCount(site, user, password);
      var o := Handle(req, env, endpoint, device);
      && n <= |o.sent| <= n + 1
      && (forall i :: 0 <= i < |o.sent| ==> (o.sent[i] == ServerError <==> i < n))
      && (n > 0 ==> o.fetches == [] && o.observations == [])
  {
    var (site, user, password) := Settled(req, env);
    var r := Respond(req.path, endpoint, site, user, password, device);
    assert forall i :: 0 <= i < |r.sent| ==> r.sent[i] != ServerError;
  }

  /**
   * A request without `camera_host`, `camera_port` or `camera_proto` (and
   * no port that `int()` rejects) is answered first with a 500, and the
   * camera is not contacted.
   */
  lemma MissingSiteParameter(req: Request, env: Env, endpoint: string, device: Device)
    requires "camera_host" !in req.query || "camera_port" !in req.query || "camera_proto" !in req.query
    requires "camera_host" in req.query && "camera_port" in req.query ==> ParseInt(req.query["camera_port"][0]).Some?
    ensures var o := Handle(req, env, endpoint, device);
      o.sent != [] && o.sent[0] == ServerError && o.fetches == [] && o.observations == []
  {
    ErrorsFirst(req, env, endpoint, device);
  }

  /**
   * The camera is contacted exactly when the path is the metrics endpoint
   * and host, port, protocol, user and password are all present with host,
   * user and password non-empty and the port non-zero; no 500 is sent then.
   */
  lemma FetchIff(req: Request, env: Env, endpoint: string, device: Device)
    ensures var (site, user, password) := Settled(req, env);
      var o := Handle(req, env, endpoint, device);
      && (o.fetches != [] <==> ScrapeAllowed(req.path, endpoint, site, user, password))
      && (o.fetches != [] ==> ServerError !in o.sent)
  {
    var (site, user, password) := Settled(req, env);
    var o := Handle(req, env, endpoint, device);
    if ScrapeAllowed(req.path, endpoint, site, user, password) {
      HandleScrapes(req, env, endpoint, device);
    }
  }

  /** A port of 0 is falsy in the guard of exporter.py:115: nothing is fetched. */
  lemma PortZeroSkipsFetch(req: Request, env: Env, endpoint: string, device: Device)
    requires "camera_host" in req.query && "camera_port" in req.query
    requires ParseInt(req.query["camera_port"][0]) == Some(0)
    ensures Handle(req, env, endpoint, device).fetches == []
  {
    FetchIff(req, env, endpoint, device);
  }

  /**
   * An `AXIS_USERNAME` set to the empty string is used as it is: the query's
   * `camera_user` is ignored and nothing is fetched, and no 500 is sent for
   * the user.
   */
  lemma EmptyEnvUserSkipsFetch(req: Request, env: Env, endpoint: string, device: Device)
    requires env.user == Some("")
    ensures Handle(req, env, endpoint, device).fetches == []
    ensures Settled(req, env).1 == Some("")
  {
    FetchIff(req, env, endpoint, device);
  }

  /** Both requests of the metrics branch carry the same credentials. */
  lemma ScrapeCredentials(site: Site, user: string, password: string, device: Device)
    ensures forall f :: f in Scrape(site, user, password, device).fetches ==> f.user == user && f.password == password
  {
    var o := Scrape(site, user, password, device);
    forall f | f in o.fetches
      ensures f.user == user && f.password == password
    {
      var i :| 0 <= i < |o.fetches| && o.fetches[i] == f;
    }
  }

  /**
   * Credentials from the environment take precedence: when a variable is
   * set, every request to the camera carries its value, whatever the query
   * says.
   */
  lemma EnvCredentialsWin(req: Request, env: Env, endpoint: string, device: Device)
    requires env.user.Some? && env.password.Some?
    ensures forall f :: f in Handle(req, env, endpoint, device).fetches ==>
              f.user == env.user.value && f.password == env.password.value
  {
    var (site, user, password) := Settled(req, env);
    if ScrapeAllowed(req.path, endpoint, site, user, password) {
      HandleScrapes(req, env, endpoint, device);
      ScrapeCredentials(site.value, user.value, password.value, device);
    }
  }

  /**
   * The requests go to `proto://host:port` followed by the API paths, the
   * port written back in decimal so that `int()` reads the same number.
   */
  lemma ScrapeUrls(req: Request, env: Env, endpoint: string, device: Device)
    requires Handle(req, env, endpoint, device).fetches != []
    ensures var q := req.query;
      && "camera_host" in q && "camera_port" in q && "camera_proto" in q
      && ParseInt(q["camera_port"][0]).Some?
      && var port := ParseInt(q["camera_port"][0]).value;
         var base := q["camera_proto"][0] + "://" + q["camera_host"][0] + ":" + IntToString(port);
         var o := Handle(req, env, endpoint, device);
         && ParseInt(IntToString(port)) == Some(port)
         && o.fetches[0].url == base + ParameterListApi
         && (|o.fetches| == 2 ==> o.fetches[1].url == base + TemperatureApi)
  {
    FetchIff(req, env, endpoint, device);
    ParseIntToString(ParseInt(req.query["camera_port"][0]).value);
  }

  /**
   * A 404 is sent exactly when the port is an integer, every check passed,
   * the path is not `/` and the metrics branch was not taken; it is then
   * the only response.
   */
  lemma NotFoundIff(req: Request, env: Env, endpoint: string, device: Device)
    ensures var (site, user, password) := Settled(req, env);
      var o := Handle(req, env, endpoint, device);
      && (NotFound in o.sent <==>
            && site.Ok? && user.Some? && password.Some?
            && req.path != "/" && !ScrapeAllowed(req.path, endpoint, site, user, password))
      && (NotFound in o.sent ==> o.sent == [NotFound] && o.crash.None?)
  {
    var (site, user, password) := Settled(req, env);
    var o := Handle(req, env, endpoint, device);
    if ScrapeAllowed(req.path, endpoint, site, user, password) {
      HandleScrapes(req, env, endpoint, device);
    } else if !(site.Err? && site.error.PortNotInteger?) {
      var n := MissingCount(site, user, password);
      var r := Respond(req.path, endpoint, site, user, password, device);
      assert o.sent == ServerErrors(n) + r.sent;
      assert NotFound !in ServerErrors(n);
    }
  }

  /**
   * A request for `/` that is not the metrics endpoint gets its 500s, then
   * the index page's status and headers, and then ends in the TypeError of
   * writing a `str` body: the page itself is never sent.
   */
  lemma RootPath(req: Request, env: Env, endpoint: string, device: Device)
    requires req.path == "/" && endpoint != "/"
    requires !(ReadSite(req.query).Err? && ReadSite(req.query).error.PortNotInteger?)
    ensures var (site, user, password) := Settled(req, env);
      var o := Handle(req, env, endpoint, device);
      && o.sent == ServerErrors(MissingCount(site, user, password)) + [IndexHeaders]
      && o.fetches == [] && o.crash == Some(TextBody)
  {
  }

  /**
   * Once the camera's model is known and its temperatures parsed, the
   * gauges set are those `MapReadings` gives, in order, whether or not a
   * later lookup fails; the 200 is sent exactly when none fails.
   */
  lemma ScrapeRecords(req: Request, env: Env, endpoint: string, device: Device, model: string, readings: Dict)
    requires var (site, user, password) := Settled(req, env);
      ScrapeAllowed(req.path, endpoint, site, user, password)
    requires ModelFrom(device.parameters) == Ok(model)
    requires ReadingsFrom(device.temperatures) == Ok(readings)
    ensures var m := MapReadings(model, req.query["camera_host"][0], readings);
      var o := Handle(req, env, endpoint, device);
      && o.observations == m.observations
      && |o.fetches| == 2
      && (o.sent == [MetricsPage] <==> m.failure.None?)
      && (m.failure.Some? ==> o.crash == Some(MissingData(m.failure.value)))
  {
    HandleScrapes(req, env, endpoint, device);
  }

  /**
   * Every gauge value one request sets carries exactly the label names its
   * metric declares (exporter.py:140-148 against the metric definitions).
   */
  lemma HandleObservationsDeclared(req: Request, env: Env, endpoint: string, device: Device)
    ensures forall o :: o in Handle(req, env, endpoint, device).observations ==> Declared(o)
  {
    var (site, user, password) := Settled(req, env);
    var h := Handle(req, env, endpoint, device);
    if h.observations != [] {
      FetchIff(req, env, endpoint, device);
      var model := ModelFrom(device.parameters);
      var readings := ReadingsFrom(device.temperatures);
      assert model.Ok? && readings.Ok?;
      ObservationsDeclared(model.value, site.value.host, readings.value);
      HandleScrapes(req, env, endpoint, device);
    }
  }
}
