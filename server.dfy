/** The HTTP boundary of the assistant service: the listen port, the
    routing of the three endpoints, and the translation of each
    operation's outcome into a response (a thrown error becomes a 500
    with a fixed message per route). Express, CORS and the listener are
    not modelled; a response is the status code and JSON body sent. */
module Server {
  import opened Common
  import opened Spectro

  const DefaultPort := 3001

  /** The value handed to `listen`: the PORT text, or the numeric default. */
  datatype PortSetting = EnvPort(text: string) | NumericPort(number: nat)

  /** `process.env.PORT || 3001`: an unset or empty PORT is falsy. */
  function Port(env: Option<string>): (p: PortSetting)
    ensures p.EnvPort? <==> env.Some? && env.value != ""
    ensures p.EnvPort? ==> env == Some(p.text)
    ensures p.NumericPort? ==> p.number == DefaultPort
  {
    match env
    case Some(v) => if v != "" then EnvPort(v) else NumericPort(DefaultPort)
    case None => NumericPort(DefaultPort)
  }

  datatype HttpMethod = Get | Post

  /** The parsed request body: absent (`req.body` undefined), or a JSON
      object whose members are kept as opaque payloads. */
  datatype RequestBody = NoBody | JsonObject(members: map<string, Payload>)

  datatype Request = Request(verb: HttpMethod, path: string, body: RequestBody)

  datatype Endpoint = StatusEndpoint | CaptureEndpoint | AnalyzeEndpoint

  datatype Body =
    | StatusBody(snapshot: StatusRecord)
    | CaptureBody(capture: CaptureResult)
    | AnalysisBody(analysis: AnalysisResult)
    | ErrorBody(error: string)

  /** What `res.json` sends, with the status code last set (200 unless
      `res.status` was called). */
  datatype Response = Response(code: nat, body: Body)

  /** An exception thrown inside a handler's `try`. Its message is never
      read by the handlers, so the model leaves it unspecified where the
      engine produces it. */
  datatype Thrown = Thrown(message: string)

  const CaptureFailed := "Failed to capture screen"
  const AnalyzeFailed := "Failed to analyze with AI"

  /** The three registered routes, matched exactly on verb and path;
      anything else is not handled here. */
  function Route(verb: HttpMethod, path: string): (e: Option<Endpoint>)
    ensures e == Some(StatusEndpoint) <==> verb == Get && path == "/api/status"
    ensures e == Some(CaptureEndpoint) <==> verb == Post && path == "/api/capture"
    ensures e == Some(AnalyzeEndpoint) <==> verb == Post && path == "/api/analyze"
  {
    match verb
    case Get => if path == "/api/status" then Some(StatusEndpoint) else None
    case Post =>
      if path == "/api/capture" then Some(CaptureEndpoint)
      else if path == "/api/analyze" then Some(AnalyzeEndpoint)
      else None
  }

  /** GET /api/status: the snapshot itself, with no error path. */
  function HandleStatus(a: AIAssistant): (r: Response)
    ensures r.code == 200 && r.body.StatusBody? && r.body.snapshot == a.GetStatus()
    ensures a.Valid() ==> r.body.snapshot == OnlineStatus
  {
    Response(200, StatusBody(a.GetStatus()))
  }

  /** POST /api/capture, given what `await captureScreen()` produced. */
  function HandleCapture(outcome: Result<CaptureResult, Thrown>): (r: Response)
    ensures outcome.Ok? <==> r.code == 200
    ensures outcome.Ok? ==> r.body == CaptureBody(outcome.value)
    ensures outcome.Err? ==> r == Response(500, ErrorBody(CaptureFailed))
  {
    match outcome
    case Ok(capture) => Response(200, CaptureBody(capture))
    case Err(_) => Response(500, ErrorBody(CaptureFailed))
  }

  /** `const { input } = req.body`: destructuring an undefined body throws;
      an object without an `input` member yields undefined. */
  function InputOf(body: RequestBody): (r: Result<Option<Payload>, Thrown>)
    ensures r.Err? <==> body.NoBody?
    ensures body.JsonObject? && "input" in body.members ==> r == Ok(Some(body.members["input"]))
    ensures body.JsonObject? && "input" !in body.members ==> r == Ok(None)
  {
    match body
    case NoBody => Err(Thrown(""))
    case JsonObject(members) => Ok(if "input" in members then Some(members["input"]) else None)
  }

  /** POST /api/analyze: both the destructuring and `analyze` run inside
      the `try`, so a failure of either gives the fixed 500. `analyze` is
      passed as the outcome it produces for the extracted input. */
  function HandleAnalyze(body: RequestBody, analyze: Option<Payload> -> Result<AnalysisResult, Thrown>): (r: Response)
    ensures r.code == 200 <==> InputOf(body).Ok? && analyze(InputOf(body).value).Ok?
    ensures r.code == 200 ==> r.body == AnalysisBody(analyze(InputOf(body).value).value)
    ensures r.code != 200 ==> r == Response(500, ErrorBody(AnalyzeFailed))
  {
    match InputOf(body)
    case Err(_) => Response(500, ErrorBody(AnalyzeFailed))
    case Ok(input) =>
      match analyze(input)
      case Ok(analysis) => Response(200, AnalysisBody(analysis))
      case Err(_) => Response(500, ErrorBody(AnalyzeFailed))
  }

  /** The server as wired: one shared assistant serves every route, whose
      operations never throw. Unregistered routes fall through (None). */
  function Dispatch(a: AIAssistant, req: Request, now: string): (r: Option<Response>)
    ensures r.Some? <==> Route(req.verb, req.path).Some?
  {
    match Route(req.verb, req.path)
    case None => None
    case Some(StatusEndpoint) => Some(HandleStatus(a))
    case Some(CaptureEndpoint) => Some(HandleCapture(Ok(a.CaptureScreen(now))))
    case Some(AnalyzeEndpoint) => Some(HandleAnalyze(req.body, input => Ok(a.Analyze(input, now))))
  }

  /** End to end against a constructed assistant: status answers 200 with
      the online snapshot; capture answers 200 with a screenshot record;
      analyze answers 200 with the placeholder analysis whenever the body
      was parsed, and the fixed 500 when there is no body. */
  lemma {:induction false} DispatchEndToEnd(a: AIAssistant, req: Request, now: string)
    requires a.Valid()
    ensures Route(req.verb, req.path) == Some(StatusEndpoint) ==>
      Dispatch(a, req, now) == Some(Response(200, StatusBody(OnlineStatus)))
    ensures Route(req.verb, req.path) == Some(CaptureEndpoint) ==>
      Dispatch(a, req, now) == Some(Response(200, CaptureBody(CaptureResult(now, CapturePlaceholder, Screenshot))))
    ensures Route(req.verb, req.path) == Some(AnalyzeEndpoint) && req.body.JsonObject? ==>
      Dispatch(a, req, now) == Some(Response(200, AnalysisBody(AnalysisResult(SolutionPlaceholder, Confidence, Alternatives, now))))
    ensures Route(req.verb, req.path) == Some(AnalyzeEndpoint) && req.body.NoBody? ==>
      Dispatch(a, req, now) == Some(Response(500, ErrorBody(AnalyzeFailed)))
  {
    match Route(req.verb, req.path)
    case None =>
    case Some(StatusEndpoint) =>
    case Some(CaptureEndpoint) =>
    case Some(AnalyzeEndpoint) =>
      var input := InputOf(req.body);
      if req.body.JsonObject? {
        assert input.Ok?;
      }
  }

  /** Fault injection: whatever error capture or analyze throws, the
      client sees only the route's fixed message with status 500. */
  lemma FailuresAreOpaque(t: Thrown, u: Thrown, body: RequestBody)
    ensures HandleCapture(Err(t)) == HandleCapture(Err(u)) == Response(500, ErrorBody(CaptureFailed))
    ensures HandleAnalyze(body, _ => Err(t)) == Response(500, ErrorBody(AnalyzeFailed))
  {
  }
}
