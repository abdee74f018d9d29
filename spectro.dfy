/** The stub assistant service: a process-wide status snapshot fixed at
    construction, and two operations that return placeholder records.
    The wall clock is a parameter (`now`, the ISO-8601 text the caller
    read), and console logging is not modelled. */
module Spectro {
  import opened Common

  /** The constructor's optional `config` object; no field of it is read. */
  type Config = map<string, string>

  /** An opaque JSON value handed to `analyze`. */
  type Payload = string

  /** The `getStatus()` record; emitted as the JSON keys SYSTEM_ACTIVE,
      INTERFACE_VERSION and STATUS. */
  datatype StatusRecord = StatusRecord(systemActive: bool, interfaceVersion: string, status: string)

  /** The `captureScreen()` record; `kind` is emitted as the key `type`. */
  datatype CaptureResult = CaptureResult(timestamp: string, data: string, kind: string)

  /** The `analyze()` record. */
  datatype AnalysisResult = AnalysisResult(
    solution: string, confidence: real, alternatives: seq<string>, timestamp: string)

  const InterfaceVersion := "2.3.7"
  const Online := "ONLINE"
  const OnlineStatus := StatusRecord(true, InterfaceVersion, Online)

  const CapturePlaceholder := "Screen capture data would be here"
  const Screenshot := "screenshot"
  const SolutionPlaceholder := "Solution data would be provided by AI analysis"
  const Confidence := 0.95
  const Alternatives := ["Alternative approach 1", "Alternative approach 2"]

  /** The status fields are `const`: the constructor is the only code that
      assigns them, so no operation can change them afterwards. */
  class AIAssistant {
    const systemActive: bool
    const interfaceVersion: string
    const status: string

    /** What the constructor establishes: active, version 2.3.7, online. */
    predicate Valid()
    {
      systemActive && interfaceVersion == InterfaceVersion && status == Online
    }

    /** `config` (`{}` when omitted) has no influence on any field. */
    constructor (config: Option<Config>)
      ensures Valid()
    {
      systemActive := true;
      interfaceVersion := InterfaceVersion;
      status := Online;
    }

    /** The snapshot reports the online record exactly when the instance
        is in its constructed state; it reads nothing mutable, so repeated
        calls give equal records. */
    function GetStatus(): (s: StatusRecord)
      ensures s == OnlineStatus <==> Valid()
      ensures s.systemActive == systemActive && s.status == status
    {
      StatusRecord(systemActive, interfaceVersion, status)
    }

    /** Always a screenshot record carrying the placeholder data and the
        given time; it cannot fail and depends on no field. */
    function CaptureScreen(now: string): (r: CaptureResult)
      ensures r.kind == Screenshot && r.data == CapturePlaceholder
      ensures r.timestamp == now
    {
      CaptureResult(now, CapturePlaceholder, Screenshot)
    }

    /** The placeholder analysis: confidence 0.95 inside [0, 1], the two
        alternatives in order, stamped with the given time. */
    function Analyze(input: Option<Payload>, now: string): (r: AnalysisResult)
      ensures 0.0 <= r.confidence <= 1.0 && r.confidence == Confidence
      ensures r.solution == SolutionPlaceholder && r.timestamp == now
      ensures |r.alternatives| == 2
      ensures r.alternatives[0] == "Alternative approach 1"
      ensures r.alternatives[1] == "Alternative approach 2"
    {
      AnalysisResult(SolutionPlaceholder, Confidence, Alternatives, now)
    }
  }

  /** `analyze` ignores its input: with or without a payload, and for any
      payload, the result is the same. */
  lemma AnalyzeIgnoresInput(a: AIAssistant, x: Option<Payload>, y: Option<Payload>, now: string)
    ensures a.Analyze(x, now) == a.Analyze(y, now)
  {
  }

  /** Two instances answer every query identically once constructed,
      whatever configuration each was given. */
  lemma InstancesAgree(a: AIAssistant, b: AIAssistant, now: string)
    requires a.Valid() && b.Valid()
    ensures a.GetStatus() == b.GetStatus() == OnlineStatus
    ensures a.CaptureScreen(now) == b.CaptureScreen(now)
  {
  }
}
