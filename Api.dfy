/** The frontend's API module (frontend/src/api.js): the on-premise probe and the
    endpoint table it selects, and the way the extract, commit and health calls turn an
    HTTP reply into a value or an error message. */
module Api {
  import opened Wrappers
  import opened Text
  import opened Wire

  const OnPremImageAnalysisUrl := "http://localhost:5001"
  const OnPremKnowledgeBaseUrl := "http://localhost:5002"
  const DefaultCalendarApiUrl := "http://localhost:8080"
  const GatewayImageAnalysisUrl := "https://your-cloud-gateway-url.run.app/image-analysis"
  const GatewayKnowledgeBaseUrl := "https://your-cloud-gateway-url.run.app/knowledge-base"
  const ExtractFallback := "Failed to extract calendar events"
  const AddFallback := "Failed to add events to calendar"
  const DefaultCalendarId := "primary"

  /** `import.meta.env.VITE_API_URL || "http://localhost:8080"`; an unset variable is "". */
  function CalendarApiUrl(viteApiUrl: string): (url: string)
    ensures url != ""
    ensures viteApiUrl != "" ==> url == viteApiUrl
    ensures viteApiUrl == "" ==> url == DefaultCalendarApiUrl
  {
    OrDefault(viteApiUrl, DefaultCalendarApiUrl)
  }

  datatype Endpoints = Endpoints(imageAnalysis: string, knowledgeBase: string, calendarAssistant: string)

  /** The outcome of the on-premise probe `fetch(ON_PREM_IMAGE_ANALYSIS_URL)`. */
  datatype Probe = ProbeAnswered(ok: bool) | ProbeFailed

  /** The module state of api.js: the `isOnPrem` flag and the calendar URL fixed at load. */
  class Origin {
    var isOnPrem: bool
    const calendarApiUrl: string

    constructor (viteApiUrl: string)
      ensures !isOnPrem
      ensures calendarApiUrl == CalendarApiUrl(viteApiUrl)
    {
      isOnPrem := false;
      calendarApiUrl := CalendarApiUrl(viteApiUrl);
    }

    /** `checkOnPremStatus`: an ok answer sets the flag, a transport failure clears it, a
        non-ok answer leaves it as it was. */
    method CheckOnPremStatus(probe: Probe)
      modifies this`isOnPrem
      ensures probe == ProbeAnswered(true) ==> isOnPrem
      ensures probe == ProbeAnswered(false) ==> isOnPrem == old(isOnPrem)
      ensures probe == ProbeFailed ==> !isOnPrem
    {
      match probe
      case ProbeAnswered(ok) =>
        if ok {
          isOnPrem := true;
        }
      case ProbeFailed =>
        isOnPrem := false;
    }

    /** `getApiEndpoints`: the on-premise pair when the flag is set, the gateway pair
        otherwise; the calendar assistant is the same URL either way. */
    function GetApiEndpoints(): (e: Endpoints)
      reads this
      ensures e.calendarAssistant == calendarApiUrl
      ensures isOnPrem ==> e.imageAnalysis == OnPremImageAnalysisUrl && e.knowledgeBase == OnPremKnowledgeBaseUrl
      ensures !isOnPrem ==> e.imageAnalysis == GatewayImageAnalysisUrl && e.knowledgeBase == GatewayKnowledgeBaseUrl
    {
      if isOnPrem then
        Endpoints(OnPremImageAnalysisUrl, OnPremKnowledgeBaseUrl, calendarApiUrl)
      else
        Endpoints(GatewayImageAnalysisUrl, GatewayKnowledgeBaseUrl, calendarApiUrl)
    }
  }

  /** What `fetch` followed by `response.json()` yields: a transport failure (fetch rejects
      with an error carrying `message`), a response whose body is not JSON (`json()`
      rejects with `message`), an ok response with its body, or a non-ok response with the
      `detail` field of its body, if it has one. */
  datatype HttpReply<T> =
    | TransportError(message: string)
    | UnparsableReply(ok: bool, message: string)
    | OkReply(body: T)
    | ErrorReply(detail: Option<string>)

  /** `error.detail || fallback` */
  function DetailOr(detail: Option<string>, fallback: string): (msg: string)
    ensures fallback != "" ==> msg != ""
    ensures detail.Some? && detail.value != "" ==> msg == detail.value
    ensures detail.None? || detail == Some("") ==> msg == fallback
  {
    OrDefault(if detail.Some? then detail.value else "", fallback)
  }

  /** The error a failed call throws, as its message. */
  function ThrownMessage<T>(reply: HttpReply<T>, fallback: string): (msg: string)
    requires !reply.OkReply?
  {
    match reply
    case TransportError(m) => m
    case UnparsableReply(_, m) => m
    case ErrorReply(detail) => DetailOr(detail, fallback)
  }

  /** `extractCalendarEvents`: an ok reply yields its body; a non-ok reply raises the
      body's `detail`, or "Failed to extract calendar events" when it has none. */
  function ExtractCalendarEvents(reply: HttpReply<EventsResponse>): (r: Result<EventsResponse, string>)
    ensures r.Success? <==> reply.OkReply?
    ensures reply.OkReply? ==> r.value == reply.body
    ensures reply.ErrorReply? ==> r.error == DetailOr(reply.detail, ExtractFallback) && r.error != ""
    ensures reply.TransportError? ==> r.error == reply.message
    ensures reply.UnparsableReply? ==> r.error == reply.message
  {
    if reply.OkReply? then Success(reply.body) else Failure(ThrownMessage(reply, ExtractFallback))
  }

  /** The body `addEventsToCalendar` posts; the calendar defaults to "primary". */
  function AddEventsRequest(events: seq<CalendarEvent>, calendarId: string := DefaultCalendarId): (req: CommitRequest)
    ensures req.events == events && req.calendarId == calendarId
  {
    CommitRequest(events, calendarId)
  }

  /** `addEventsToCalendar`: the same error rule as extraction, with its own fallback. */
  function AddEventsToCalendar(reply: HttpReply<AddResponse>): (r: Result<AddResponse, string>)
    ensures r.Success? <==> reply.OkReply?
    ensures reply.OkReply? ==> r.value == reply.body
    ensures reply.ErrorReply? ==> r.error == DetailOr(reply.detail, AddFallback) && r.error != ""
    ensures reply.TransportError? ==> r.error == reply.message
    ensures reply.UnparsableReply? ==> r.error == reply.message
  {
    if reply.OkReply? then Success(reply.body) else Failure(ThrownMessage(reply, AddFallback))
  }

  /** `checkCalendarBackendHealth`: true exactly for an ok reply whose `status` is
      "healthy"; every failure, thrown or not, reads as false. */
  function CheckCalendarBackendHealth(reply: HttpReply<HealthBody>): (healthy: bool)
    ensures healthy ==> reply.OkReply?
    ensures reply.OkReply? ==> (healthy <==> reply.body.status == Some("healthy"))
  {
    match reply
    case OkReply(body) => body.status == Some("healthy")
    case _ => false
  }

  /** The default calendar reaches the wire when the caller gives none. */
  lemma CommitDefaultsToPrimary(events: seq<CalendarEvent>)
    ensures AddEventsRequest(events).calendarId == "primary"
  {
  }
}
