/** The calendar backend (cloud/backend/main.py): the event model with its defaults, the
    extract endpoint's pipeline (image-mode normalisation, OCR outcome checks, slicing
    the JSON array out of the language model's reply, validating the events, and the
    mapping of every raised exception to an HTTP error), the health endpoint, and the
    add-to-calendar conversion loop. OCR, the language model and `json.loads` are
    parameters. */
module Backend {
  import opened Wrappers
  import opened Text
  import opened Wire
  import Api

  const ServiceName := "Family Calendar Assistant"
  const DefaultTimeZone := "America/New_York"
  const AddedMessage := "Events ready to be added (OAuth2 authentication needed)"
  const NoBracketsDetail := "Failed to parse calendar events from image"
  const NoTextDetail := "No text detected in image"

  /** `CalendarEvent(...)` with `description` and `location` left to their defaults. */
  function NewCalendarEvent(summary: string, startDateTime: string, endDateTime: string,
                            description: string := "", location: string := ""): (e: CalendarEvent)
    ensures e.summary == summary && e.startDateTime == startDateTime && e.endDateTime == endDateTime
    ensures e.description == description && e.location == location
  {
    CalendarEvent(summary, startDateTime, endDateTime, description, location)
  }

  /** An event built from the three required fields has an empty description and location. */
  lemma OptionalFieldsDefaultEmpty(summary: string, startDateTime: string, endDateTime: string)
    ensures NewCalendarEvent(summary, startDateTime, endDateTime).description == ""
    ensures NewCalendarEvent(summary, startDateTime, endDateTime).location == ""
  {
  }

  /** `GET /`: the health body. */
  function Root(): (body: HealthBody)
    ensures body.status == Some("healthy") && body.service == Some(ServiceName)
  {
    HealthBody(Some("healthy"), Some(ServiceName))
  }

  /** The health body the backend sends is what the client's health check accepts. */
  lemma ClientSeesHealthyBackend()
    ensures Api.CheckCalendarBackendHealth(Api.OkReply(Root()))
  {
  }

  // ---------------------------------------------------------------- image mode

  /** What the upload handler does to an opened image before OCR: composite a mode with
      transparency onto a white RGB background (a palette image is turned into RGBA
      first), convert any other non-RGB mode, or keep an RGB image. */
  datatype Conversion = CompositeOnWhite(fromPalette: bool) | ConvertToRgb | KeepRgb

  function Normalisation(mode: string): (c: Conversion)
    ensures c.CompositeOnWhite? <==> mode == "RGBA" || mode == "LA" || mode == "P"
    ensures c.CompositeOnWhite? ==> (c.fromPalette <==> mode == "P")
    ensures c.KeepRgb? <==> mode == "RGB"
  {
    if mode == "RGBA" || mode == "LA" || mode == "P" then CompositeOnWhite(mode == "P")
    else if mode != "RGB" then ConvertToRgb
    else KeepRgb
  }

  /** The mode of the image after a conversion step. */
  function ModeAfter(mode: string, c: Conversion): string {
    match c
    case CompositeOnWhite(_) => "RGB"
    case ConvertToRgb => "RGB"
    case KeepRgb => mode
  }

  /** Whatever mode the upload has, the image sent to OCR is RGB. */
  lemma NormalisedImageIsRgb(mode: string)
    ensures ModeAfter(mode, Normalisation(mode)) == "RGB"
  {
  }

  // ---------------------------------------------------------------- JSON slice

  /** Python's `str.isspace` on ASCII characters: space, tab, line feed, vertical tab,
      form feed, carriage return and the four separators 0x1C to 0x1F. */
  predicate IsSpace(c: char) {
    || c == ' ' || c == '\t' || c == '\n' || c == '\r' || c == '\U{B}' || c == '\U{C}'
    || c == '\U{1C}' || c == '\U{1D}' || c == '\U{1E}' || c == '\U{1F}'
  }

  /** `r` is `s[i..j]` and everything outside `s[i..j]` is whitespace. */
  ghost predicate StrippedAt(s: string, r: string, i: int, j: int) {
    && 0 <= i <= j <= |s| && r == s[i..j]
    && (forall k :: 0 <= k < i ==> IsSpace(s[k]))
    && (forall k :: j <= k < |s| ==> IsSpace(s[k]))
  }

  /** `s.strip()`: leading and trailing whitespace removed. */
  function Strip(s: string): (r: string)
    ensures r == "" || (!IsSpace(r[0]) && !IsSpace(r[|r| - 1]))
    ensures exists i, j :: 0 <= i <= j <= |s| && r == s[i..j]
    ensures exists i, j :: StrippedAt(s, r, i, j)
    decreases |s|
  {
    if s == [] then
      assert StrippedAt(s, s, 0, 0);
      s
    else if IsSpace(s[0]) then
      var r := Strip(s[1..]);
      ghost var i, j :| StrippedAt(s[1..], r, i, j);
      StrippedAfterLeadingSpace(s, r, i, j);
      r
    else if IsSpace(s[|s| - 1]) then
      var r := Strip(s[..|s| - 1]);
      ghost var i, j :| StrippedAt(s[..|s| - 1], r, i, j);
      StrippedBeforeTrailingSpace(s, r, i, j);
      r
    else
      assert StrippedAt(s, s, 0, |s|);
      s
  }

  /** A strip of `s[1..]` is a strip of `s` when `s[0]` is whitespace. */
  lemma StrippedAfterLeadingSpace(s: string, r: string, i: int, j: int)
    requires s != [] && IsSpace(s[0]) && StrippedAt(s[1..], r, i, j)
    ensures StrippedAt(s, r, i + 1, j + 1)
  {
    assert r == s[i + 1..j + 1];
    assert forall k :: 1 <= k < |s| ==> s[k] == s[1..][k - 1];
  }

  /** A strip of all but the last character is a strip of `s` when that one is whitespace. */
  lemma StrippedBeforeTrailingSpace(s: string, r: string, i: int, j: int)
    requires s != [] && IsSpace(s[|s| - 1]) && StrippedAt(s[..|s| - 1], r, i, j)
    ensures StrippedAt(s, r, i, j)
  {
    assert r == s[i..j];
    assert forall k :: 0 <= k < |s| - 1 ==> s[k] == s[..|s| - 1][k];
  }

  /** `text[text.find('['):text.rfind(']') + 1]`, or none when either bracket is missing. */
  function JsonSlice(text: string): (r: Option<string>)
    ensures r.None? <==> '[' !in text || ']' !in text
    ensures r.Some? ==> (r.value == "" <==> RFind(text, ']') < Find(text, '['))
    ensures r.Some? && r.value != "" ==>
      && r.value == text[Find(text, '[')..RFind(text, ']') + 1]
      && r.value[0] == '[' && r.value[|r.value| - 1] == ']'
      && '[' !in text[..Find(text, '[')] && ']' !in text[RFind(text, ']') + 1..]
  {
    var start := Find(text, '[');
    var end := RFind(text, ']') + 1;
    if start == -1 || end == 0 then None
    else Some(Slice(text, start, end))
  }

  /** When the last `]` comes before the first `[`, the slice is empty. */
  lemma ClosingBeforeOpeningGivesEmptySlice(prefix: string, middle: string, suffix: string)
    requires '[' !in prefix + middle && ']' !in middle + suffix
    ensures JsonSlice(prefix + "]" + middle + "[" + suffix) == Some("")
  {
  }

  // ---------------------------------------------------------------- events from JSON

  /** The decoded JSON values that reach the event model. */
  datatype Json =
    | JString(text: string)
    | JNumber(number: int)
    | JBool(flag: bool)
    | JNull
    | JArray(items: seq<Json>)
    | JObject(fields: map<string, Json>)

  /** A required string field of an event object, or the validation failure naming it. */
  function RequiredString(fields: map<string, Json>, key: string): (r: Result<string, string>)
    ensures r.Success? <==> key in fields && fields[key].JString?
    ensures r.Success? ==> r.value == fields[key].text
  {
    if key in fields && fields[key].JString? then Success(fields[key].text)
    else Failure("validation error for CalendarEvent: " + key)
  }

  /** An optional string field: absent means the empty default; present must be a string. */
  function OptionalString(fields: map<string, Json>, key: string): (r: Result<string, string>)
    ensures r.Success? <==> key !in fields || fields[key].JString?
    ensures r.Success? ==> r.value == if key in fields then fields[key].text else ""
  {
    if key !in fields then Success("")
    else if fields[key].JString? then Success(fields[key].text)
    else Failure("validation error for CalendarEvent: " + key)
  }

  /** `CalendarEvent(**event)`: the value must be an object whose three required fields
      are strings and whose optional fields, when present, are strings; other keys are
      ignored. */
  function ValidateEvent(value: Json): (r: Result<CalendarEvent, string>)
    ensures r.Success? <==>
      && value.JObject?
      && "summary" in value.fields && value.fields["summary"].JString?
      && "start_datetime" in value.fields && value.fields["start_datetime"].JString?
      && "end_datetime" in value.fields && value.fields["end_datetime"].JString?
      && ("description" !in value.fields || value.fields["description"].JString?)
      && ("location" !in value.fields || value.fields["location"].JString?)
    ensures r.Success? ==>
      && r.value.summary == value.fields["summary"].text
      && r.value.startDateTime == value.fields["start_datetime"].text
      && r.value.endDateTime == value.fields["end_datetime"].text
      && r.value.description == (if "description" in value.fields then value.fields["description"].text else "")
      && r.value.location == (if "location" in value.fields then value.fields["location"].text else "")
  {
    if !value.JObject? then Failure("argument after ** must be a mapping")
    else
      var fields := value.fields;
      var summary := RequiredString(fields, "summary");
      var start := RequiredString(fields, "start_datetime");
      var end := RequiredString(fields, "end_datetime");
      var description := OptionalString(fields, "description");
      var location := OptionalString(fields, "location");
      if summary.Failure? then Failure(summary.error)
      else if start.Failure? then Failure(start.error)
      else if end.Failure? then Failure(end.error)
      else if description.Failure? then Failure(description.error)
      else if location.Failure? then Failure(location.error)
      else Success(NewCalendarEvent(summary.value, start.value, end.value, description.value, location.value))
  }

  /** `[CalendarEvent(**event) for event in events_data]`: the first invalid item raises. */
  function ValidateAll(items: seq<Json>): (r: Result<seq<CalendarEvent>, string>)
    ensures r.Success? <==> forall i :: 0 <= i < |items| ==> ValidateEvent(items[i]).Success?
    ensures r.Success? ==> |r.value| == |items|
    ensures r.Success? ==> forall i :: 0 <= i < |items| ==> r.value[i] == ValidateEvent(items[i]).value
  {
    if items == [] then Success([])
    else
      var first := ValidateEvent(items[0]);
      var rest := ValidateAll(items[1..]);
      if first.Failure? then Failure(first.error)
      else if rest.Failure? then
        assert !ValidateEvent(items[1..][0]).Success? || exists i :: 0 <= i < |items| - 1 && !ValidateEvent(items[1..][i]).Success?;
        Failure(rest.error)
      else
        assert forall i :: 1 <= i < |items| ==> items[i] == items[1..][i - 1];
        Success([first.value] + rest.value)
  }

  // ---------------------------------------------------------------- the extract pipeline

  /** What opening the uploaded bytes with the imaging library gives: the image's mode,
      or the reason it could not be read or converted. */
  datatype Upload = Opened(mode: string) | Unreadable(reason: string)

  /** The text-detection answer: an error message (empty when none) and the annotations,
      whose first one is the full text. */
  datatype OcrResponse = OcrResponse(errorMessage: string, annotations: seq<string>)

  /** What the handler's body raises. */
  datatype Raised =
    | RaisedHttp(status: int, detail: string)
    | RaisedJsonDecode(message: string)
    | RaisedOther(message: string)

  /** The error the endpoint answers with. */
  datatype HttpError = HttpError(status: int, detail: string)

  /** The handler's `except` clauses: an `HTTPException` passes unchanged, a JSON decode
      error becomes a 500 "Failed to parse events: ...", anything else a 500 "Error
      processing image: ...". */
  function ToHttpError(e: Raised): (r: HttpError)
    ensures e.RaisedHttp? ==> r == HttpError(e.status, e.detail)
    ensures !e.RaisedHttp? ==> r.status == 500
    ensures e.RaisedJsonDecode? ==> r.detail == "Failed to parse events: " + e.message
    ensures e.RaisedOther? ==> r.detail == "Error processing image: " + e.message
  {
    match e
    case RaisedHttp(status, detail) => HttpError(status, detail)
    case RaisedJsonDecode(message) => HttpError(500, "Failed to parse events: " + message)
    case RaisedOther(message) => HttpError(500, "Error processing image: " + message)
  }

  /** The OCR step: a Vision error message gives a 500, no annotations a 400, otherwise
      the first annotation is the text. A failed call raises its own exception. */
  function OcrText(ocr: Result<OcrResponse, string>): (r: Result<string, Raised>)
    ensures r.Success? <==> ocr.Success? && ocr.value.errorMessage == "" && ocr.value.annotations != []
    ensures r.Success? ==> r.value == ocr.value.annotations[0]
    ensures ocr.Success? && ocr.value.errorMessage != "" ==>
      r == Failure(RaisedHttp(500, "Vision API error: " + ocr.value.errorMessage))
    ensures ocr.Success? && ocr.value.errorMessage == "" && ocr.value.annotations == [] ==>
      r == Failure(RaisedHttp(400, NoTextDetail))
    ensures ocr.Failure? ==> r == Failure(RaisedOther(ocr.error))
  {
    match ocr
    case Failure(message) => Failure(RaisedOther(message))
    case Success(response) =>
      if response.errorMessage != "" then Failure(RaisedHttp(500, "Vision API error: " + response.errorMessage))
      else if response.annotations == [] then Failure(RaisedHttp(400, NoTextDetail))
      else Success(response.annotations[0])
  }

  /** From the model's reply to the event list: strip, slice, decode, validate. */
  function EventsFromReply(reply: string, loads: string -> Result<seq<Json>, string>): (r: Result<seq<CalendarEvent>, Raised>)
    ensures JsonSlice(Strip(reply)).None? ==> r == Failure(RaisedHttp(500, NoBracketsDetail))
    ensures r.Failure? && r.error.RaisedHttp? ==> r.error == RaisedHttp(500, NoBracketsDetail)
    ensures r.Failure? && r.error.RaisedJsonDecode? ==>
      JsonSlice(Strip(reply)).Some? && loads(JsonSlice(Strip(reply)).value).Failure?
    ensures r.Success? ==>
      && JsonSlice(Strip(reply)).Some?
      && loads(JsonSlice(Strip(reply)).value).Success?
      && ValidateAll(loads(JsonSlice(Strip(reply)).value).value) == Success(r.value)
    ensures var slice := JsonSlice(Strip(reply));
      slice.Some? && loads(slice.value).Failure? ==> r == Failure(RaisedJsonDecode(loads(slice.value).error))
    ensures var slice := JsonSlice(Strip(reply));
      slice.Some? && loads(slice.value).Success? && ValidateAll(loads(slice.value).value).Failure? ==>
        r == Failure(RaisedOther(ValidateAll(loads(slice.value).value).error))
    ensures var slice := JsonSlice(Strip(reply));
      slice.Some? && loads(slice.value).Success? && ValidateAll(loads(slice.value).value).Success? ==>
        r == Success(ValidateAll(loads(slice.value).value).value)
  {
    match JsonSlice(Strip(reply))
    case None => Failure(RaisedHttp(500, NoBracketsDetail))
    case Some(jsonText) =>
      match loads(jsonText)
      case Failure(message) => Failure(RaisedJsonDecode(message))
      case Success(items) =>
        match ValidateAll(items)
        case Failure(message) => Failure(RaisedOther(message))
        case Success(events) => Success(events)
  }

  /** The body of `POST /api/extract-calendar-events` up to its `except` clauses. */
  function ExtractBody(upload: Upload, ocr: Result<OcrResponse, string>,
                       ask: string -> Result<string, string>,
                       loads: string -> Result<seq<Json>, string>, timestamp: string): (r: Result<EventsResponse, Raised>)
    ensures upload.Unreadable? ==> r == Failure(RaisedHttp(400, "Invalid image file: " + upload.reason))
    ensures upload.Opened? && OcrText(ocr).Failure? ==> r == Failure(OcrText(ocr).error)
    ensures upload.Opened? && OcrText(ocr).Success? ==>
      var ocrText := OcrText(ocr).value;
      && (ask(ocrText).Failure? ==> r == Failure(RaisedOther(ask(ocrText).error)))
      && (ask(ocrText).Success? && EventsFromReply(ask(ocrText).value, loads).Failure? ==>
            r == Failure(EventsFromReply(ask(ocrText).value, loads).error))
      && (ask(ocrText).Success? && EventsFromReply(ask(ocrText).value, loads).Success? ==>
            r == Success(EventsResponse(EventsFromReply(ask(ocrText).value, loads).value, ocrText, "img_" + timestamp)))
  {
    match upload
    case Unreadable(reason) => Failure(RaisedHttp(400, "Invalid image file: " + reason))
    case Opened(_) =>
      match OcrText(ocr)
      case Failure(e) => Failure(e)
      case Success(ocrText) =>
        match ask(ocrText)
        case Failure(message) => Failure(RaisedOther(message))
        case Success(reply) =>
          match EventsFromReply(reply, loads)
          case Failure(e) => Failure(e)
          case Success(events) => Success(EventsResponse(events, ocrText, "img_" + timestamp))
  }

  /** `POST /api/extract-calendar-events`. `ocr` is the text-detection outcome for the
      normalised image, `ask` the language model's reply (or the exception it raised) for
      the OCR text, `loads` the JSON decoder and `timestamp` the rendered clock reading. */
  function ExtractCalendarEvents(upload: Upload, ocr: Result<OcrResponse, string>,
                                 ask: string -> Result<string, string>,
                                 loads: string -> Result<seq<Json>, string>, timestamp: string): (r: Result<EventsResponse, HttpError>)
    ensures r.Failure? ==> r.error.status == 400 || r.error.status == 500
    ensures r.Failure? ==> r.error.detail != ""
    ensures r.Failure? && r.error.status == 400 <==>
      upload.Unreadable? || (ocr.Success? && ocr.value.errorMessage == "" && ocr.value.annotations == [])
    ensures r.Success? ==>
      && upload.Opened? && OcrText(ocr).Success?
      && r.value.ocrText == ocr.value.annotations[0]
      && r.value.imageId == "img_" + timestamp
      && ask(r.value.ocrText).Success?
      && EventsFromReply(ask(r.value.ocrText).value, loads) == Success(r.value.events)
    ensures upload.Unreadable? ==> r == Failure(HttpError(400, "Invalid image file: " + upload.reason))
    ensures upload.Opened? && OcrText(ocr).Failure? ==> r == Failure(ToHttpError(OcrText(ocr).error))
    ensures upload.Opened? && OcrText(ocr).Success? ==>
      var ocrText := OcrText(ocr).value;
      && (ask(ocrText).Failure? ==> r == Failure(HttpError(500, "Error processing image: " + ask(ocrText).error)))
      && (ask(ocrText).Success? && EventsFromReply(ask(ocrText).value, loads).Failure? ==>
            r == Failure(ToHttpError(EventsFromReply(ask(ocrText).value, loads).error)))
      && (ask(ocrText).Success? && EventsFromReply(ask(ocrText).value, loads).Success? ==>
            r == Success(EventsResponse(EventsFromReply(ask(ocrText).value, loads).value, ocrText, "img_" + timestamp)))
  {
    match ExtractBody(upload, ocr, ask, loads, timestamp)
    case Success(response) => Success(response)
    case Failure(e) => Failure(ToHttpError(e))
  }

  /** A reply whose last `]` comes before its first `[` slices to the empty string, which
      the decoder rejects, so the endpoint answers 500 "Failed to parse events: ...". */
  lemma MisorderedBracketsAreADecodeError(mode: string, ocrText: string,
                                          prefix: string, middle: string, suffix: string,
                                          ask: string -> Result<string, string>,
                                          loads: string -> Result<seq<Json>, string>, timestamp: string)
    requires '[' !in prefix + middle && ']' !in middle + suffix
    requires prefix == "" || !IsSpace(prefix[0])
    requires suffix == "" || !IsSpace(suffix[|suffix| - 1])
    requires ask(ocrText) == Success(prefix + "]" + middle + "[" + suffix)
    requires loads("").Failure?
    ensures ExtractCalendarEvents(Opened(mode), Success(OcrResponse("", [ocrText])), ask, loads, timestamp)
            == Failure(HttpError(500, "Failed to parse events: " + loads("").error))
  {
    var reply := prefix + "]" + middle + "[" + suffix;
    assert reply[0] == (if prefix == "" then ']' else prefix[0]);
    assert reply[|reply| - 1] == (if suffix == "" then '[' else suffix[|suffix| - 1]);
    assert Strip(reply) == reply;
    ClosingBeforeOpeningGivesEmptySlice(prefix, middle, suffix);
  }

  /** Every error the extract endpoint answers with carries a non-empty detail, so the
      client's api module shows the backend's own words rather than its fallback. */
  lemma ExtractErrorDetailReachesClient(upload: Upload, ocr: Result<OcrResponse, string>,
                                        ask: string -> Result<string, string>,
                                        loads: string -> Result<seq<Json>, string>, timestamp: string)
    requires ExtractCalendarEvents(upload, ocr, ask, loads, timestamp).Failure?
    ensures var e := ExtractCalendarEvents(upload, ocr, ask, loads, timestamp).error;
      Api.ExtractCalendarEvents(Api.ErrorReply(Some(e.detail))) == Failure(e.detail)
  {
  }

  // ---------------------------------------------------------------- add to calendar

  /** The Google Calendar payload for one event, in the default time zone. */
  function ToGoogleEvent(e: CalendarEvent): (g: GoogleEvent)
    ensures g.summary == e.summary && g.description == e.description && g.location == e.location
    ensures g.start == EventTime(e.startDateTime, DefaultTimeZone)
    ensures g.end == EventTime(e.endDateTime, DefaultTimeZone)
  {
    GoogleEvent(e.summary, e.description, e.location,
                EventTime(e.startDateTime, DefaultTimeZone), EventTime(e.endDateTime, DefaultTimeZone))
  }

  /** `POST /api/add-to-calendar`: converts every event, in order, and reports how many.
      The calendar id is accepted but not used while the calendar client is not wired in. */
  method AddToCalendar(events: seq<CalendarEvent>, calendarId: string := Api.DefaultCalendarId)
    returns (response: AddResponse)
    ensures response.success
    ensures response.eventsCreated == |events| == |response.events|
    ensures forall i :: 0 <= i < |events| ==> response.events[i] == ToGoogleEvent(events[i])
    ensures response.message == AddedMessage
  {
    var created: seq<GoogleEvent> := [];
    for i := 0 to |events|
      invariant |created| == i
      invariant forall k :: 0 <= k < i ==> created[k] == ToGoogleEvent(events[k])
    {
      created := created + [ToGoogleEvent(events[i])];
    }
    response := AddResponse(true, |created|, created, AddedMessage);
  }
}
