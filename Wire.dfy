/** JSON shapes exchanged between the browser clients and the calendar backend
    (cloud/backend/main.py); each frontend treats them as opaque values it passes on. */
module Wire {
  import opened Wrappers

  /** One event candidate, the backend's `CalendarEvent` model. */
  datatype CalendarEvent = CalendarEvent(
    summary: string,
    startDateTime: string,
    endDateTime: string,
    description: string,
    location: string)

  /** Body of a successful extract call, the backend's `CalendarEventsResponse`. */
  datatype EventsResponse = EventsResponse(events: seq<CalendarEvent>, ocrText: string, imageId: string)

  /** Body of the commit call: `{events, calendar_id}`. */
  datatype CommitRequest = CommitRequest(events: seq<CalendarEvent>, calendarId: string)

  /** `{dateTime, timeZone}` of a Google Calendar event. */
  datatype EventTime = EventTime(dateTime: string, timeZone: string)

  /** The Google Calendar payload the backend builds for one event. */
  datatype GoogleEvent = GoogleEvent(
    summary: string,
    description: string,
    location: string,
    start: EventTime,
    end: EventTime)

  /** Body of a successful commit call. */
  datatype AddResponse = AddResponse(success: bool, eventsCreated: nat, events: seq<GoogleEvent>, message: string)

  /** Body of the backend's health endpoint; `status` may be absent. */
  datatype HealthBody = HealthBody(status: Option<string>, service: Option<string>)
}
