# Family Calendar Assistant — a Dafny model of its core

The Family Calendar Assistant turns a photo of a paper calendar into Google Calendar
events. A browser client uploads the image. The backend runs OCR on it and asks a
language model to turn the text into a JSON array of events. The user reviews the
candidates, unticks the ones they do not want, and commits the rest.

This project models the parts of the system that decide things:

- **`CloudApp`** (cloud/frontend/app.js): the vanilla-script page. It is a class
  `UploadPage` holding the module variables `selectedFile` and `extractedEvents`, the
  rendered checkboxes and the visibility of every section and button. Its methods are
  the page's event handlers. An asynchronous handler is split in two: the part that
  runs up to the network call, and the continuation that receives the call's outcome.
- **`EventsList`** (frontend/src/components/EventsList.jsx): the React review screen.
  It keeps the selection as a set of indices, with the toggle, select-all and
  add-to-calendar handlers and the button states.
- **`CalendarUpload`** (frontend/src/components/CalendarUpload.jsx): the React intake
  screen. It validates the file, tracks the drag highlight, and runs the extract call
  with its loading and error state.
- **`Api`** (frontend/src/api.js): the on-premise probe and the endpoint table it
  selects. It also states how the extract, commit and health calls turn an HTTP reply
  into a value or an error message.
- **`Pwa`** (frontend/src/pwa.js): HEIC detection, iOS and standalone detection, the
  install hint, the paste handler, and picking up an image shared through the share
  sheet.
- **`ServiceWorker`** (frontend/public/sw.js): the install, cache-first fetch,
  activate and share-target handlers. They run over **`Caches`**, a model of the
  browser's cache storage: named caches in creation order, each mapping URLs to
  responses.
- **`Backend`** (cloud/backend/main.py): the event model and its defaults. It covers
  the extract pipeline: the image-mode decision, the OCR checks, slicing the JSON array
  out of the model's reply, event validation, and the mapping of every raised exception
  to an HTTP error. It also covers the health endpoint and the add-to-calendar
  conversion loop.
- **`KnowledgeBase`** (on_premise/knowledge_base_mcp/app.py): the scan endpoint. It
  validates the request, checks the directory and counts the documents in the walk.

Helper modules: `Wrappers` (Option and Result), `Text` (JavaScript and Python string
operations used by the sources), `Wire` (the JSON shapes shared by clients and
backend), `Browser` (files, blobs, requests, responses) and `Selection` (filtering a
list by a set of indices, shared by both review screens).

The OCR service, the language model, `json.loads`, `fetch`, `os.walk` and
`os.path.isdir` are parameters of the operations that use them. So are the clock
reading and the browser's file lists.

## Behaviour of the code worth knowing

- On-premise probe: only an ok answer from the image-analysis service sets `isOnPrem`.
  A non-ok answer leaves the flag as it was, and only a transport failure clears it
  (`Api.Origin.CheckOnPremStatus`).
- Endpoint table: the calendar-assistant URL is the same in both branches. Only the
  image-analysis and knowledge-base URLs switch to the gateway (`Api.Origin.GetApiEndpoints`).
- Upload Another and Done in app.js reset the upload and the sections. They leave
  `extractedEvents` and the rendered checkboxes in place (`CloudApp.UploadPage.StartOver`).
  Retry keeps the chosen file.
- app.js shows one generic message for every extract or commit failure. The backend's
  `detail` reaches the screen only through api.js and the React screens
  (`CalendarUpload.BackendDetailReachesScreen`).
- The knowledge-base scan answers with the key `found_files`.
- sw.js registers its cache-first `fetch` listener before the share-target listener, and
  the first one calls `respondWith` for every request. For a shared POST to "/" the
  share-target listener's own `respondWith` call therefore throws, and its 303 redirect
  is never the answer the browser gets.

## Model

| member | source | states |
|---|---|---|
| Api.CalendarApiUrl | frontend/src/api.js:7 | the calendar URL is `VITE_API_URL` when set and non-empty, else the localhost default; never empty |
| Api.Origin.constructor | frontend/src/api.js:7-9 | at load the flag is false and the calendar URL is fixed |
| Api.Origin.CheckOnPremStatus | frontend/src/api.js:11-23 | an ok probe sets the flag, a non-ok one leaves it, a failed one clears it |
| Api.Origin.GetApiEndpoints | frontend/src/api.js:25-40 | on-premise pair when the flag is set, gateway pair otherwise; the calendar URL in both |
| Api.DetailOr | frontend/src/api.js:62-63 | a non-empty `detail` is the message, otherwise the fallback; never empty |
| Api.ExtractCalendarEvents | frontend/src/api.js:52-67 | success exactly for an ok reply, with its body; a non-ok reply fails with its detail or the fallback; a transport error keeps its message |
| Api.AddEventsRequest | frontend/src/api.js:75-85 | the posted body carries the events and the calendar id |
| Api.AddEventsToCalendar | frontend/src/api.js:75-93 | the same reply rule as extraction, with the commit fallback |
| Api.CheckCalendarBackendHealth | frontend/src/api.js:99-111 | true only for an ok reply whose status is "healthy" |
| Api.CommitDefaultsToPrimary | frontend/src/api.js:75 | without a calendar id the request names "primary" |
| Backend.NewCalendarEvent | cloud/backend/main.py:41-47 | an event keeps the fields it is given |
| Backend.OptionalFieldsDefaultEmpty | cloud/backend/main.py:46-47 | description and location default to the empty string |
| Backend.Root | cloud/backend/main.py:84-87 | the health body has status "healthy" and the service name |
| Backend.ClientSeesHealthyBackend | cloud/backend/main.py:84-87 | the client's health check accepts the backend's health body |
| Backend.Normalisation | cloud/backend/main.py:111-119 | RGBA, LA and P are composited (P via RGBA), RGB is kept, every other mode is converted |
| Backend.NormalisedImageIsRgb | cloud/backend/main.py:111-119 | whatever the mode, the image sent to OCR is RGB |
| Backend.Strip | cloud/backend/main.py:193 | the stripped reply is a contiguous part of the reply with no whitespace at either end, and everything cut off on either side is whitespace |
| Backend.JsonSlice | cloud/backend/main.py:196-205 | no slice when either bracket is missing; otherwise the text from the first `[` to the last `]`, empty exactly when that `]` precedes that `[` |
| Backend.ClosingBeforeOpeningGivesEmptySlice | cloud/backend/main.py:196-205 | when the reply's last `]` comes before its first `[`, the slice is the empty string |
| Backend.RequiredString | cloud/backend/main.py:43-45 | a required field must be present and a string |
| Backend.OptionalString | cloud/backend/main.py:46-47 | an optional field is a string when present and "" when absent |
| Backend.ValidateEvent | cloud/backend/main.py:41-47 | an object validates exactly when the three required fields are strings and the optional ones are strings or absent; all five values are copied, an absent optional field as "" |
| Backend.ValidateAll | cloud/backend/main.py:209 | the list validates exactly when every item does; the events keep the items' order and count |
| Backend.ToHttpError | cloud/backend/main.py:217-228 | HTTP errors pass unchanged; a decode error is a 500 "Failed to parse events: …"; anything else a 500 "Error processing image: …" |
| Backend.OcrText | cloud/backend/main.py:134-150 | a Vision error message is a 500, no annotations a 400, otherwise the text is the first annotation; a failed call raises its own message |
| Backend.EventsFromReply | cloud/backend/main.py:193-209 | a missing bracket is the 500 "Failed to parse calendar events from image"; a decoder failure raises its message as a decode error, a validation failure its message as another error, and items that all validate are the events |
| Backend.ExtractBody | cloud/backend/main.py:101-215 | an unreadable image raises a 400 "Invalid image file: …"; then the OCR step's error, the model call's failure or the reply's error is raised; otherwise the OCR text, the reply's events and `img_` plus the timestamp are returned |
| Backend.ExtractCalendarEvents | cloud/backend/main.py:101-228 | every error is a 400 or a 500 with a non-empty detail; 400 exactly for an unreadable image or empty OCR; each step's failure is answered through the `except` clauses; a successful pipeline answers with the OCR text, the reply's events and `img_` plus the timestamp |
| Backend.MisorderedBracketsAreADecodeError | cloud/backend/main.py:205-223 | an empty slice reaches the decoder and ends as a 500 "Failed to parse events: …" |
| Backend.ExtractErrorDetailReachesClient | cloud/backend/main.py:217-228 | every extract error's detail is what the client's api module raises |
| Backend.ToGoogleEvent | cloud/backend/main.py:255-267 | the payload copies summary, description, location and both times, in "America/New_York" |
| Backend.AddToCalendar | cloud/backend/main.py:231-285 | success, a count equal to the number of events, one payload per event in input order, and the fixed message |
| Browser.IsImageType | frontend/src/components/CalendarUpload.jsx:27 | a type is an image type exactly when its first six characters are `image/` |
| Browser.Pathname | frontend/public/sw.js:72-74 | the path is the URL's prefix before `?` or `#` |
| Caches.Remove | frontend/public/sw.js:62 | deleting a cache removes its name, keeps the others and keeps names distinct; an absent name changes nothing, and a present one is cut out at its position with the rest in order |
| Caches.MatchIn | frontend/public/sw.js:26 | a URL matches nothing exactly when no cache holds it; a match comes from the first cache, in creation order, that holds it |
| Caches.CacheStorage.constructor | frontend/public/sw.js:15 | cache storage starts with no caches |
| Caches.CacheStorage.Open | frontend/public/sw.js:15 | opening creates an empty, newest cache when the name is new, and changes nothing otherwise |
| Caches.CacheStorage.Put | frontend/public/sw.js:44 | only a GET request is stored, under its URL |
| Caches.CacheStorage.PutAll | frontend/public/sw.js:18 | all entries are added to the named cache at once |
| Caches.CacheStorage.DeleteEntry | frontend/src/pwa.js:40 | the URL's entry is gone from that cache; reports whether it was there |
| Caches.CacheStorage.Match | frontend/public/sw.js:26 | a request other than GET matches nothing; a GET matches nothing exactly when no cache holds its URL, and otherwise the first cache, in creation order, that holds it answers |
| Caches.CacheStorage.Delete | frontend/public/sw.js:62 | the named cache is gone and the other caches keep their order |
| CalendarUpload.ToExtracted | frontend/src/components/CalendarUpload.jsx:83-89 | the backend's events, OCR text and image id are handed on unchanged |
| CalendarUpload.CalendarUpload.constructor | frontend/src/components/CalendarUpload.jsx:7-11 | no file, no preview, not loading, no error, no highlight |
| CalendarUpload.CalendarUpload.HandleFile | frontend/src/components/CalendarUpload.jsx:23-41 | no file changes nothing; a non-image sets the error and keeps the file; an image becomes the file and clears the error |
| CalendarUpload.CalendarUpload.PreviewLoaded | frontend/src/components/CalendarUpload.jsx:37-39 | the data URL becomes the preview |
| CalendarUpload.CalendarUpload.HandleFileSelect | frontend/src/components/CalendarUpload.jsx:43-46 | the first selected file goes through the same validation |
| CalendarUpload.CalendarUpload.HandleDrag | frontend/src/components/CalendarUpload.jsx:48-56 | enter and over raise the highlight, leave drops it, other events leave it |
| CalendarUpload.CalendarUpload.HandleDrop | frontend/src/components/CalendarUpload.jsx:58-66 | the highlight drops and only the first dropped file is validated |
| CalendarUpload.CalendarUpload.BeginProcess | frontend/src/components/CalendarUpload.jsx:68-80 | without a file nothing happens; otherwise loading is set, the error cleared, that file uploaded and the process button hidden |
| CalendarUpload.CalendarUpload.FinishProcess | frontend/src/components/CalendarUpload.jsx:80-95 | a result is handed on, a failure shows its message or the fallback, and loading ends either way, so the process button shows again exactly when a preview exists |
| CalendarUpload.CalendarUpload.HandleRemove | frontend/src/components/CalendarUpload.jsx:98-105 | file, preview, error and input value are cleared |
| CalendarUpload.BackendDetailReachesScreen | frontend/src/components/CalendarUpload.jsx:90-92 | a non-ok extract reply shows the backend's detail, or the fallback, never an empty line |
| CloudApp.AllChecked | cloud/frontend/app.js:266-281 | every rendered box starts checked |
| CloudApp.CheckedSet | cloud/frontend/app.js:301 | the checked indices are exactly the boxes that are ticked |
| CloudApp.CheckedEvents | cloud/frontend/app.js:301-305 | one event is sent per ticked box, never more than the list holds |
| CloudApp.CheckedEventsInOrder | cloud/frontend/app.js:301-305 | the events sent are those at the ticked indices, in list order, one per ticked box |
| CloudApp.AllCheckedSendsAll | cloud/frontend/app.js:301-305 | with every box left ticked, every extracted event is sent |
| CloudApp.NothingCheckedSendsNothing | cloud/frontend/app.js:301-310 | nothing is sent exactly when no box is ticked |
| CloudApp.UploadPage.constructor | cloud/frontend/app.js:18-20 | a signed-in page with no file, no events and every result section hidden |
| CloudApp.UploadPage.ShowError | cloud/frontend/app.js:366-371 | processing and results hide, the error section shows the message |
| CloudApp.UploadPage.HideAllSections | cloud/frontend/app.js:374-379 | all four result sections hide |
| CloudApp.UploadPage.HandleFileSelect | cloud/frontend/app.js:182-193 | no file changes nothing; a non-image shows the error and keeps the old file; an image becomes `selectedFile` |
| CloudApp.UploadPage.FileInputChange | cloud/frontend/app.js:161-163 | the first chosen file goes through the same validation |
| CloudApp.UploadPage.PreviewLoaded | cloud/frontend/app.js:195-200 | the preview and the process button appear, the placeholder goes |
| CloudApp.UploadPage.ResetUpload | cloud/frontend/app.js:211-217 | the file and the input are cleared, the preview and process button hidden |
| CloudApp.UploadPage.ProcessClick | cloud/frontend/app.js:220-236 | without a file nothing happens; otherwise only the processing section shows and the file is uploaded |
| CloudApp.UploadPage.DisplayEvents | cloud/frontend/app.js:257-297 | one checked box per event; the notice and no add button exactly when there are no events |
| CloudApp.UploadPage.ProcessReply | cloud/frontend/app.js:238-253 | success stores and lists the events with results shown; failure shows the generic message and keeps the old events |
| CloudApp.UploadPage.ToggleCheckbox | cloud/frontend/app.js:288-290 | one click flips that box and no other |
| CloudApp.UploadPage.AddSelectedClick | cloud/frontend/app.js:300-326 | nothing ticked gives the error and no request; otherwise the ticked events go out for "primary" |
| CloudApp.UploadPage.AddSelectedReply | cloud/frontend/app.js:328-342 | success reports the number of events sent; failure shows the generic message |
| CloudApp.UploadPage.StartOver | cloud/frontend/app.js:345-357 | Upload Another and Done reset the upload, hide every result section and show the upload section |
| CloudApp.UploadPage.RetryClick | cloud/frontend/app.js:359-363 | every result section hides, the upload section shows, the file stays |
| EventsList.Toggled | frontend/src/components/EventsList.jsx:13-21 | the toggled index flips and no other index changes |
| EventsList.AllToggled | frontend/src/components/EventsList.jsx:23-29 | a full selection clears, any other selects every event |
| EventsList.ToggleTwiceRestores | frontend/src/components/EventsList.jsx:13-21 | toggling the same event twice restores the selection |
| EventsList.ToggleAllTwiceFromFull | frontend/src/components/EventsList.jsx:23-29 | from a full selection, select-all clears and a second click selects all again |
| EventsList.DeselectOneOfAll | frontend/src/components/EventsList.jsx:13-21 | deselecting one of n fully selected events leaves n - 1 |
| EventsList.EmptySelectionSendsNothing | frontend/src/components/EventsList.jsx:74-81 | the selection is empty exactly when nothing would be sent |
| EventsList.EventsList.constructor | frontend/src/components/EventsList.jsx:6-11 | every event starts selected; not adding, no error, no success |
| EventsList.EventsList.ToggleEvent | frontend/src/components/EventsList.jsx:13-21 | the selection becomes the toggled selection and stays within the list |
| EventsList.EventsList.ToggleAll | frontend/src/components/EventsList.jsx:23-29 | a full selection clears, any other becomes full |
| EventsList.EventsList.EventsToAdd | frontend/src/components/EventsList.jsx:75-77 | the selected events in list order, as many as are selected |
| EventsList.EventsList.BeginAdd | frontend/src/components/EventsList.jsx:74-88 | an empty selection sets the error and sends nothing; otherwise adding starts with the selected events |
| EventsList.EventsList.FinishAdd | frontend/src/components/EventsList.jsx:88-101 | success is recorded and handed on; a failure shows its message or the fallback; adding ends either way |
| EventsList.EventsList.ControlStates | frontend/src/components/EventsList.jsx:138-208 | add disabled while adding or with nothing to send; Upload Another disabled while adding; select-all ticked exactly for a full selection |
| KnowledgeBase.DocumentsIn | on_premise/knowledge_base_mcp/app.py:28-33 | the count of documents among a directory's files, never more than the files |
| KnowledgeBase.DocumentsInWalk | on_premise/knowledge_base_mcp/app.py:27-33 | the count over the whole walk never exceeds the files walked |
| KnowledgeBase.ScanDocuments | on_premise/knowledge_base_mcp/app.py:12-38 | a missing body or path is a 400, a non-directory a 400 naming it, otherwise "scan_complete" with the document count of the walk |
| KnowledgeBase.IsDocument | on_premise/knowledge_base_mcp/app.py:29 | a name is a document exactly when its tail, lower-cased, is one of `.pdf`, `.docx`, `.txt`, `.md` |
| KnowledgeBase.ExtensionMatchIgnoresCase | on_premise/knowledge_base_mcp/app.py:29 | a name and its lower-cased form are documents alike |
| KnowledgeBase.UpperCaseExtensionCounts | on_premise/knowledge_base_mcp/app.py:29 | "REPORT.PDF" is a document |
| Pwa.HeicNameInAnyCase | frontend/src/pwa.js:122-129 | a name ending in `.heic` or `.heif` in any letter case is HEIC, whatever its type |
| Pwa.IsHeicFile | frontend/src/pwa.js:122-129 | a file is HEIC exactly when its type is `image/heic` or `image/heif`, or the last five characters of its name lower-case to `.heic` or `.heif` |
| Pwa.HeicTypeDecidesForOtherNames | frontend/src/pwa.js:122-129 | for a name without either extension, in any case, the type alone decides |
| Pwa.IsIos | frontend/src/pwa.js:68-73 | a MacIntel with more than one touch point is iOS; on any other platform iOS means the user agent contains iPad, iPhone or iPod |
| Pwa.IsStandalone | frontend/src/pwa.js:58-63 | `navigator.standalone === true` means standalone; otherwise, also when the property is absent, the display-mode query decides |
| Pwa.HeicTypeIsCaseSensitive | frontend/src/pwa.js:122-129 | the type test is exact: `IMAGE/HEIC` on a `.jpg` is not HEIC, `image/heic` is |
| Pwa.DesktopMacIsNotIos | frontend/src/pwa.js:68-73 | a MacIntel with at most one touch point is iOS only through its user agent |
| Pwa.ShowInstallPrompt | frontend/src/pwa.js:78-93 | installable with the iOS message exactly on iOS outside standalone; otherwise "other" and no message |
| Pwa.InstalledAppNeverPrompts | frontend/src/pwa.js:58-93 | an app already in standalone mode is never offered installation |
| Pwa.FirstImageItem | frontend/src/pwa.js:139-148 | the index of the first item whose type starts with `image/`, or none when there is none |
| Pwa.HandlePaste | frontend/src/pwa.js:135-149 | no items does nothing; otherwise the paste is prevented exactly when an image item exists, and only the first one's file is delivered |
| Pwa.SharedFile | frontend/src/pwa.js:36-37 | the shared file is named `shared-image.jpg` and keeps the blob's type and content |
| Pwa.CheckSharedImage | frontend/src/pwa.js:27-53 | without the share flag nothing changes; with it the "shared-images" cache exists afterwards, appended to the cache order when new, and a stored image is returned once and its entry deleted |
| Pwa.ShareRoundTrip | frontend/src/pwa.js:29-45 | a shared image is picked up by the first check and the second finds nothing |
| Selection.AllIndices | frontend/src/components/EventsList.jsx:6-8 | the indices of every event |
| Selection.AllIndicesSize | frontend/src/components/EventsList.jsx:24 | a list of n events has n indices |
| Selection.SizeIsCountIffFull | frontend/src/components/EventsList.jsx:24 | over valid indices, size n means every index is selected |
| Selection.Filter | frontend/src/components/EventsList.jsx:75-77 | filtering by indices never grows the list and is empty exactly when no index is kept |
| Selection.Enumerate | cloud/frontend/app.js:301 | the kept indices, ascending, as the document lists the checked boxes |
| Selection.FilterPicksInOrder | frontend/src/components/EventsList.jsx:75-77 | the filtered list is the kept elements in their original order |
| Selection.FilterAll | frontend/src/components/EventsList.jsx:75-77 | keeping every index keeps the whole list |
| Selection.FilterSize | frontend/src/components/EventsList.jsx:75-77 | the filtered list has one element per kept index |
| ServiceWorker.Fetched | frontend/public/sw.js:18 | `addAll` stores exactly the listed URLs with their fetched responses |
| ServiceWorker.Cacheable | frontend/public/sw.js:35 | only a 200 response of type "basic" is stored, and such a response is ok |
| ServiceWorker.Install | frontend/public/sw.js:13-21 | the app cache exists afterwards, appended to the cache order when new; the five assets are stored all together or not at all |
| ServiceWorker.InstallStoresTheFiveAssets | frontend/public/sw.js:3-10 | install stores exactly "/", "/index.html", "/styles.css", "/app.js" and "/manifest.json" |
| ServiceWorker.HandleFetch | frontend/public/sw.js:24-51 | a hit is answered from cache without the network; a miss returns the network's answer unchanged and stores it only when status 200 and type "basic", appending the app cache to the cache order when it is new |
| ServiceWorker.Activate | frontend/public/sw.js:54-68 | every cache but `calendar-assistant-v1` is deleted and that one is kept unchanged |
| ServiceWorker.HandleShareTarget | frontend/public/sw.js:71-93 | a POST to "/" with an image stores it, appending "shared-images" to the cache order when new, and redirects 303 to the share flag; without one it redirects 303 to "/"; other requests are left alone |
| Text.Find | cloud/backend/main.py:196 | -1 exactly when absent, otherwise the first occurrence |
| Text.RFind | cloud/backend/main.py:197 | -1 exactly when absent, otherwise the last occurrence |
| Text.NatToDecimal | cloud/frontend/app.js:337 | the decimal rendering of the count is non-empty, all digits, without a leading zero, and reads back as the count |

## Left out

- Firebase sign-in and sign-out, and the auth state listener (cloud/frontend/app.js:23-24, 107-153), are a foreign SDK. The page is modelled as signed in.
- The share-sheet polling with `setInterval`/`setTimeout` in app.js (lines 58-104) is timing and not modelled. So are the prompt delay in InstallPrompt.jsx and the echo delay in Chat.jsx.
- `FileReader` is modelled only as a separate "preview loaded" step. The data URL's content is not modelled.
- Date formatting (`toLocaleString`), `escapeHtml`, the event card markup and the MB size display are rendering and not modelled.
- The drag highlight of app.js (a CSS class) is not modelled. CalendarUpload's `dragActive` is.
- Service-worker registration, `requestNotificationPermission`, `supportsHEIC` and `initializePWA` wrap platform APIs and are left out.
- InstallPrompt.jsx is user interface only, and it reads an undefined `hasDismissed`. It is left out.
- sw.js registers two `fetch` listeners, and its cache `put` is not awaited. Each handler is one synchronous operation here; dispatch order and asynchronous completion are not modelled. In the browser the cache-first listener answers every request, so a shared POST gets its answer from that listener and not from `ServiceWorker.HandleShareTarget`; whether the image is still stored then depends on which handler reads the request body first. `Pwa.ShareRoundTrip` composes the two handlers on their own and does not capture this.
- The React components' state updates are applied at once. React's batching and re-rendering are not modelled.
- PIL pixel work (compositing, JPEG encoding) is left out. Only the mode decision is modelled, and any failure to open or convert the image is one input with its reason.
- The `image_id` timestamp is a floating-point clock reading. It is a parameter, already rendered as text.
- `json.loads` is a parameter. The decoder is only asked for the slice, which starts with `[` and ends with `]` when non-empty. A successful decode is therefore an array, and the model takes it as a list of JSON values.
- Backend.ValidateEvent: pydantic's error text is not modelled. A failure carries a message naming the field, and the endpoint wraps it as "Error processing image: …".
- The OCR service, the language model and the calendar client are parameters or absent. Their own failures are exceptions carrying a message.
- The prompt sent to the language model is not modelled; only the model's reply for the OCR text is an input.
- FastAPI request binding is not modelled. `add_to_calendar` takes the event list as given. With a single list-typed body parameter, FastAPI expects a bare JSON array, while both clients post `{events, calendar_id}`.
- The `calendar_id` argument of `add_to_calendar` is accepted and unused, as in the source.
- FastAPI's list-valued `detail` for request validation errors is not modelled. A `detail` is a string or absent.
- Case folding is ASCII only (`toLowerCase`, `str.lower`), and `str.strip` removes the ten ASCII characters Python counts as whitespace (space, tab, line feed, vertical tab, form feed, carriage return and 0x1C to 0x1F). Unicode case mapping and non-ASCII whitespace are not modelled.
- URLs are origin-relative paths. URL parsing beyond cutting the query and fragment, and cross-origin requests, are not modelled.
- `os.walk` and `os.path.isdir` are parameters. A non-string `path` in the scan body (a `TypeError` in the source) is not modelled: the body maps keys to strings.
- The knowledge-base index route, the image-analysis service, the stub assistant service, generate-icons.py, App.jsx, main.jsx, Header.jsx, Layout.jsx and Chat.jsx are outside the modelled core.
- The initial visibility of the page's elements comes from index.html, which is not part of this model. The constructor states the signed-in state that `showSignedIn` leaves.
- EventsList.EventsList.FinishAdd: the result is returned whether or not the parent passed `onComplete`.
- CalendarUpload.CalendarUpload.FinishProcess: the extracted result is returned on every success, whether or not the parent passed `onEventsExtracted`; the component does not know its parent, so handing it on is left to the caller.
