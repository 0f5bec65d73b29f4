/** The React intake screen (frontend/src/components/CalendarUpload.jsx): the chosen
    file, its preview, the loading flag around the extract call and the error line. */
module CalendarUpload {
  import opened Wrappers
  import opened Text
  import opened Wire
  import opened Browser
  import Api

  const NotImageError := "Please select an image file"

  /** What the screen hands to `onEventsExtracted`: `{events, ocrText, imageId}`. */
  datatype Extracted = Extracted(events: seq<CalendarEvent>, ocrText: string, imageId: string)

  /** The renaming from the backend's `{events, ocr_text, image_id}`. */
  function ToExtracted(body: EventsResponse): (x: Extracted)
    ensures x.events == body.events && x.ocrText == body.ocrText && x.imageId == body.imageId
  {
    Extracted(body.events, body.ocrText, body.imageId)
  }

  class CalendarUpload {
    var file: Option<File>
    var preview: Option<string>
    var loading: bool
    var error: Option<string>
    var dragActive: bool
    /** The `value` of the hidden file input. */
    var inputValue: string

    constructor ()
      ensures file.None? && preview.None? && !loading && error.None? && !dragActive && inputValue == ""
    {
      file := None;
      preview := None;
      loading := false;
      error := None;
      dragActive := false;
      inputValue := "";
    }

    /** `handleFile`: nothing for no file; a file whose type is not an image sets the
        error and keeps the current file; an image becomes the file and clears the error.
        The preview arrives later, through `PreviewLoaded`. */
    method HandleFile(selectedFile: Option<File>)
      modifies this`file, this`error
      ensures selectedFile.None? ==> file == old(file) && error == old(error)
      ensures selectedFile.Some? && !IsImageType(selectedFile.value.mimeType) ==>
        file == old(file) && error == Some(NotImageError)
      ensures selectedFile.Some? && IsImageType(selectedFile.value.mimeType) ==>
        file == selectedFile && error.None?
    {
      if selectedFile.None? {
        return;
      }
      if !IsImageType(selectedFile.value.mimeType) {
        error := Some(NotImageError);
        return;
      }
      file := selectedFile;
      error := None;
    }

    /** The `FileReader` load callback: the data URL becomes the preview. */
    method PreviewLoaded(dataUrl: string)
      modifies this`preview
      ensures preview == Some(dataUrl)
    {
      preview := Some(dataUrl);
    }

    /** `handleFileSelect`: the browser has set the input's value and its file list;
        the first file, if any, goes to `handleFile`. */
    method HandleFileSelect(value: string, files: seq<File>)
      modifies this`inputValue, this`file, this`error
      ensures inputValue == value
      ensures files == [] ==> file == old(file) && error == old(error)
      ensures files != [] && !IsImageType(files[0].mimeType) ==> file == old(file) && error == Some(NotImageError)
      ensures files != [] && IsImageType(files[0].mimeType) ==> file == Some(files[0]) && error.None?
    {
      inputValue := value;
      HandleFile(if files == [] then None else Some(files[0]));
    }

    /** `handleDrag`: enter and over raise the highlight, leave drops it. */
    method HandleDrag(eventType: string)
      modifies this`dragActive
      ensures eventType == "dragenter" || eventType == "dragover" ==> dragActive
      ensures eventType == "dragleave" ==> !dragActive
      ensures eventType !in {"dragenter", "dragover", "dragleave"} ==> dragActive == old(dragActive)
    {
      if eventType == "dragenter" || eventType == "dragover" {
        dragActive := true;
      } else if eventType == "dragleave" {
        dragActive := false;
      }
    }

    /** `handleDrop`: the highlight drops, and only the first dropped file, when there is
        one, goes to `handleFile`. */
    method HandleDrop(files: Option<seq<File>>)
      modifies this`dragActive, this`file, this`error
      ensures !dragActive
      ensures files.None? || files.value == [] ==> file == old(file) && error == old(error)
      ensures files.Some? && files.value != [] ==>
        (if IsImageType(files.value[0].mimeType) then file == Some(files.value[0]) && error.None?
         else file == old(file) && error == Some(NotImageError))
    {
      dragActive := false;
      if files.Some? && files.value != [] {
        HandleFile(Some(files.value[0]));
      }
    }

    /** The synchronous part of `handleProcess`: nothing without a file; otherwise
        `loading` is set, the error cleared and the file uploaded. */
    method BeginProcess() returns (upload: Option<File>)
      modifies this`loading, this`error
      ensures old(file).None? ==> upload.None? && loading == old(loading) && error == old(error)
      ensures old(file).Some? ==> upload == old(file) && loading && error.None?
      ensures old(file).Some? ==> !ProcessButtonShown()
      ensures old(file).None? ==> ProcessButtonShown() == old(ProcessButtonShown())
    {
      if file.None? {
        return None;
      }
      loading := true;
      error := None;
      upload := file;
    }

    /** The continuation of `handleProcess` once `extractCalendarEvents` settles: a
        result is passed on renamed, a failure shows the thrown message or the fallback,
        and `loading` is cleared either way. */
    method FinishProcess(outcome: Result<EventsResponse, string>) returns (extracted: Option<Extracted>)
      modifies this`loading, this`error
      ensures !loading
      ensures outcome.Success? ==> extracted == Some(ToExtracted(outcome.value)) && error == old(error)
      ensures outcome.Failure? ==>
        extracted.None? && error == Some(OrDefault(outcome.error, Api.ExtractFallback))
      ensures ProcessButtonShown() == preview.Some?
    {
      match outcome {
        case Success(result) =>
          extracted := Some(ToExtracted(result));
        case Failure(message) =>
          error := Some(OrDefault(message, Api.ExtractFallback));
          extracted := None;
      }
      loading := false;
    }

    /** `handleRemove`: file, preview and error are cleared and so is the input. */
    method HandleRemove()
      modifies this`file, this`preview, this`error, this`inputValue
      ensures file.None? && preview.None? && error.None? && inputValue == ""
    {
      file := None;
      preview := None;
      error := None;
      inputValue := "";
    }

    /** The process button is shown once a preview exists and no call is in flight. */
    function ProcessButtonShown(): (shown: bool)
      reads this
      ensures shown ==> preview.Some? && !loading
      ensures preview.Some? && !loading ==> shown
    {
      preview.Some? && !loading
    }
  }

  /** A non-ok extract reply reaches the screen as the backend's detail (or the api
      module's fallback), never as an empty error line. */
  lemma BackendDetailReachesScreen(reply: Api.HttpReply<EventsResponse>)
    requires reply.ErrorReply?
    ensures Api.ExtractCalendarEvents(reply).Failure?
    ensures OrDefault(Api.ExtractCalendarEvents(reply).error, Api.ExtractFallback)
      == Api.DetailOr(reply.detail, Api.ExtractFallback)
  {
  }
}
