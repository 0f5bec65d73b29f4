/** The vanilla-script page (cloud/frontend/app.js): the module variables
    `selectedFile` and `extractedEvents`, the rendered event checkboxes, and the
    visibility of the page's sections and buttons, stepped by its event handlers. */
module CloudApp {
  import opened Wrappers
  import opened Text
  import opened Wire
  import opened Browser
  import opened Selection

  const NotImageMessage := "Please select an image file."
  const ProcessFailedMessage := "Failed to process the calendar image. Please try again."
  const NothingSelectedMessage := "Please select at least one event to add."
  const AddFailedMessage := "Failed to add events to calendar. Please try again."
  const AnalyzingStep := "Analyzing calendar image..."
  const AddingStep := "Adding events to your calendar..."
  const PrimaryCalendar := "primary"

  /** Which of the four result sections (processing, results, success, error) are shown. */
  datatype Sections = Sections(processing: bool, results: bool, success: bool, error: bool)

  const AllHidden := Sections(false, false, false, false)

  /** What the process handler gets from the extract call: the events of an ok reply,
      or a failure of any kind (non-ok status, transport error, a body that is not JSON),
      all of which end in the same `catch`. */
  datatype ExtractReply = ExtractOk(events: seq<CalendarEvent>) | ExtractFailed

  /** "Successfully added N event(s) to your calendar!" */
  function SuccessMessage(count: nat): string {
    "Successfully added " + NatToDecimal(count) + " event(s) to your calendar!"
  }

  /** One checked box per event, as `displayEvents` renders them. */
  function AllChecked(n: nat): (checked: seq<bool>)
    ensures |checked| == n && forall i :: 0 <= i < n ==> checked[i]
  {
    seq(n, _ => true)
  }

  /** The indices whose boxes are checked. */
  function CheckedSet(checked: seq<bool>): (s: set<nat>)
    ensures forall i: nat :: i in s <==> i < |checked| && checked[i]
  {
    set i: nat | i < |checked| && checked[i]
  }

  /** The add handler's `selectedEvents`: `extractedEvents[index]` for every checked box,
      in document order, which is list order. */
  function CheckedEvents(events: seq<CalendarEvent>, checked: seq<bool>): (sent: seq<CalendarEvent>)
    requires |checked| == |events|
    ensures |sent| == |CheckedSet(checked)| <= |events|
  {
    FilterSize(events, CheckedSet(checked));
    assert CheckedSet(checked) * AllIndices(|events|) == CheckedSet(checked);
    AllIndicesSize(|events|);
    SubsetSize(CheckedSet(checked), AllIndices(|events|));
    Filter(events, CheckedSet(checked))
  }

  /** The events sent are exactly the events at the checked indices, in list order, and
      there are as many as there are checked boxes. */
  lemma CheckedEventsInOrder(events: seq<CalendarEvent>, checked: seq<bool>)
    requires |checked| == |events|
    ensures var sent, idx := CheckedEvents(events, checked), Enumerate(CheckedSet(checked), |events|);
      && |sent| == |idx|
      && (forall k :: 0 <= k < |sent| ==> sent[k] == events[idx[k]] && checked[idx[k]])
      && (forall i :: 0 <= i < |events| && checked[i] ==> i in idx)
      && |sent| == |CheckedSet(checked)|
  {
    FilterPicksInOrder(events, CheckedSet(checked));
    FilterSize(events, CheckedSet(checked));
    assert CheckedSet(checked) * AllIndices(|events|) == CheckedSet(checked);
  }

  /** With every box left checked, as `displayEvents` renders them, every event is sent. */
  lemma AllCheckedSendsAll(events: seq<CalendarEvent>)
    ensures CheckedEvents(events, AllChecked(|events|)) == events
  {
    assert CheckedSet(AllChecked(|events|)) == AllIndices(|events|);
    FilterAll(events);
  }

  /** Nothing is sent exactly when no box is checked. */
  lemma NothingCheckedSendsNothing(events: seq<CalendarEvent>, checked: seq<bool>)
    requires |checked| == |events|
    ensures CheckedEvents(events, checked) == [] <==> forall i :: 0 <= i < |checked| ==> !checked[i]
  {
  }

  class UploadPage {
    var selectedFile: Option<File>
    var extractedEvents: seq<CalendarEvent>
    /** The rendered checkboxes, one per listed event, and whether each is checked. */
    var checked: seq<bool>
    /** The "No events found in the image." notice in the list. */
    var noEventsNotice: bool
    var sections: Sections
    var uploadSectionVisible: bool
    var previewVisible: bool
    var placeholderVisible: bool
    var processButtonVisible: bool
    var addButtonVisible: bool
    var fileInputValue: string
    var processingStep: string
    var errorMessage: string
    var successMessage: string

    /** The list on screen always renders the events the add handler indexes into. */
    ghost predicate Valid()
      reads this
    {
      |checked| == |extractedEvents|
    }

    /** The page of a signed-in user with nothing chosen yet. */
    constructor ()
      ensures Valid()
      ensures selectedFile.None? && extractedEvents == [] && checked == [] && !noEventsNotice
      ensures sections == AllHidden && uploadSectionVisible
      ensures !previewVisible && placeholderVisible && !processButtonVisible && !addButtonVisible
      ensures fileInputValue == "" && processingStep == "" && errorMessage == "" && successMessage == ""
    {
      selectedFile := None;
      extractedEvents := [];
      checked := [];
      noEventsNotice := false;
      sections := AllHidden;
      uploadSectionVisible := true;
      previewVisible := false;
      placeholderVisible := true;
      processButtonVisible := false;
      addButtonVisible := false;
      fileInputValue := "";
      processingStep := "";
      errorMessage := "";
      successMessage := "";
    }

    /** `showError`: processing and results are hidden, the error section shows the message. */
    method ShowError(message: string)
      modifies this`sections, this`errorMessage
      ensures sections == old(sections).(processing := false, results := false, error := true)
      ensures errorMessage == message
    {
      sections := sections.(processing := false, results := false, error := true);
      errorMessage := message;
    }

    /** `hideAllSections` */
    method HideAllSections()
      modifies this`sections
      ensures sections == AllHidden
    {
      sections := AllHidden;
    }

    /** `handleFileSelect`: no file changes nothing; a file that is not an image is refused
        with an error and leaves `selectedFile` as it was; an image becomes `selectedFile`
        (its preview is shown later, by `PreviewLoaded`). */
    method HandleFileSelect(file: Option<File>)
      modifies this`selectedFile, this`sections, this`errorMessage
      ensures file.None? ==>
        selectedFile == old(selectedFile) && sections == old(sections) && errorMessage == old(errorMessage)
      ensures file.Some? && !IsImageType(file.value.mimeType) ==>
        && selectedFile == old(selectedFile)
        && sections == old(sections).(processing := false, results := false, error := true)
        && errorMessage == NotImageMessage
      ensures file.Some? && IsImageType(file.value.mimeType) ==>
        selectedFile == file && sections == old(sections) && errorMessage == old(errorMessage)
    {
      if file.None? {
        return;
      }
      if !IsImageType(file.value.mimeType) {
        ShowError(NotImageMessage);
        return;
      }
      selectedFile := file;
    }

    /** The file input's change listener: the browser has set the input's value and file
        list; the first file (or none) goes to `handleFileSelect`. The drop listener
        passes the first dropped file to `handleFileSelect` directly and leaves the
        input's value as it was. */
    method FileInputChange(value: string, files: seq<File>)
      modifies this`fileInputValue, this`selectedFile, this`sections, this`errorMessage
      ensures fileInputValue == value
      ensures files == [] ==>
        selectedFile == old(selectedFile) && sections == old(sections) && errorMessage == old(errorMessage)
      ensures files != [] && IsImageType(files[0].mimeType) ==> selectedFile == Some(files[0])
      ensures files != [] && !IsImageType(files[0].mimeType) ==>
        selectedFile == old(selectedFile) && errorMessage == NotImageMessage && sections.error
    {
      fileInputValue := value;
      HandleFileSelect(if files == [] then None else Some(files[0]));
    }

    /** The `FileReader` load callback of `handleFileSelect`: the preview and the process
        button appear, the upload placeholder goes. */
    method PreviewLoaded()
      modifies this`previewVisible, this`placeholderVisible, this`processButtonVisible
      ensures previewVisible && !placeholderVisible && processButtonVisible
    {
      previewVisible := true;
      placeholderVisible := false;
      processButtonVisible := true;
    }

    /** `resetUpload`: the file is dropped, the input cleared, the preview and the process
        button hidden; the extracted events and the rendered list stay as they are. */
    method ResetUpload()
      modifies this`selectedFile, this`fileInputValue, this`previewVisible,
        this`placeholderVisible, this`processButtonVisible
      ensures selectedFile.None? && fileInputValue == ""
      ensures !previewVisible && placeholderVisible && !processButtonVisible
    {
      selectedFile := None;
      fileInputValue := "";
      previewVisible := false;
      placeholderVisible := true;
      processButtonVisible := false;
    }

    /** The process button's click handler up to the request: nothing without a file;
        otherwise only the processing section shows, with its first step, and the
        selected file is uploaded. */
    method ProcessClick() returns (upload: Option<File>)
      modifies this`sections, this`processingStep
      ensures old(selectedFile).None? ==>
        upload.None? && sections == old(sections) && processingStep == old(processingStep)
      ensures old(selectedFile).Some? ==>
        upload == old(selectedFile) && sections == AllHidden.(processing := true) && processingStep == AnalyzingStep
    {
      if selectedFile.None? {
        return None;
      }
      HideAllSections();
      sections := sections.(processing := true);
      processingStep := AnalyzingStep;
      upload := selectedFile;
    }

    /** `displayEvents`: with no events, the notice and no add button; otherwise one
        checked box per event and the add button. */
    method DisplayEvents(events: seq<CalendarEvent>)
      modifies this`checked, this`noEventsNotice, this`addButtonVisible
      ensures checked == AllChecked(|events|)
      ensures noEventsNotice <==> |events| == 0
      ensures addButtonVisible <==> |events| > 0
    {
      checked := [];
      noEventsNotice := false;
      if |events| == 0 {
        noEventsNotice := true;
        addButtonVisible := false;
        return;
      }
      var index := 0;
      while index < |events|
        invariant 0 <= index <= |events|
        invariant checked == AllChecked(index)
        invariant !noEventsNotice
      {
        checked := checked + [true];
        index := index + 1;
      }
      addButtonVisible := true;
    }

    /** The process handler once the extract call settles: on success the events are
        stored and listed, every one checked, and the results replace the processing
        section; any failure shows the one generic message and keeps the old events. */
    method ProcessReply(reply: ExtractReply)
      requires Valid()
      modifies this`extractedEvents, this`checked, this`noEventsNotice, this`addButtonVisible,
        this`sections, this`errorMessage
      ensures Valid()
      ensures reply.ExtractOk? ==>
        && extractedEvents == reply.events
        && checked == AllChecked(|reply.events|)
        && (noEventsNotice <==> reply.events == [])
        && (addButtonVisible <==> reply.events != [])
        && sections == old(sections).(processing := false, results := true)
        && errorMessage == old(errorMessage)
      ensures reply.ExtractFailed? ==>
        && extractedEvents == old(extractedEvents) && checked == old(checked)
        && noEventsNotice == old(noEventsNotice) && addButtonVisible == old(addButtonVisible)
        && sections == old(sections).(processing := false, results := false, error := true)
        && errorMessage == ProcessFailedMessage
    {
      match reply {
        case ExtractOk(events) =>
          extractedEvents := events;
          DisplayEvents(extractedEvents);
          sections := sections.(processing := false, results := true);
        case ExtractFailed =>
          ShowError(ProcessFailedMessage);
      }
    }

    /** A click on one event's checkbox flips it and no other. */
    method ToggleCheckbox(index: nat)
      requires Valid() && index < |checked|
      modifies this`checked
      ensures Valid()
      ensures checked == old(checked)[index := !old(checked)[index]]
    {
      checked := checked[index := !checked[index]];
    }

    /** The add button's click handler up to the request: with no box checked, an error
        and no request; otherwise the checked events go out for the "primary" calendar
        while the processing section replaces the results. */
    method AddSelectedClick() returns (request: Option<CommitRequest>)
      requires Valid()
      modifies this`sections, this`errorMessage, this`processingStep
      ensures CheckedEvents(extractedEvents, checked) == [] ==>
        && request.None?
        && sections == old(sections).(processing := false, results := false, error := true)
        && errorMessage == NothingSelectedMessage && processingStep == old(processingStep)
      ensures CheckedEvents(extractedEvents, checked) != [] ==>
        && request == Some(CommitRequest(CheckedEvents(extractedEvents, checked), PrimaryCalendar))
        && sections == old(sections).(results := false, processing := true)
        && processingStep == AddingStep && errorMessage == old(errorMessage)
    {
      var selectedEvents := CheckedEvents(extractedEvents, checked);
      if |selectedEvents| == 0 {
        ShowError(NothingSelectedMessage);
        return None;
      }
      sections := sections.(results := false, processing := true);
      processingStep := AddingStep;
      request := Some(CommitRequest(selectedEvents, PrimaryCalendar));
    }

    /** The add handler once the commit call settles (`request` is the body it sent):
        success reports how many events were sent; any failure shows the generic message. */
    method AddSelectedReply(request: CommitRequest, committed: bool)
      modifies this`sections, this`successMessage, this`errorMessage
      ensures committed ==>
        && sections == old(sections).(processing := false, success := true)
        && successMessage == SuccessMessage(|request.events|) && errorMessage == old(errorMessage)
      ensures !committed ==>
        && sections == old(sections).(processing := false, results := false, error := true)
        && errorMessage == AddFailedMessage && successMessage == old(successMessage)
    {
      if committed {
        sections := sections.(processing := false, success := true);
        successMessage := SuccessMessage(|request.events|);
      } else {
        ShowError(AddFailedMessage);
      }
    }

    /** The Upload Another and Done handlers, which are identical: the upload is reset,
        every result section hidden and the upload section shown. */
    method StartOver()
      modifies this`selectedFile, this`fileInputValue, this`previewVisible, this`placeholderVisible,
        this`processButtonVisible, this`sections, this`uploadSectionVisible
      ensures selectedFile.None? && fileInputValue == ""
      ensures !previewVisible && placeholderVisible && !processButtonVisible
      ensures sections == AllHidden && uploadSectionVisible
    {
      ResetUpload();
      HideAllSections();
      uploadSectionVisible := true;
    }

    /** The Retry handler: every result section hidden and the upload section shown; the
        chosen file stays, so it can be processed again. */
    method RetryClick()
      modifies this`sections, this`uploadSectionVisible
      ensures sections == AllHidden && uploadSectionVisible
    {
      HideAllSections();
      uploadSectionVisible := true;
    }
  }
}
