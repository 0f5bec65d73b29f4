/** The React review screen (frontend/src/components/EventsList.jsx): the set of checked
    event indices, the select-all toggle, and the add-to-calendar handler with its
    `adding`, `error` and `success` state. */
module EventsList {
  import opened Wrappers
  import opened Text
  import opened Wire
  import opened Selection
  import Api

  const NothingSelectedError := "Please select at least one event to add"

  /** `toggleEvent`: the membership of `index` flips and no other index changes. */
  function Toggled(selected: set<nat>, index: nat): (r: set<nat>)
    ensures index in r <==> index !in selected
    ensures forall j: nat :: j != index ==> (j in r <==> j in selected)
  {
    if index in selected then selected - {index} else selected + {index}
  }

  /** `toggleAll`: for a set of valid indices, clear it when every event is checked and
      check every event otherwise. The source tests the size; over valid indices that is
      the same as testing for the full set. */
  function AllToggled(selected: set<nat>, count: nat): (r: set<nat>)
    ensures selected <= AllIndices(count) ==>
      r == if selected == AllIndices(count) then {} else AllIndices(count)
  {
    var r := if |selected| == count then {} else AllIndices(count);
    if selected <= AllIndices(count) then
      SizeIsCountIffFull(selected, count);
      r
    else
      r
  }

  /** Toggling the same event twice restores the selection. */
  lemma ToggleTwiceRestores(selected: set<nat>, index: nat)
    ensures Toggled(Toggled(selected, index), index) == selected
  {
  }

  /** From a full selection select-all clears everything, and a second click selects
      every event again. */
  lemma ToggleAllTwiceFromFull(count: nat)
    ensures AllToggled(AllIndices(count), count) == {}
    ensures AllToggled(AllToggled(AllIndices(count), count), count) == AllIndices(count)
  {
  }

  /** Deselecting one event of a fully selected list of n leaves n - 1 selected. */
  lemma DeselectOneOfAll(count: nat, index: nat)
    requires index < count
    ensures |Toggled(AllIndices(count), index)| == count - 1
  {
    AllIndicesSize(count);
    assert Toggled(AllIndices(count), index) == AllIndices(count) - {index};
  }

  /** Over valid indices, the selection is empty exactly when nothing would be sent. */
  lemma EmptySelectionSendsNothing(events: seq<CalendarEvent>, selected: set<nat>)
    requires selected <= AllIndices(|events|)
    ensures selected == {} <==> Filter(events, selected) == []
  {
  }

  /** What the screen renders from its state, for the buttons: */
  datatype Controls = Controls(addDisabled: bool, uploadAnotherDisabled: bool, selectAllChecked: bool)

  class EventsList {
    const events: seq<CalendarEvent>
    var selected: set<nat>
    var adding: bool
    var error: Option<string>
    var success: bool

    /** Every checked index names an event. */
    ghost predicate Valid()
      reads this
    {
      selected <= AllIndices(|events|)
    }

    /** The initial state: every event is checked. */
    constructor (events: seq<CalendarEvent>)
      ensures Valid()
      ensures this.events == events && selected == AllIndices(|events|)
      ensures !adding && error.None? && !success
    {
      this.events := events;
      selected := AllIndices(|events|);
      adding := false;
      error := None;
      success := false;
    }

    /** The click handler of one event card; the index is always one of the list's. */
    method ToggleEvent(index: nat)
      requires Valid() && index < |events|
      modifies this`selected
      ensures Valid()
      ensures selected == Toggled(old(selected), index)
    {
      if index in selected {
        selected := selected - {index};
      } else {
        selected := selected + {index};
      }
    }

    /** The select-all checkbox handler. */
    method ToggleAll()
      requires Valid()
      modifies this`selected
      ensures Valid()
      ensures selected == if old(selected) == AllIndices(|events|) then {} else AllIndices(|events|)
    {
      selected := AllToggled(selected, |events|);
    }

    /** The events the add handler sends: the checked ones, in list order. */
    function EventsToAdd(): (r: seq<CalendarEvent>)
      reads this
      requires Valid()
      ensures r == Filter(events, selected)
      ensures |r| == |selected|
    {
      FilterSize(events, selected);
      assert selected * AllIndices(|events|) == selected;
      Filter(events, selected)
    }

    /** The synchronous part of `handleAddToCalendar`, up to the call: an empty
        selection sets the error and sends nothing; otherwise the call starts with
        `adding` set and the error cleared. */
    method BeginAdd() returns (request: Option<CommitRequest>)
      requires Valid()
      modifies this`adding, this`error
      ensures Valid()
      ensures selected == {} ==>
        request.None? && error == Some(NothingSelectedError) && adding == old(adding)
      ensures selected != {} ==>
        request == Some(Api.AddEventsRequest(Filter(events, selected))) && adding && error.None?
    {
      var eventsToAdd := EventsToAdd();
      EmptySelectionSendsNothing(events, selected);
      if |eventsToAdd| == 0 {
        error := Some(NothingSelectedError);
        request := None;
        return;
      }
      adding := true;
      error := None;
      request := Some(Api.AddEventsRequest(eventsToAdd));
    }

    /** The continuation once the call settles: success is recorded and the result goes
        to `onComplete`; a failure records the thrown message or the fallback; `adding`
        is cleared either way. */
    method FinishAdd(outcome: Result<AddResponse, string>) returns (completed: Option<AddResponse>)
      modifies this`adding, this`error, this`success
      ensures !adding
      ensures outcome.Success? ==> success && completed == Some(outcome.value) && error == old(error)
      ensures outcome.Failure? ==>
        completed.None? && success == old(success) && error == Some(OrDefault(outcome.error, Api.AddFallback))
    {
      match outcome {
        case Success(result) =>
          success := true;
          completed := Some(result);
        case Failure(message) =>
          error := Some(OrDefault(message, Api.AddFallback));
          completed := None;
      }
      adding := false;
    }

    /** The button states: adding is disabled while a call is in flight or when nothing
        would be sent; Upload Another only while a call is in flight; select-all is
        checked exactly when every event is. */
    function ControlStates(): (c: Controls)
      reads this
      requires Valid()
      ensures c.addDisabled <==> adding || EventsToAdd() == []
      ensures c.uploadAnotherDisabled <==> adding
      ensures c.selectAllChecked <==> selected == AllIndices(|events|)
    {
      EmptySelectionSendsNothing(events, selected);
      SizeIsCountIffFull(selected, |events|);
      Controls(adding || |selected| == 0, adding, |selected| == |events|)
    }
  }
}
