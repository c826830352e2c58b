/**
 * The stream picker's request/response state (`useStreamPickerData`): a caller
 * opens the picker with `requestStream` and awaits a promise that the picker
 * settles with the chosen `[id, type]` pair, or with `null` when cancelled. The
 * promise is modelled by a request number and a record of settled requests.
 */
module StreamPickerState {
  import opened Options

  /** `"all" | "drivers"`. */
  datatype PickerType = AllStreams | DriversOnly

  /** `"driver" | "global"`. */
  datatype ChosenValueType = DriverValue | GlobalValue

  /** The `[chosenValue, elementType]` pair a request resolves with. */
  datatype Choice = Choice(value: string, elementType: ChosenValueType)

  /**
   * `StreamPickerDataState`: closed, or open with an optional pending request
   * (the promise's resolve function), the drag-and-drop flag, the picker type
   * and the ids not to offer.
   */
  datatype PickerState =
    | Closed
    | Open(resolver: Option<nat>, allowDnD: bool, pickerType: PickerType, hiddenEntries: seq<string>)

  /** The state behind the picker context. */
  class StreamPickerData {
    var state: PickerState
    /** The number the next `requestStream` promise gets. */
    var nextRequest: nat
    /** The settled promises: `Some(choice)` for a choice, `None` for `null`. */
    var settled: map<nat, Option<Choice>>

    /** Only issued requests are settled, and the request the open picker holds is still pending. */
    predicate Valid()
      reads this
    {
      && (forall r :: r in settled ==> r < nextRequest)
      && (state.Open? && state.resolver.Some? ==> state.resolver.value < nextRequest && state.resolver.value !in settled)
    }

    /** The picker starts closed, with no request. */
    constructor()
      ensures Valid() && state == Closed && nextRequest == 0 && settled == map[]
    {
      state := Closed;
      nextRequest := 0;
      settled := map[];
    }

    /**
     * `requestStream(pickerType = "all", hiddenEntries = [])`: open without
     * drag-and-drop, holding a new pending request, returned to the caller. A
     * request the picker held before is dropped without being settled.
     */
    method RequestStream(pickerType: PickerType := AllStreams, hiddenEntries: seq<string> := []) returns (request: nat)
      requires Valid()
      modifies this
      ensures Valid()
      ensures request == old(nextRequest) && request !in settled
      ensures state == Open(Some(request), false, pickerType, hiddenEntries)
      ensures nextRequest == old(nextRequest) + 1 && settled == old(settled)
    {
      request := nextRequest;
      state := Open(Some(request), false, pickerType, hiddenEntries);
      nextRequest := nextRequest + 1;
    }

    /** `onClose`: always back to closed; no request is settled. */
    method Close()
      requires Valid()
      modifies this
      ensures Valid() && state == Closed
      ensures nextRequest == old(nextRequest) && settled == old(settled)
    {
      state := Closed;
    }

    /**
     * `onChoice(value, type)`: when open with a pending request, settle it with
     * the pair and close; otherwise change nothing and settle nothing. A settled
     * request is never settled again.
     */
    method OnChoice(value: string, elementType: ChosenValueType)
      requires Valid()
      modifies this
      ensures Valid() && nextRequest == old(nextRequest)
      ensures old(state).Open? && old(state).resolver.Some? ==>
        state == Closed && settled == old(settled)[old(state).resolver.value := Some(Choice(value, elementType))]
      ensures !(old(state).Open? && old(state).resolver.Some?) ==> state == old(state) && settled == old(settled)
      ensures forall r :: r in old(settled) ==> r in settled && settled[r] == old(settled)[r]
    {
      if state.Open? && state.resolver.Some? {
        settled := settled[state.resolver.value := Some(Choice(value, elementType))];
        state := Closed;
      }
    }

    /**
     * `onCancel`: when open with a pending request, settle it with `null` and
     * close; otherwise change nothing and settle nothing.
     */
    method OnCancel()
      requires Valid()
      modifies this
      ensures Valid() && nextRequest == old(nextRequest)
      ensures old(state).Open? && old(state).resolver.Some? ==>
        state == Closed && settled == old(settled)[old(state).resolver.value := None]
      ensures !(old(state).Open? && old(state).resolver.Some?) ==> state == old(state) && settled == old(settled)
      ensures forall r :: r in old(settled) ==> r in settled && settled[r] == old(settled)[r]
    {
      if state.Open? && state.resolver.Some? {
        settled := settled[state.resolver.value := None];
        state := Closed;
      }
    }
  }
}
