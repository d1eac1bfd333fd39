/**
 * The older single-file client (Client.py) with its Qt and socket calls
 * stripped.  It shares the protocol, the worker thread and the grid with the
 * operator's client, but keeps every worker thread forever, never disables
 * a button, ignores CheckPinsResponse replies, and indexes `statuses` by the
 * pin number where `toggle_pin` reads it by pin number minus one.
 */
module Legacy {
  import opened Results
  import opened Protocol
  import opened Replies
  import Grid
  import Transport

  /** `self.statuses` after one `parse_response`, and how the slot ended. */
  datatype Step = Step(statuses: Option<seq<bool>>, outcome: SlotOutcome)

  /**
   * `parse_response(data)`: only a Response is looked at; a successful one
   * writes `statuses[pin]` and then touches `bulbs[pin]`.
   */
  function Parse(statuses: Option<seq<bool>>, data: Payload): (r: Step)
    ensures r.statuses.Some? <==> statuses.Some?
    ensures statuses.Some? ==> |r.statuses.value| == |statuses.value|
    ensures FromBinary(data).Err? ==> r.statuses == statuses && r.outcome.Raised?
  {
    match Classify(data)
    case Undecodable(e) => Step(statuses, Raised(DecodeFailure(e)))
    case PinResult(pin, state, success) =>
      if !Truthy(success) then Step(statuses, Completed)
      else
        (match AssignStatus(statuses, pin, 0, state)
         case Err(stop) => Step(statuses, stop)
         case Ok(s) =>
           if PyIndex(Grid.PINS, AsInt(pin).value).None? then Step(Some(s), Raised(IndexError))
           else Step(Some(s), Completed))
    case _ => Step(statuses, Completed)
  }

  /**
   * While `statuses` does not exist no payload creates it, and the slot
   * raises AttributeError exactly on a Response whose success is true.
   */
  lemma NeverLearnsStatuses(data: Payload)
    ensures Parse(None, data).statuses == None
    ensures Parse(None, data).outcome == Raised(PyError.AttributeError)
        <==> Classify(data).PinResult? && Truthy(Classify(data).success)
  {
    match Classify(data)
    case PinResult(pin, state, success) =>
      assert Parse(None, data) == (if Truthy(success) then Step(None, Raised(PyError.AttributeError)) else Step(None, Completed));
    case Undecodable(e) =>
      assert Parse(None, data) == Step(None, Raised(DecodeFailure(e)));
    case _ =>
      assert Parse(None, data) == Step(None, Completed);
  }

  /** A Response whose success is false is ignored: `statuses` is left as it was. */
  lemma FailedResponseIgnored(statuses: Option<seq<bool>>, pin: int, state: bool)
    ensures Parse(statuses, ResponsePayload(pin, state, false)) == Step(statuses, Completed)
  {
    ClassifyResponse(pin, state, false);
  }

  /** A CheckPinsResponse is ignored: it never sets `statuses`. */
  lemma SnapshotIgnored(statuses: Option<seq<bool>>, received: seq<bool>)
    ensures Parse(statuses, CheckPinsResponsePayload(received)) == Step(statuses, Completed)
  {
    var d := CheckPinsResponsePayload(received);
    ClassifySnapshot(received);
    assert Classify(d) == Snapshot(BoolList(received));
  }

  /** A successful Response for pin number `pin` writes slot `pin`, the one `toggle_pin(pin + 1)` reads. */
  lemma ResponseWritesSlotPin(s: seq<bool>, pin: int, state: bool)
    requires 0 <= pin < |s| && pin < Grid.PINS
    ensures Parse(Some(s), ResponsePayload(pin, state, true)) == Step(Some(s[pin := state]), Completed)
  {
    var d := ResponsePayload(pin, state, true);
    ClassifyResponse(pin, state, true);
    assert Classify(d) == PinResult(Int(pin), Bool(state), Bool(true));
    assert AssignStatus(Some(s), Int(pin), 0, Bool(state)) == Ok(s[pin := state]);
  }

  /** With one status per pin, a successful Response for pin 40 raises IndexError and changes nothing. */
  lemma LastPinOverflows(s: seq<bool>, state: bool)
    requires |s| == Grid.PINS
    ensures Parse(Some(s), ResponsePayload(40, state, true)) == Step(Some(s), Raised(IndexError))
  {
    var d := ResponsePayload(40, state, true);
    ClassifyResponse(40, state, true);
    assert Classify(d) == PinResult(Int(40), Bool(state), Bool(true));
    assert AssignStatus(Some(s), Int(40), 0, Bool(state)) == Err(Raised(IndexError));
  }

  /** `after` still holds the status `before` had at index k. */
  ghost predicate SlotKept(after: Option<seq<bool>>, before: seq<bool>, k: int)
  {
    after.Some? && |after.value| == |before| && 0 <= k < |before| && after.value[k] == before[k]
  }

  /**
   * For every pin from 1 to 39, a confirmed toggle leaves the slot
   * `toggle_pin` reads (pin - 1) as it was: the next click sends the same
   * state again.
   */
  lemma ResponseMissesToggledSlot(s: seq<bool>, pin: int, state: bool)
    requires |s| == Grid.PINS && 1 <= pin < Grid.PINS
    ensures SlotKept(Parse(Some(s), ResponsePayload(pin, state, true)).statuses, s, pin - 1)
  {
    ResponseWritesSlotPin(s, pin, state);
  }

  /** The client window: `Client` of Client.py, reduced to the state its slots change. */
  class Client {
    /** `self.statuses`, None while the attribute does not exist. */
    var statuses: Option<seq<bool>>
    /** `self.threads`: the request of every worker thread started, in order; none is ever removed. */
    var threads: seq<Payload>
    /**
     * `pins_to_control` of the `settings` module Client.py imports: the pin
     * numbers that get a toggle button.
     */
    const controlled: seq<int>
    /** The widgets `createGridLayout` puts in the window's grid, by cell. */
    const layout: map<Grid.Cell, Grid.Widget>

    /**
     * `__init__`: lays out the grid from the `settings` module's pin names
     * and controllable pins, then asks the peer for all pin statuses;
     * `statuses` is not created.
     */
    constructor (names: map<int, string>, controlled: seq<int>)
      ensures this.controlled == controlled
      ensures forall i :: 0 <= i < Grid.PINS ==> Grid.Placed(layout, i, names, controlled)
      ensures statuses == None
      ensures threads == [CheckPinsPayload()]
    {
      this.controlled := controlled;
      var cells, _ := Grid.CreateGridLayout(names, controlled);
      layout := cells;
      statuses := None;
      threads := [];
      new;
      RefreshPinStatuses();
    }

    /** `communicate_with_server`: starts and keeps a worker thread; it returns nothing. */
    method CommunicateWithServer(message: Payload)
      modifies this`threads
      ensures threads == old(threads) + [message]
    {
      threads := threads + [message];
    }

    /**
     * `refresh_pin_statuses`: sends a CheckPins.  The reply arrives later
     * through `parse_response`; the value tested here is the None that
     * `communicate_with_server` returns, so `statuses` is never assigned.
     */
    method RefreshPinStatuses()
      modifies this`threads
      ensures threads == old(threads) + [CheckPinsPayload()]
    {
      var request := New(CheckPins, []);
      var binary := GetBinary(request);
      CheckPinsEncoding([]);
      CommunicateWithServer(binary.value);
    }

    /** `parse_response`: applies one received payload, as `Parse` specifies. */
    method ParseResponse(data: Payload) returns (outcome: SlotOutcome)
      modifies this`statuses
      ensures Step(statuses, outcome) == Parse(old(statuses), data)
      ensures old(statuses) == None ==> statuses == None
    {
      NeverLearnsStatuses(data);
      var response := Classify(data);
      outcome := Completed;
      if response.Undecodable? {
        outcome := Raised(DecodeFailure(response.error));
      } else if response.PinResult? && Truthy(response.success) {
        var written := AssignStatus(statuses, response.pin, 0, response.state);
        if written.Err? {
          outcome := written.error;
        } else {
          statuses := Some(written.value);
          if PyIndex(Grid.PINS, AsInt(response.pin).value).None? {
            outcome := Raised(IndexError);
          }
        }
      }
    }

    /** `connection_problem`: logs and shows a message box; it changes no client state. */
    method ConnectionProblem() returns (outcome: SlotOutcome)
      ensures outcome == Completed
    {
      outcome := Completed;
    }

    /**
     * `toggle_pin(pin)`, run on every click of the pin's button: sends
     * SetPin(pin, not statuses[pin - 1]).  Without `statuses` it raises
     * AttributeError, past its end IndexError, and sends nothing.
     */
    method TogglePin(pin: int) returns (outcome: SlotOutcome)
      requires 1 <= pin <= Grid.PINS && Grid.HasButton(pin - 1, controlled)
      modifies this`threads
      ensures statuses.None? ==> outcome == Raised(PyError.AttributeError) && threads == old(threads)
      ensures statuses.Some? && pin - 1 < |statuses.value| ==>
                outcome == Completed && threads == old(threads) + [SetPinPayload(pin, !statuses.value[pin - 1])]
      ensures statuses.Some? && pin - 1 >= |statuses.value| ==> outcome == Raised(IndexError) && threads == old(threads)
    {
      if statuses.None? {
        return Raised(PyError.AttributeError);
      }
      var s := statuses.value;
      if PyIndex(|s|, pin - 1).None? {
        return Raised(IndexError);
      }
      var setPinToHigh := !s[pin - 1];
      var request := New(SetPin, [Int(pin), Bool(setPinToHigh)]);
      var controlPin := GetBinary(request);
      RoundTripInit(SetPin, [Int(pin), Bool(setPinToHigh)]);
      CommunicateWithServer(controlPin.value);
      outcome := Completed;
    }

    /**
     * The main thread's handling of one worker thread's signal; the thread
     * stays in `threads`.
     */
    method Deliver(signal: Transport.Signal) returns (outcome: SlotOutcome)
      modifies this`statuses
      ensures signal.Received? ==> Step(statuses, outcome) == Parse(old(statuses), signal.data)
      ensures signal.ConnectionInterrupt? ==> statuses == old(statuses) && outcome == Completed
      ensures old(statuses) == None ==> statuses == None
    {
      match signal {
        case Received(data) =>
          outcome := ParseResponse(data);
        case ConnectionInterrupt =>
          outcome := ConnectionProblem();
      }
    }
  }

  /**
   * The startup CheckPins is answered, then a button is clicked: the click
   * raises AttributeError and no SetPin is sent, whatever signal the worker
   * thread emitted (any reply, or a connection failure).
   */
  method ClickAfterStartup(names: map<int, string>, controlled: seq<int>, signal: Transport.Signal, pin: int)
      returns (c: Client, outcome: SlotOutcome)
    requires 1 <= pin <= Grid.PINS && pin in controlled
    ensures c.statuses == None
    ensures outcome == Raised(PyError.AttributeError)
    ensures c.threads == [CheckPinsPayload()]
  {
    c := new Client(names, controlled);
    var _ := c.Deliver(signal);
    outcome := c.TogglePin(pin);
  }
}
