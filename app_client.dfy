/**
 * The operator's client window (app/client.py) with its Qt and socket calls
 * stripped: what remains is a sequential state machine over the last known
 * pin statuses, the set of enabled toggle buttons and the bookkeeping of
 * in-flight worker threads.  Each signal a worker thread emits is delivered
 * to the client as one sequential event, in any order.
 */
module AppClient {
  import opened Results
  import opened Protocol
  import opened Replies
  import Settings
  import Grid
  import Transport

  /** The indices of the pins that get a toggle button (keys of `toggle_buttons`). */
  function ButtonIndices(): set<int>
  {
    set i | 0 <= i < Grid.PINS && Grid.HasButton(i, Settings.PinsToControl)
  }

  /** Exactly the controllable pins get a button, at index pin - 1: indices 11, 15, 17, 21, 31, 35 and 39. */
  lemma ButtonIndicesExact()
    ensures ButtonIndices() == {11, 15, 17, 21, 31, 35, 39}
  {
    var expected := {11, 15, 17, 21, 31, 35, 39};
    forall i | i in expected
      ensures i in ButtonIndices()
    {
      assert Grid.HasButton(i, Settings.PinsToControl);
    }
  }

  /**
   * What the slots change: `self.statuses` (None while the attribute does not
   * exist, before the first CheckPinsResponse) and the toggle buttons that
   * are enabled, by pin index.
   */
  datatype View = View(statuses: Option<seq<bool>>, enabled: set<int>)

  /** The view after one slot invocation, and how the invocation ended. */
  datatype Step = Step(view: View, outcome: SlotOutcome)

  /**
   * Only existing buttons are enabled, and a button is enabled only once
   * `statuses` exists, so a click never reads a missing attribute.
   */
  ghost predicate Consistent(v: View, buttons: set<int>)
  {
    v.enabled <= buttons && (v.enabled != {} ==> v.statuses.Some?)
  }

  /**
   * `parse_response(data)`: a successful Response writes `statuses[pin - 1]`,
   * then touches `bulbs[pin - 1]` and re-enables `toggle_buttons[pin - 1]`; a
   * failed one is ignored; a CheckPinsResponse replaces `statuses` and
   * enables every toggle button; anything else is ignored.  An exception
   * keeps whatever was written before it was raised.
   */
  function Parse(v: View, buttons: set<int>, data: Payload): (r: Step)
    ensures FromBinary(data).Err? ==> r.view == v && r.outcome.Raised?
    ensures FromBinary(data).Ok? && FromBinary(data).value.kind in {SetPin, CheckPins} ==> r == Step(v, Completed)
  {
    Apply(v, buttons, Classify(data))
  }

  /** The effect of `parse_response` once the payload has been decoded and classified. */
  function Apply(v: View, buttons: set<int>, reply: Reply): (r: Step)
    ensures v.statuses.Some? ==> r.view.statuses.Some?
    ensures r.view.enabled <= v.enabled + buttons
    ensures r.outcome != Completed ==> r.view.enabled == v.enabled
    ensures r.view.enabled != v.enabled ==> r.view.statuses.Some?
  {
    match reply
    case Undecodable(e) => Step(v, Raised(DecodeFailure(e)))
    case NotAReply => Step(v, Completed)
    case PinResult(pin, state, success) =>
      if !Truthy(success) then Step(v, Completed)
      else
        (match AssignStatus(v.statuses, pin, -1, state)
         case Err(stop) => Step(v, stop)
         case Ok(s) =>
           var k := AsInt(pin).value - 1;
           var w := v.(statuses := Some(s));
           if PyIndex(Grid.PINS, k).None? then Step(w, Raised(IndexError))
           else if k !in buttons then Step(w, Raised(PyError.KeyError))
           else Step(w.(enabled := v.enabled + {k}), Completed))
    case Snapshot(statuses) =>
      match statuses
      case BoolList(bs) => Step(View(Some(bs), buttons), Completed)
      case Str(_) => Step(v, Unmodelled)
      case _ => Step(v, Raised(TypeError))
  }

  /** Every delivered payload, whatever it holds, keeps the view consistent. */
  lemma ParseKeepsConsistent(v: View, buttons: set<int>, data: Payload)
    requires Consistent(v, buttons)
    ensures Consistent(Parse(v, buttons, data).view, buttons)
  {
  }

  /**
   * A successful Response for a pin that has a button and a slot in
   * `statuses` sets that pin's status (index pin - 1) and re-enables its
   * button; every other status and button is left as it was.
   */
  lemma SuccessfulResponse(v: View, buttons: set<int>, pin: int, state: bool)
    requires v.statuses.Some? && 1 <= pin <= |v.statuses.value| && pin - 1 in buttons && pin <= Grid.PINS
    ensures Parse(v, buttons, ResponsePayload(pin, state, true))
         == Step(View(Some(v.statuses.value[pin - 1 := state]), v.enabled + {pin - 1}), Completed)
  {
    var d := ResponsePayload(pin, state, true);
    ClassifyResponse(pin, state, true);
    assert Classify(d) == PinResult(Int(pin), Bool(state), Bool(true));
    assert Parse(v, buttons, d) == Apply(v, buttons, PinResult(Int(pin), Bool(state), Bool(true)));
    ApplySuccess(v, buttons, pin, state);
  }

  lemma ApplySuccess(v: View, buttons: set<int>, pin: int, state: bool)
    requires v.statuses.Some? && 1 <= pin <= |v.statuses.value| && pin - 1 in buttons && pin <= Grid.PINS
    ensures Apply(v, buttons, PinResult(Int(pin), Bool(state), Bool(true)))
         == Step(View(Some(v.statuses.value[pin - 1 := state]), v.enabled + {pin - 1}), Completed)
  {
    var s := v.statuses.value;
    assert AssignStatus(v.statuses, Int(pin), -1, Bool(state)) == Ok(s[pin - 1 := state]);
    assert PyIndex(Grid.PINS, pin - 1) == Some(pin - 1);
  }

  /**
   * A slot that raises keeps what it wrote before the exception: a successful
   * Response for a pin that has a status but no toggle button stores the
   * status, then raises KeyError at `toggle_buttons[pin - 1]`.
   */
  lemma ResponseWithoutButton(v: View, buttons: set<int>, pin: int, state: bool)
    requires v.statuses.Some? && 1 <= pin <= |v.statuses.value| && pin <= Grid.PINS && pin - 1 !in buttons
    ensures Parse(v, buttons, ResponsePayload(pin, state, true))
         == Step(View(Some(v.statuses.value[pin - 1 := state]), v.enabled), Raised(PyError.KeyError))
  {
    ClassifyResponse(pin, state, true);
    assert Parse(v, buttons, ResponsePayload(pin, state, true)) == Apply(v, buttons, PinResult(Int(pin), Bool(state), Bool(true)));
    ApplyWithoutButton(v, buttons, pin, state);
  }

  lemma ApplyWithoutButton(v: View, buttons: set<int>, pin: int, state: bool)
    requires v.statuses.Some? && 1 <= pin <= |v.statuses.value| && pin <= Grid.PINS && pin - 1 !in buttons
    ensures Apply(v, buttons, PinResult(Int(pin), Bool(state), Bool(true)))
         == Step(View(Some(v.statuses.value[pin - 1 := state]), v.enabled), Raised(PyError.KeyError))
  {
    assert AssignStatus(v.statuses, Int(pin), -1, Bool(state)) == Ok(v.statuses.value[pin - 1 := state]);
    assert PyIndex(Grid.PINS, pin - 1) == Some(pin - 1);
  }

  /**
   * A successful Response for pin 0 writes index -1, the last status, and
   * then raises KeyError: no toggle button has index -1.
   */
  lemma ResponseForPinZero(v: View, state: bool)
    requires v.statuses.Some? && |v.statuses.value| >= 1
    ensures Parse(v, ButtonIndices(), ResponsePayload(0, state, true))
         == Step(View(Some(v.statuses.value[|v.statuses.value| - 1 := state]), v.enabled), Raised(PyError.KeyError))
  {
    var buttons := ButtonIndices();
    ButtonIndicesExact();
    ClassifyResponse(0, state, true);
    assert Parse(v, buttons, ResponsePayload(0, state, true)) == Apply(v, buttons, PinResult(Int(0), Bool(state), Bool(true)));
    ApplyPinZero(v, buttons, state);
  }

  lemma ApplyPinZero(v: View, buttons: set<int>, state: bool)
    requires v.statuses.Some? && |v.statuses.value| >= 1 && -1 !in buttons
    ensures Apply(v, buttons, PinResult(Int(0), Bool(state), Bool(true)))
         == Step(View(Some(v.statuses.value[|v.statuses.value| - 1 := state]), v.enabled), Raised(PyError.KeyError))
  {
    var s := v.statuses.value;
    assert AssignStatus(v.statuses, Int(0), -1, Bool(state)) == Ok(s[|s| - 1 := state]);
    assert PyIndex(Grid.PINS, -1) == Some(39);
  }

  /** A failed Response changes nothing: the pin's button stays disabled. */
  lemma FailedResponse(v: View, buttons: set<int>, pin: int, state: bool)
    ensures Parse(v, buttons, ResponsePayload(pin, state, false)) == Step(v, Completed)
  {
    var d := ResponsePayload(pin, state, false);
    ClassifyResponse(pin, state, false);
    assert Classify(d) == PinResult(Int(pin), Bool(state), Bool(false));
    assert Parse(v, buttons, d) == Apply(v, buttons, PinResult(Int(pin), Bool(state), Bool(false)));
  }

  /** A CheckPinsResponse replaces `statuses` wholesale and enables every toggle button. */
  lemma SnapshotReplaces(v: View, buttons: set<int>, statuses: seq<bool>)
    ensures Parse(v, buttons, CheckPinsResponsePayload(statuses)) == Step(View(Some(statuses), buttons), Completed)
  {
    var d := CheckPinsResponsePayload(statuses);
    ClassifySnapshot(statuses);
    assert Classify(d) == Snapshot(BoolList(statuses));
    assert Parse(v, buttons, d) == Apply(v, buttons, Snapshot(BoolList(statuses)));
  }

  /** A SetPin or CheckPins delivered as a reply leaves the view unchanged. */
  lemma RequestsIgnored(v: View, buttons: set<int>, pin: int, state: bool)
    ensures Parse(v, buttons, SetPinPayload(pin, state)) == Step(v, Completed)
    ensures Parse(v, buttons, CheckPinsPayload()) == Step(v, Completed)
  {
    ClassifyRequests(pin, state);
    assert Parse(v, buttons, SetPinPayload(pin, state)) == Apply(v, buttons, NotAReply);
    assert Parse(v, buttons, CheckPinsPayload()) == Apply(v, buttons, NotAReply);
  }

  /**
   * Two successful Responses for different pins end in the same view
   * whichever is delivered first.  (`Parse` is `Apply` after `Classify`, and
   * `ClassifyResponse` gives the replies of the peer's Response payloads.)
   */
  lemma ResponsesCommute(v: View, buttons: set<int>, p: int, a: bool, q: int, b: bool)
    requires v.statuses.Some? && p != q
    requires 1 <= p <= |v.statuses.value| && p - 1 in buttons && p <= Grid.PINS
    requires 1 <= q <= |v.statuses.value| && q - 1 in buttons && q <= Grid.PINS
    ensures var rp, rq := PinResult(Int(p), Bool(a), Bool(true)), PinResult(Int(q), Bool(b), Bool(true));
            Apply(Apply(v, buttons, rp).view, buttons, rq) == Apply(Apply(v, buttons, rq).view, buttons, rp)
  {
    var s := v.statuses.value;
    var vp := View(Some(s[p - 1 := a]), v.enabled + {p - 1});
    var vq := View(Some(s[q - 1 := b]), v.enabled + {q - 1});
    ApplySuccess(v, buttons, p, a);
    ApplySuccess(v, buttons, q, b);
    ApplySuccess(vp, buttons, q, b);
    ApplySuccess(vq, buttons, p, a);
    WritesCommute(s, v.enabled, p - 1, a, q - 1, b);
  }

  /** Writes to two different slots, and enabling two buttons, commute. */
  lemma WritesCommute(s: seq<bool>, enabled: set<int>, i: int, a: bool, j: int, b: bool)
    requires 0 <= i < |s| && 0 <= j < |s| && i != j
    ensures View(Some(s[i := a][j := b]), enabled + {i} + {j}) == View(Some(s[j := b][i := a]), enabled + {j} + {i})
  {
    assert s[i := a][j := b] == s[j := b][i := a];
    assert enabled + {i} + {j} == enabled + {j} + {i};
  }

  /**
   * Last delivery wins: a CheckPinsResponse delivered after any other reply
   * discards what that reply wrote, however stale the snapshot is.
   */
  lemma SnapshotWins(v: View, buttons: set<int>, data: Payload, statuses: seq<bool>)
    ensures Parse(Parse(v, buttons, data).view, buttons, CheckPinsResponsePayload(statuses)).view == View(Some(statuses), buttons)
  {
    SnapshotReplaces(Parse(v, buttons, data).view, buttons, statuses);
  }

  /** The client window: `Client` of app/client.py, reduced to the state its slots change. */
  class Client {
    /** The pin indices that got a toggle button (`self.toggle_buttons`, by key). */
    const toggleButtons: set<int>
    /** The widgets `create_grid_layout` puts in the window's grid, by cell. */
    const layout: map<Grid.Cell, Grid.Widget>
    /** `self.statuses`, None until the attribute is first written. */
    var statuses: Option<seq<bool>>
    /** The toggle buttons currently enabled. */
    var enabled: set<int>
    /** `self.threads`: the id of every live worker thread, mapped to the request it sends. */
    var threads: map<nat, Payload>

    ghost predicate Valid()
      reads this
    {
      toggleButtons == ButtonIndices() && Consistent(View(statuses, enabled), toggleButtons)
    }

    ghost function ViewOf(): View
      reads this
    {
      View(statuses, enabled)
    }

    /**
     * `__init__`: lays out the grid, with every toggle button disabled, and
     * asks the peer for all pin statuses on a first worker thread `id`.
     */
    constructor (id: nat)
      ensures Valid()
      ensures statuses == None && enabled == {}
      ensures threads == map[id := CheckPinsPayload()]
      ensures toggleButtons == ButtonIndices()
      ensures forall i :: 0 <= i < Grid.PINS ==> Grid.Placed(layout, i, Settings.PinNames, Settings.PinsToControl)
    {
      var cells, buttons := Grid.CreateGridLayout(Settings.PinNames, Settings.PinsToControl);
      layout := cells;
      toggleButtons := buttons;
      statuses := None;
      enabled := {};
      threads := map[];
      new;
      RefreshPinStatuses(id);
    }

    /**
     * `communicate_with_server`: starts a worker thread for `message` and
     * registers it under its id, which no live thread shares.
     */
    method CommunicateWithServer(message: Payload, id: nat)
      requires id !in threads
      modifies this`threads
      ensures threads == old(threads)[id := message]
    {
      threads := threads[id := message];
    }

    /** `delete_thread`: unregisters a finished thread; `del` raises KeyError for an unknown id. */
    method DeleteThread(id: nat) returns (outcome: SlotOutcome)
      modifies this`threads
      ensures threads == old(threads) - {id}
      ensures outcome == if id in old(threads) then Completed else Raised(PyError.KeyError)
    {
      if id !in threads {
        return Raised(PyError.KeyError);
      }
      threads := threads - {id};
      outcome := Completed;
    }

    /** `refresh_pin_statuses`: sends a CheckPins on a new worker thread. */
    method RefreshPinStatuses(id: nat)
      requires id !in threads
      modifies this`threads
      ensures threads == old(threads)[id := CheckPinsPayload()]
    {
      var request := New(CheckPins, []);
      var binary := GetBinary(request);
      CheckPinsEncoding([]);
      CommunicateWithServer(binary.value, id);
    }

    /** `parse_response`: applies one received payload, as `Parse` specifies. */
    method ParseResponse(data: Payload) returns (outcome: SlotOutcome)
      requires Valid()
      modifies this`statuses, this`enabled
      ensures Valid()
      ensures Step(ViewOf(), outcome) == Parse(old(ViewOf()), toggleButtons, data)
    {
      ParseKeepsConsistent(ViewOf(), toggleButtons, data);
      var response := Classify(data);
      ghost var expected := Apply(ViewOf(), toggleButtons, response);
      assert expected == Parse(ViewOf(), toggleButtons, data);
      match response {
        case Undecodable(e) =>
          outcome := Raised(DecodeFailure(e));
        case NotAReply =>
          outcome := Completed;
        case PinResult(pin, state, success) =>
          outcome := Completed;
          if Truthy(success) {
            var written := AssignStatus(statuses, pin, -1, state);
            if written.Err? {
              outcome := written.error;
            } else {
              statuses := Some(written.value);
              var k := AsInt(pin).value - 1;
              if PyIndex(Grid.PINS, k).None? {
                outcome := Raised(IndexError);
              } else if k !in toggleButtons {
                outcome := Raised(PyError.KeyError);
              } else {
                enabled := enabled + {k};
              }
            }
          }
        case Snapshot(received) =>
          match received {
            case BoolList(bs) =>
              statuses := Some(bs);
              EnableAllButtons();
              outcome := Completed;
            case Str(_) =>
              outcome := Unmodelled;
            case _ =>
              outcome := Raised(TypeError);
          }
      }
    }

    /**
     * The loop over `toggle_buttons.values()` that enables every toggle
     * button, visiting the keys (pin indices) in increasing order.
     */
    method EnableAllButtons()
      requires enabled <= toggleButtons
      requires forall k :: k in toggleButtons ==> 0 <= k < Grid.PINS
      modifies this`enabled
      ensures enabled == toggleButtons
    {
      for i := 0 to Grid.PINS
        invariant enabled == old(enabled) + set k | k in toggleButtons && k < i
      {
        if i in toggleButtons {
          enabled := enabled + {i};
        }
      }
    }

    /** `connection_problem`: logs and shows a message box; it changes no client state. */
    method ConnectionProblem() returns (outcome: SlotOutcome)
      ensures outcome == Completed
    {
      outcome := Completed;
    }

    /**
     * `toggle_pin(pin)`, run when the enabled button of `pin` is clicked:
     * disables that button, then sends SetPin(pin, not statuses[pin - 1])
     * on a new worker thread `id`.  An index past the end of `statuses`
     * raises IndexError after the button was disabled.
     */
    method TogglePin(pin: int, id: nat) returns (outcome: SlotOutcome)
      requires Valid()
      requires pin - 1 in enabled
      requires id !in threads
      modifies this`enabled, this`threads
      ensures Valid()
      ensures enabled == old(enabled) - {pin - 1}
      ensures statuses.Some? && statuses == old(statuses)
      ensures pin - 1 < |statuses.value| ==>
                outcome == Completed && threads == old(threads)[id := SetPinPayload(pin, !statuses.value[pin - 1])]
      ensures pin - 1 >= |statuses.value| ==> outcome == Raised(IndexError) && threads == old(threads)
    {
      enabled := enabled - {pin - 1};
      var s := statuses.value;
      if PyIndex(|s|, pin - 1).None? {
        return Raised(IndexError);
      }
      var setPinToHigh := !s[pin - 1];
      var request := New(SetPin, [Int(pin), Bool(setPinToHigh)]);
      var controlPin := GetBinary(request);
      RoundTripInit(SetPin, [Int(pin), Bool(setPinToHigh)]);
      CommunicateWithServer(controlPin.value, id);
      outcome := Completed;
    }

    /**
     * The main thread's handling of worker thread `id`: the one signal it
     * emitted goes to `parse_response` or `connection_problem`, then its
     * `finished` signal runs `delete_thread`.  A connection failure leaves
     * the statuses and the buttons as they were.
     */
    method Deliver(id: nat, signal: Transport.Signal) returns (outcome: SlotOutcome)
      requires Valid() && id in threads
      modifies this`statuses, this`enabled, this`threads
      ensures Valid()
      ensures threads == old(threads) - {id}
      ensures signal.Received? ==> Step(ViewOf(), outcome) == Parse(old(ViewOf()), toggleButtons, signal.data)
      ensures signal.ConnectionInterrupt? ==> ViewOf() == old(ViewOf()) && outcome == Completed
    {
      match signal {
        case Received(data) =>
          outcome := ParseResponse(data);
        case ConnectionInterrupt =>
          outcome := ConnectionProblem();
      }
      var _ := DeleteThread(id);
    }
  }

  /** Startup as the contracts describe it: the client is built and its CheckPins is answered. */
  method StartSession(initial: seq<bool>) returns (c: Client)
    ensures fresh(c) && c.Valid()
    ensures c.statuses == Some(initial) && c.enabled == c.toggleButtons && c.threads == map[]
  {
    c := new Client(0);
    var snapshot := CheckPinsResponsePayload(initial);
    SnapshotReplaces(c.ViewOf(), c.toggleButtons, initial);
    var _ := c.Deliver(0, Transport.Received(snapshot));
  }

  /** The peer confirms a toggle: the pin's status is set and its button enabled again. */
  method ConfirmToggle(c: Client, pin: int, state: bool)
    requires c.Valid() && c.statuses.Some? && 1 <= pin <= |c.statuses.value| && pin <= Grid.PINS
    requires pin - 1 in c.toggleButtons && 1 in c.threads
    modifies c
    ensures c.statuses == Some(old(c.statuses.value)[pin - 1 := state])
    ensures c.enabled == old(c.enabled) + {pin - 1}
    ensures c.threads == old(c.threads) - {1}
  {
    var reply := ResponsePayload(pin, state, true);
    SuccessfulResponse(c.ViewOf(), c.toggleButtons, pin, state);
    var _ := c.Deliver(1, Transport.Received(reply));
  }

  /**
   * One operator session: after startup, the button of a controllable pin
   * is clicked and the peer confirms the new state; the pin's status flips
   * and every button is enabled again.
   */
  method ToggleSession(initial: seq<bool>, pin: int) returns (c: Client)
    requires |initial| == Grid.PINS && pin in Settings.PinsToControl
    ensures c.statuses == Some(initial[pin - 1 := !initial[pin - 1]])
    ensures c.enabled == c.toggleButtons
    ensures c.threads == map[]
  {
    c := StartSession(initial);
    assert 1 <= pin <= Grid.PINS;
    assert pin - 1 in c.toggleButtons by { assert Grid.HasButton(pin - 1, Settings.PinsToControl); }
    var _ := c.TogglePin(pin, 1);
    ConfirmToggle(c, pin, !initial[pin - 1]);
    assert c.enabled == c.toggleButtons - {pin - 1} + {pin - 1};
  }
}
