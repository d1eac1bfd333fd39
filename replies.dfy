/**
 * What a client's `parse_response` slot sees of a received payload, and the
 * few pieces of Python run-time behaviour both clients rely on: the truth
 * value of a JSON value, bool-as-int, list indexing with negative indices,
 * and the exceptions a slot can end with.
 */
module Replies {
  import opened Results
  import opened Protocol

  /** The Python exceptions a client slot can end with. */
  datatype PyError = AttributeError | IndexError | KeyError | TypeError

  /**
   * How one slot invocation ends: normally, with an exception, or at a point
   * where Python would store a value the model's state cannot hold.
   */
  datatype SlotOutcome = Completed | Raised(error: PyError) | Unmodelled

  /** The exception `from_binary` ends with, as the slot sees it. */
  function DecodeFailure(e: DecodeError): PyError
  {
    match e
    case KeyError(_) => PyError.KeyError
    case UnhashableKey(_) => TypeError
  }

  /** Python's truth value of a JSON value (`if response.success:`). */
  function Truthy(v: Value): (r: bool)
    ensures !r <==> v in {Int(0), Bool(false), Str(""), BoolList([])}
  {
    match v
    case Int(i) => i != 0
    case Bool(b) => b
    case Str(s) => s != ""
    case BoolList(bs) => bs != []
  }

  /** The integer a value stands for in `pin - 1` or as a list index; bool is a subclass of int. */
  function AsInt(v: Value): (r: Option<int>)
    ensures r.Some? <==> v.Int? || v.Bool?
    ensures v.Int? ==> r == Some(v.i)
    ensures v == Bool(true) ==> r == Some(1)
    ensures v == Bool(false) ==> r == Some(0)
  {
    match v
    case Int(i) => Some(i)
    case Bool(b) => Some(if b then 1 else 0)
    case _ => None
  }

  /** The slot that `xs[i]` reaches in a list of length `n`: a negative `i` counts from the end. */
  function PyIndex(n: nat, i: int): (r: Option<nat>)
    ensures r.Some? <==> -(n as int) <= i < n
    ensures r.Some? ==> r.value < n
    ensures r.Some? && i >= 0 ==> r.value == i
    ensures r.Some? && i < 0 ==> r.value == i + n
  {
    if 0 <= i < n then Some(i)
    else if -(n as int) <= i < 0 then Some(i + n)
    else None
  }

  /** A decoded payload, after the slot's two `isinstance` tests. */
  datatype Reply =
    | Undecodable(error: DecodeError)
    | PinResult(pin: Value, state: Value, success: Value)
    | Snapshot(statuses: Value)
    | NotAReply

  /**
   * `from_binary(data)` followed by `isinstance(response, Response)` and
   * `isinstance(response, CheckPinsResponse)`: a `Response` or a
   * `CheckPinsResponse` hands its fields' values on; a `SetPin` or a
   * `CheckPins` matches neither test.
   */
  function Classify(data: Payload): (r: Reply)
    ensures r.Undecodable? <==> !Decodable(data)
    ensures r.Undecodable? ==> FromBinary(data) == Err(r.error)
    ensures r.PinResult? <==> FromBinary(data).Ok? && FromBinary(data).value.kind == Response
    ensures r.PinResult? ==> "pin" in data && "state" in data && "success" in data
    ensures r.PinResult? ==> r.pin == data["pin"] && r.state == data["state"] && r.success == data["success"]
    ensures r.Snapshot? <==> FromBinary(data).Ok? && FromBinary(data).value.kind == CheckPinsResponse
    ensures r.Snapshot? ==> "statuses" in data && r.statuses == data["statuses"]
  {
    match FromBinary(data)
    case Err(e) => Undecodable(e)
    case Ok(m) =>
      match m.kind
      case Response => PinResult(m.attrs["pin"], m.attrs["state"], m.attrs["success"])
      case CheckPinsResponse => Snapshot(m.attrs["statuses"])
      case _ => NotAReply
  }

  /** A Response encoded by the peer is classified with the values it was built from. */
  lemma ClassifyResponse(pin: int, state: bool, success: bool)
    ensures Classify(ResponsePayload(pin, state, success)) == PinResult(Int(pin), Bool(state), Bool(success))
  {
    var r := ResponsePayload(pin, state, success);
    assert FromBinary(r).value.attrs["pin"] == Int(pin);
  }

  /** A CheckPinsResponse encoded by the peer is classified with the statuses it was built from. */
  lemma ClassifySnapshot(statuses: seq<bool>)
    ensures Classify(CheckPinsResponsePayload(statuses)) == Snapshot(BoolList(statuses))
  {
    var c := CheckPinsResponsePayload(statuses);
    assert FromBinary(c).value.attrs["statuses"] == BoolList(statuses);
  }

  /** The two requests are not replies: both `isinstance` tests fail on them. */
  lemma ClassifyRequests(pin: int, state: bool)
    ensures Classify(SetPinPayload(pin, state)) == NotAReply
    ensures Classify(CheckPinsPayload()) == NotAReply
  {
  }

  /**
   * `self.statuses[index] = state` with `index` the value `pin` plus
   * `offset`, in Python's order: the attribute `statuses` must exist
   * (AttributeError), the index must be an integer (TypeError) and within
   * the list (IndexError); a value other than a bool is something the
   * model's `seq<bool>` cannot hold.
   */
  function AssignStatus(statuses: Option<seq<bool>>, pin: Value, offset: int, state: Value): (r: Result<seq<bool>, SlotOutcome>)
    ensures statuses.None? ==> r == Err(Raised(PyError.AttributeError))
    ensures statuses.Some? && AsInt(pin).None? ==> r == Err(Raised(TypeError))
    ensures statuses.Some? && AsInt(pin).Some? && !(-|statuses.value| <= AsInt(pin).value + offset < |statuses.value|) ==>
              r == Err(Raised(IndexError))
    ensures r.Err? ==> r.error != Completed
    ensures r.Ok? <==> statuses.Some? && AsInt(pin).Some? && -|statuses.value| <= AsInt(pin).value + offset < |statuses.value| && state.Bool?
    ensures r.Ok? ==> |r.value| == |statuses.value|
    ensures r.Ok? ==> r.value == statuses.value[PyIndex(|statuses.value|, AsInt(pin).value + offset).value := state.b]
  {
    match statuses
    case None => Err(Raised(PyError.AttributeError))
    case Some(s) =>
      match AsInt(pin)
      case None => Err(Raised(TypeError))
      case Some(p) =>
        match PyIndex(|s|, p + offset)
        case None => Err(Raised(IndexError))
        case Some(k) =>
          if state.Bool? then Ok(s[k := state.b]) else Err(Unmodelled)
  }
}
