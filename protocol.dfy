/**
 * The message codec of the pin-control protocol.
 *
 * A message object is an instance of one of four message classes; it carries
 * the attributes its constructor set, by field name.  Its binary form is the
 * UTF-8 text of a flat JSON object mapping every field name of the class to
 * the attribute's value, plus the key "MessageType" holding the class's tag.
 * The JSON text itself is treated as an opaque bijection: a payload is the
 * decoded JSON object, a map from key to JSON value.
 */
module Protocol {
  import opened Results

  /** The JSON values the protocol carries. */
  datatype Value = Int(i: int) | Bool(b: bool) | Str(s: string) | BoolList(bs: seq<bool>)

  /** A decoded JSON object, as sent or received on the wire. */
  type Payload = map<string, Value>

  const SET_PIN: string := "SET_PIN"
  const RESPONSE_PIN: string := "RESPONSE_PIN"
  const CHECK_PINS_STATUS: string := "CHECK_PINS_STATUS"
  const CHECK_PINS_RESPONSE: string := "CHECK_PINS_RESPONSE"

  /** The key under which a payload carries its message's tag. */
  const MESSAGE_TYPE: string := "MessageType"

  /** The four message classes. */
  datatype Kind = SetPin | Response | CheckPins | CheckPinsResponse

  /** The class attribute `message_type` of each message class. */
  function MessageType(k: Kind): string
  {
    match k
    case SetPin => SET_PIN
    case Response => RESPONSE_PIN
    case CheckPins => CHECK_PINS_STATUS
    case CheckPinsResponse => CHECK_PINS_RESPONSE
  }

  /** The class attribute `fields` of each message class, in declaration order. */
  function Fields(k: Kind): seq<string>
  {
    match k
    case SetPin => ["pin", "state"]
    case Response => ["pin", "state", "success"]
    case CheckPins => []
    case CheckPinsResponse => ["statuses"]
  }

  /** The dispatch table from tag to message class. */
  const CommandDict: map<string, Kind> :=
    map[SET_PIN := SetPin, RESPONSE_PIN := Response,
        CHECK_PINS_STATUS := CheckPins, CHECK_PINS_RESPONSE := CheckPinsResponse]

  /** A message object: its class and the attributes set on it. */
  datatype Message = Message(kind: Kind, attrs: map<string, Value>)

  function Min(a: int, b: int): int { if a < b then a else b }

  ghost predicate Distinct(fields: seq<string>)
  {
    forall a, b :: 0 <= a < b < |fields| ==> fields[a] != fields[b]
  }

  // ---------------------------------------------------------------------------
  // Construction: Message.__init__(*args)
  // ---------------------------------------------------------------------------

  /**
   * The attributes `Message.__init__` sets: walking `args` and `fields`
   * together, the i-th argument under the i-th field name, for as many pairs
   * as the shorter list has.
   */
  function Zip(fields: seq<string>, args: seq<Value>): map<string, Value>
    decreases |fields|
  {
    var n := Min(|fields|, |args|);
    if n == 0 then map[] else Zip(fields[..n - 1], args[..n - 1])[fields[n - 1] := args[n - 1]]
  }

  /** The object `cls(*args)` for the class of kind `k`. */
  function Init(k: Kind, args: seq<Value>): Message
  {
    Message(k, Zip(Fields(k), args))
  }

  lemma {:induction false} ZipKeys(fields: seq<string>, args: seq<Value>)
    ensures forall f :: f in Zip(fields, args) <==> f in fields[..Min(|fields|, |args|)]
    decreases |fields|
  {
    var n := Min(|fields|, |args|);
    if n > 0 {
      var fs, vs := fields[..n - 1], args[..n - 1];
      ZipKeys(fs, vs);
      assert fs[..Min(|fs|, |vs|)] == fs;
      assert fields[..n] == fs + [fields[n - 1]];
    }
  }

  lemma {:induction false} ZipValues(fields: seq<string>, args: seq<Value>)
    requires Distinct(fields)
    ensures forall j :: 0 <= j < Min(|fields|, |args|) ==> fields[j] in Zip(fields, args) && Zip(fields, args)[fields[j]] == args[j]
    decreases |fields|
  {
    ZipKeys(fields, args);
    var n := Min(|fields|, |args|);
    if n > 0 {
      var fs, vs := fields[..n - 1], args[..n - 1];
      assert Distinct(fs);
      ZipValues(fs, vs);
      ZipKeys(fs, vs);
      forall j | 0 <= j < n
        ensures Zip(fields, args)[fields[j]] == args[j]
      {
        if j < n - 1 {
          assert fields[j] == fs[j] && fields[j] != fields[n - 1];
        }
      }
    }
  }

  lemma FieldsDistinct(k: Kind)
    ensures Distinct(Fields(k))
  {
  }

  /**
   * The constructor assigns `args[i]` to `fields[i]` for every i below
   * min(|args|, |fields|); further arguments are dropped and further fields
   * are left unset.
   */
  lemma InitAttrs(k: Kind, args: seq<Value>)
    ensures Init(k, args).kind == k
    ensures forall f :: f in Init(k, args).attrs <==> f in Fields(k)[..Min(|Fields(k)|, |args|)]
    ensures forall j :: 0 <= j < Min(|Fields(k)|, |args|) ==> Init(k, args).attrs[Fields(k)[j]] == args[j]
  {
    FieldsDistinct(k);
    ZipKeys(Fields(k), args);
    ZipValues(Fields(k), args);
  }

  /** `Message.__init__`: sets one attribute per (argument, field) pair, in order. */
  method New(k: Kind, args: seq<Value>) returns (m: Message)
    ensures m == Init(k, args)
    ensures forall f :: f in m.attrs <==> f in Fields(k)[..Min(|Fields(k)|, |args|)]
    ensures forall j :: 0 <= j < Min(|Fields(k)|, |args|) ==> m.attrs[Fields(k)[j]] == args[j]
  {
    var fields := Fields(k);
    var attrs: map<string, Value> := map[];
    var i := 0;
    while i < |fields| && i < |args|
      invariant 0 <= i <= Min(|fields|, |args|)
      invariant attrs == Zip(fields[..i], args[..i])
    {
      assert fields[..i + 1][..i] == fields[..i] && args[..i + 1][..i] == args[..i];
      attrs := attrs[fields[i] := args[i]];
      i := i + 1;
    }
    var n := Min(|fields|, |args|);
    assert fields[..n] == fields || args[..n] == args;
    assert Zip(fields[..n], args[..n]) == Zip(fields, args) by {
      if n > 0 {
        assert fields[..n][..n - 1] == fields[..n - 1] && args[..n][..n - 1] == args[..n - 1];
      }
    }
    m := Message(k, attrs);
    InitAttrs(k, args);
  }

  // ---------------------------------------------------------------------------
  // Encoding: Message.get_binary
  // ---------------------------------------------------------------------------

  /** The exception `get_binary` raises: the attribute it could not read. */
  datatype EncodeError = AttributeError(name: string)

  /**
   * `name` is the first entry of `fields` that `attrs` lacks, the one at which
   * a left-to-right walk over `fields` stops.
   */
  ghost predicate FirstMissing(fields: seq<string>, attrs: map<string, Value>, name: string)
  {
    name !in attrs && exists j :: 0 <= j < |fields| && fields[j] == name && forall f :: f in fields[..j] ==> f in attrs
  }

  /**
   * The loop of `get_binary` over `fields`, started on the dictionary `acc`:
   * copies every field's attribute into the dictionary, or stops at the first
   * field whose attribute is missing.
   */
  function Collect(fields: seq<string>, attrs: map<string, Value>, acc: Payload): (r: Result<Payload, string>)
    ensures r.Ok? <==> forall f :: f in fields ==> f in attrs
    ensures r.Ok? ==> forall k :: k in r.value <==> k in acc || k in fields
    ensures r.Ok? ==> forall f :: f in fields ==> r.value[f] == attrs[f]
    ensures r.Ok? ==> forall k :: k in acc && k !in fields ==> r.value[k] == acc[k]
    ensures r.Err? ==> FirstMissing(fields, attrs, r.error)
    decreases |fields|
  {
    if fields == [] then Ok(acc)
    else if fields[0] !in attrs then
      assert fields[..0] == [];
      Err(fields[0])
    else
      var r := Collect(fields[1..], attrs, acc[fields[0] := attrs[fields[0]]]);
      assert forall f :: f in fields <==> f == fields[0] || f in fields[1..];
      if r.Err? then
        assert FirstMissing(fields, attrs, r.error) by {
          var j :| 0 <= j < |fields[1..]| && fields[1..][j] == r.error && forall f :: f in fields[1..][..j] ==> f in attrs;
          assert fields[..j + 1] == [fields[0]] + fields[1..][..j];
        }
        r
      else
        r
  }

  /**
   * `get_binary`: the field-name → value dictionary plus the tag under
   * "MessageType"; fails with AttributeError on the first field the object
   * does not carry.
   */
  function Encode(m: Message): (r: Result<Payload, EncodeError>)
    ensures r.Ok? <==> forall f :: f in Fields(m.kind) ==> f in m.attrs
    ensures r.Ok? ==> forall k :: k in r.value <==> k == MESSAGE_TYPE || k in Fields(m.kind)
    ensures r.Ok? ==> r.value[MESSAGE_TYPE] == Str(MessageType(m.kind))
    ensures r.Ok? ==> forall f :: f in Fields(m.kind) ==> r.value[f] == m.attrs[f]
    ensures r.Err? ==> FirstMissing(Fields(m.kind), m.attrs, r.error.name)
  {
    match Collect(Fields(m.kind), m.attrs, map[])
    case Err(name) => Err(AttributeError(name))
    case Ok(d) => Ok(d[MESSAGE_TYPE := Str(MessageType(m.kind))])
  }

  /** `get_binary` as the source runs it: a loop filling `data_dict`, then the tag. */
  method GetBinary(m: Message) returns (r: Result<Payload, EncodeError>)
    ensures r == Encode(m)
  {
    var fields := Fields(m.kind);
    var dataDict: Payload := map[];
    var i := 0;
    while i < |fields|
      invariant 0 <= i <= |fields|
      invariant Collect(fields, m.attrs, map[]) == Collect(fields[i..], m.attrs, dataDict)
    {
      var field := fields[i];
      if field !in m.attrs {
        return Err(AttributeError(field));
      }
      assert fields[i..][1..] == fields[i + 1..];
      dataDict := dataDict[field := m.attrs[field]];
      i := i + 1;
    }
    dataDict := dataDict[MESSAGE_TYPE := Str(MessageType(m.kind))];
    r := Ok(dataDict);
  }

  // ---------------------------------------------------------------------------
  // Decoding: Message.from_dict and from_binary
  // ---------------------------------------------------------------------------

  /**
   * The exceptions `from_binary` raises: KeyError for a key the dictionary
   * or the dispatch table lacks, TypeError when the tag is a list (which
   * cannot be a dictionary key).
   */
  datatype DecodeError = KeyError(key: Value) | UnhashableKey(key: Value)

  /** `[d[field] for field in fields]`: stops at the first missing key. */
  function Gather(fields: seq<string>, d: Payload): (r: Result<seq<Value>, string>)
    ensures r.Ok? <==> forall f :: f in fields ==> f in d
    ensures r.Ok? ==> |r.value| == |fields| && forall j :: 0 <= j < |fields| ==> r.value[j] == d[fields[j]]
    ensures r.Err? ==> FirstMissing(fields, d, r.error)
    decreases |fields|
  {
    if fields == [] then Ok([])
    else if fields[0] !in d then
      assert fields[..0] == [];
      Err(fields[0])
    else
      var rest := Gather(fields[1..], d);
      assert forall f :: f in fields <==> f == fields[0] || f in fields[1..];
      match rest
      case Err(name) =>
        assert FirstMissing(fields, d, name) by {
          var j :| 0 <= j < |fields[1..]| && fields[1..][j] == name && forall f :: f in fields[1..][..j] ==> f in d;
          assert fields[..j + 1] == [fields[0]] + fields[1..][..j];
        }
        Err(name)
      case Ok(vs) => Ok([d[fields[0]]] + vs)
  }

  /** `from_dict`: reads every field of the class from `d` and calls the constructor. */
  function FromDict(k: Kind, d: Payload): (r: Result<Message, DecodeError>)
    ensures r.Ok? <==> forall f :: f in Fields(k) ==> f in d
    ensures r.Ok? ==> r.value.kind == k
    ensures r.Ok? ==> forall f :: f in r.value.attrs <==> f in Fields(k)
    ensures r.Ok? ==> forall f :: f in Fields(k) ==> r.value.attrs[f] == d[f]
    ensures r.Err? ==> r.error.KeyError? && r.error.key.Str? && FirstMissing(Fields(k), d, r.error.key.s)
  {
    match Gather(Fields(k), d)
    case Err(name) => Err(KeyError(Str(name)))
    case Ok(args) =>
      InitAttrs(k, args);
      assert Fields(k)[..Min(|Fields(k)|, |args|)] == Fields(k);
      assert forall f :: f in Fields(k) ==> exists j :: 0 <= j < |Fields(k)| && Fields(k)[j] == f;
      Ok(Init(k, args))
  }

  /** A payload `from_binary` accepts: a known tag and every field of its class. */
  ghost predicate Decodable(p: Payload)
  {
    && MESSAGE_TYPE in p
    && p[MESSAGE_TYPE].Str?
    && p[MESSAGE_TYPE].s in CommandDict
    && forall f :: f in Fields(CommandDict[p[MESSAGE_TYPE].s]) ==> f in p
  }

  /**
   * `from_binary`: looks the tag up in `command_dict` and rebuilds the object
   * of that class from the payload's fields.
   */
  function FromBinary(p: Payload): (r: Result<Message, DecodeError>)
    ensures r.Ok? <==> Decodable(p)
    ensures r.Ok? ==> MessageType(r.value.kind) == p[MESSAGE_TYPE].s
    ensures r.Ok? ==> forall f :: f in r.value.attrs <==> f in Fields(r.value.kind)
    ensures r.Ok? ==> forall f :: f in Fields(r.value.kind) ==> r.value.attrs[f] == p[f]
    ensures MESSAGE_TYPE !in p ==> r == Err(KeyError(Str(MESSAGE_TYPE)))
    ensures MESSAGE_TYPE in p && p[MESSAGE_TYPE].BoolList? ==> r == Err(UnhashableKey(p[MESSAGE_TYPE]))
    ensures MESSAGE_TYPE in p && !p[MESSAGE_TYPE].BoolList? && !(p[MESSAGE_TYPE].Str? && p[MESSAGE_TYPE].s in CommandDict) ==>
              r == Err(KeyError(p[MESSAGE_TYPE]))
  {
    if MESSAGE_TYPE !in p then Err(KeyError(Str(MESSAGE_TYPE)))
    else
      var tag := p[MESSAGE_TYPE];
      match tag
      case BoolList(_) => Err(UnhashableKey(tag))
      case Str(t) =>
        if t in CommandDict then
          CommandDictInverse();
          FromDict(CommandDict[t], p)
        else Err(KeyError(tag))
      case _ => Err(KeyError(tag))
  }

  // ---------------------------------------------------------------------------
  // Properties of the tag table and the codec
  // ---------------------------------------------------------------------------

  /** The dispatch table maps each class's tag to that class, and knows no other tag. */
  lemma CommandDictInverse()
    ensures forall k :: MessageType(k) in CommandDict && CommandDict[MessageType(k)] == k
    ensures forall t :: t in CommandDict ==> MessageType(CommandDict[t]) == t
  {
  }

  /** The four tags are distinct, so the dispatch table is injective. */
  lemma CommandDictInjective()
    ensures forall k1, k2 :: MessageType(k1) == MessageType(k2) ==> k1 == k2
    ensures forall t1, t2 :: t1 in CommandDict && t2 in CommandDict && CommandDict[t1] == CommandDict[t2] ==> t1 == t2
  {
    CommandDictInverse();
  }

  /** Only the fields of the class survive a round trip through the wire. */
  function Restrict(m: Message): Message
  {
    Message(m.kind, map f | f in m.attrs && f in Fields(m.kind) :: m.attrs[f])
  }

  /**
   * Round trip: an object that carries every field of its class encodes, and
   * decodes to an object of the same class with the same field values.
   */
  lemma RoundTrip(m: Message)
    requires forall f :: f in Fields(m.kind) ==> f in m.attrs
    ensures Encode(m).Ok?
    ensures FromBinary(Encode(m).value) == Ok(Restrict(m))
  {
    var p := Encode(m).value;
    CommandDictInverse();
    assert MESSAGE_TYPE !in Fields(m.kind);
    var r := FromBinary(p);
    assert r.Ok?;
    assert r.value.kind == m.kind by { CommandDictInjective(); }
    assert r.value.attrs == Restrict(m).attrs;
  }

  /** An object built with at least one argument per field decodes back to itself. */
  lemma {:induction false} RoundTripInit(k: Kind, args: seq<Value>)
    requires |args| >= |Fields(k)|
    ensures Encode(Init(k, args)).Ok?
    ensures FromBinary(Encode(Init(k, args)).value) == Ok(Init(k, args))
  {
    InitAttrs(k, args);
    assert Fields(k)[..Min(|Fields(k)|, |args|)] == Fields(k);
    RoundTrip(Init(k, args));
    assert Restrict(Init(k, args)) == Init(k, args);
  }

  /**
   * An object built with too few arguments cannot be encoded: `get_binary`
   * raises AttributeError naming the first field left unset.
   */
  lemma {:induction false} EncodeTooFewArgs(k: Kind, args: seq<Value>)
    requires |args| < |Fields(k)|
    ensures Encode(Init(k, args)) == Err(AttributeError(Fields(k)[|args|]))
  {
    InitAttrs(k, args);
    FieldsDistinct(k);
    var m := Init(k, args);
    var missing := Fields(k)[|args|];
    assert missing !in m.attrs;
    var name := Encode(m).error.name;
    var j :| 0 <= j < |Fields(k)| && Fields(k)[j] == name && forall f :: f in Fields(k)[..j] ==> f in m.attrs;
    assert j >= |args| by {
      assert Fields(k)[j] !in m.attrs;
      assert forall l :: 0 <= l < |args| ==> Fields(k)[l] in Fields(k)[..Min(|Fields(k)|, |args|)];
    }
    assert missing in Fields(k)[..j] ==> missing in m.attrs;
  }

  /** `CheckPins` encodes to a payload whose only key is "MessageType", whatever it was given. */
  lemma CheckPinsEncoding(args: seq<Value>)
    ensures Encode(Init(CheckPins, args)) == Ok(map[MESSAGE_TYPE := Str(CHECK_PINS_STATUS)])
  {
    var r := Encode(Init(CheckPins, args));
    assert r.Ok?;
    assert r.value.Keys == {MESSAGE_TYPE};
  }

  /**
   * `from_dict` reads only the class's fields: two payloads that agree on the
   * tag and on those fields decode alike, whatever other keys they carry.
   */
  lemma ExtraKeysIgnored(p: Payload, q: Payload)
    requires MESSAGE_TYPE in p && MESSAGE_TYPE in q && p[MESSAGE_TYPE] == q[MESSAGE_TYPE]
    requires p[MESSAGE_TYPE].Str? && p[MESSAGE_TYPE].s in CommandDict
    requires forall f :: f in Fields(CommandDict[p[MESSAGE_TYPE].s]) ==> (f in p <==> f in q) && (f in p ==> p[f] == q[f])
    ensures FromBinary(p) == FromBinary(q)
  {
    var k := CommandDict[p[MESSAGE_TYPE].s];
    CommandDictInverse();
    var rp, rq := FromBinary(p), FromBinary(q);
    if rp.Ok? {
      assert rp.value.kind == k && rq.value.kind == k by { CommandDictInjective(); }
      assert rp.value.attrs == rq.value.attrs;
    } else {
      assert Gather(Fields(k), p) == Gather(Fields(k), q) by { GatherAgrees(Fields(k), p, q); }
    }
  }

  lemma {:induction false} GatherAgrees(fields: seq<string>, p: Payload, q: Payload)
    requires forall f :: f in fields ==> (f in p <==> f in q) && (f in p ==> p[f] == q[f])
    ensures Gather(fields, p) == Gather(fields, q)
    decreases |fields|
  {
    if fields != [] {
      GatherAgrees(fields[1..], p, q);
    }
  }

  /** The objects the clients and the peer build, field by field. */
  lemma InitLiterals(a: Value, b: Value, c: Value)
    ensures Init(SetPin, [a, b]).attrs == map["pin" := a, "state" := b]
    ensures Init(Response, [a, b, c]).attrs == map["pin" := a, "state" := b, "success" := c]
    ensures Init(CheckPins, []).attrs == map[]
    ensures Init(CheckPinsResponse, [a]).attrs == map["statuses" := a]
  {
    InitAttrs(SetPin, [a, b]);
    InitAttrs(Response, [a, b, c]);
    InitAttrs(CheckPins, []);
    InitAttrs(CheckPinsResponse, [a]);
    assert Fields(SetPin)[..2] == ["pin", "state"];
    assert Fields(Response)[..3] == ["pin", "state", "success"];
    assert Fields(CheckPinsResponse)[..1] == ["statuses"];
  }

  /** The payload `SetPin(pin, state).get_binary()` sends. */
  function SetPinPayload(pin: int, state: bool): (p: Payload)
    ensures FromBinary(p) == Ok(Message(SetPin, map["pin" := Int(pin), "state" := Bool(state)]))
  {
    RoundTripInit(SetPin, [Int(pin), Bool(state)]);
    InitLiterals(Int(pin), Bool(state), Bool(state));
    Encode(Init(SetPin, [Int(pin), Bool(state)])).value
  }

  /** The payload `CheckPins().get_binary()` sends. */
  function CheckPinsPayload(): (p: Payload)
    ensures FromBinary(p) == Ok(Message(CheckPins, map[]))
    ensures p == map[MESSAGE_TYPE := Str(CHECK_PINS_STATUS)]
  {
    CheckPinsEncoding([]);
    RoundTripInit(CheckPins, []);
    InitLiterals(Bool(false), Bool(false), Bool(false));
    Encode(Init(CheckPins, [])).value
  }

  /** The payload a peer's `Response(pin, state, success).get_binary()` carries. */
  function ResponsePayload(pin: int, state: bool, success: bool): (p: Payload)
    ensures FromBinary(p) == Ok(Message(Response, map["pin" := Int(pin), "state" := Bool(state), "success" := Bool(success)]))
  {
    RoundTripInit(Response, [Int(pin), Bool(state), Bool(success)]);
    InitLiterals(Int(pin), Bool(state), Bool(success));
    Encode(Init(Response, [Int(pin), Bool(state), Bool(success)])).value
  }

  /** The payload a peer's `CheckPinsResponse(statuses).get_binary()` carries. */
  function CheckPinsResponsePayload(statuses: seq<bool>): (p: Payload)
    ensures FromBinary(p) == Ok(Message(CheckPinsResponse, map["statuses" := BoolList(statuses)]))
  {
    RoundTripInit(CheckPinsResponse, [BoolList(statuses)]);
    InitLiterals(BoolList(statuses), Bool(false), Bool(false));
    Encode(Init(CheckPinsResponse, [BoolList(statuses)])).value
  }
}
