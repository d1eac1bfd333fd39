# RaspberryPiControl: the message codec and the client pin-state machine

RaspberryPiControl lets an operator switch the GPIO pins of a Raspberry Pi
from a desktop window. The window and the Pi exchange four kinds of JSON
messages over TCP:

- `SetPin(pin, state)`
- `Response(pin, state, success)`
- `CheckPins()`
- `CheckPinsResponse(statuses)`

This project models three parts of the system and proves properties of each.

**The codec** (`protocol.dfy`). A message object is a class plus the
attributes its constructor set. The model covers:

- the constructor's pairing of arguments with field names;
- `get_binary`'s loop over the fields;
- `from_dict`;
- `from_binary`'s dispatch through `command_dict`.

A payload is the decoded JSON object. JSON text and UTF-8 are an opaque
bijection.

Python exceptions are error values:

- `get_binary` on an object with an unset field gives `AttributeError`.
- `from_binary` gives `KeyError` for a missing `MessageType`, an unknown tag or a missing field.
- `from_binary` gives `TypeError` when the tag is a list.

**The operator's client** (`app_client.dfy`, module `AppClient`). This is
the `Client` window of `app/client.py`, reduced to the state its slots
change:

- `statuses` (absent until the first `CheckPinsResponse`);
- the set of enabled toggle buttons;
- the live worker threads.

Each method is proved against a pure specification. `Parse` is the effect
of one received payload. The lemmas about `Parse` state what each kind of
reply does. `replies.dfy` holds the Python run-time behaviour both clients
depend on:

- the truth value of `success`;
- bool used as an int;
- negative list indices;
- the order in which `statuses[i] = v` can fail.

`transport.dfy` models the outcome of one worker thread. `grid.dfy` models
the 40-pin grid placement and the pin-name fallback.

**The legacy client** (`legacy_client.dfy`, module `Legacy`). This is the
older `Client.py`, as its own class. Its thread list only grows. It ignores
`CheckPinsResponse`. It indexes `statuses` by pin number.

Where the code and the design of the system disagree, the model follows the
code:

- **Failed replies.** A `Response` whose `success` is false does not
  re-enable the pin's button (`FailedResponse`). Neither does a connection
  failure (`Client.Deliver`). Only a `CheckPinsResponse` re-enables it, and
  the only CheckPins is the one `__init__` sends, so the button stays
  disabled for the rest of the session.
- **Decode errors.** A payload that does not decode is not a silent no-op.
  `from_binary` raises `KeyError` or `TypeError` inside the slot, and the
  model records that outcome as `Raised(...)`.
- **Length of `statuses`.** The code never checks that `statuses` has 40
  entries. The model accepts a list of any length, and index errors follow
  from it.

Each delivered signal is one sequential event on the client state. Deliveries
may come in any order.

## Model

| member | source | states |
|---|---|---|
| Protocol.InitAttrs | protocol.py:10-12 | The constructor sets exactly the first min(len(args), len(fields)) fields, field j to args[j]; extra arguments are dropped and missing ones leave the field unset |
| Protocol.New | protocol.py:10-12 | The `setattr` loop builds that same attribute map, one (argument, field) pair at a time |
| Protocol.FieldsDistinct | protocol.py:27-51 | No class lists a field name twice |
| Protocol.Collect | protocol.py:20-22 | The field loop succeeds iff every field is set; the dictionary then holds every field with its attribute's value plus what it held before; otherwise it stops at the first unset field |
| Protocol.Encode | protocol.py:19-24 | The encoded dictionary has exactly the class's fields plus "MessageType" as keys, the tag under "MessageType" and each attribute's value under its field; an unset field gives AttributeError naming the first one |
| Protocol.GetBinary | protocol.py:19-24 | The imperative loop computes `Encode` |
| Protocol.Gather | protocol.py:16 | The list comprehension succeeds iff the payload has every field, giving their values in field order; otherwise it names the first missing field |
| Protocol.FromDict | protocol.py:14-17 | Rebuilds an object of the class whose attributes are exactly its fields with the payload's values; a missing field raises KeyError naming it |
| Protocol.FromBinary | protocol.py:60-62 | Decodes iff the tag is one of the four and every field of its class is present; the object's class has that tag and the payload's field values; a missing tag or an unknown tag raises KeyError and a list tag raises TypeError |
| Protocol.CommandDictInverse | protocol.py:53-58 | `command_dict` maps every class's tag to that class and `command_dict[t].message_type == t` for its four keys |
| Protocol.CommandDictInjective | protocol.py:4-7 | The four tags are distinct and `command_dict` is injective |
| Protocol.RoundTrip | protocol.py:15-24 | An object with every field set encodes, and decoding gives the same class with the same field values (attributes outside the fields are not sent) |
| Protocol.RoundTripInit | protocol.py:10-24 | An object built with at least one argument per field decodes back to itself |
| Protocol.EncodeTooFewArgs | protocol.py:10-22 | An object built with too few arguments cannot be encoded: AttributeError on the first field left unset |
| Protocol.CheckPinsEncoding | protocol.py:45-47 | `CheckPins` encodes to a dictionary whose only key is "MessageType", holding CHECK_PINS_STATUS |
| Protocol.ExtraKeysIgnored | protocol.py:15-17 | Two payloads with the same known tag that agree on that class's fields decode alike, whatever other keys they carry |
| Protocol.InitLiterals | protocol.py:27-51 | The attribute maps of `SetPin(a, b)`, `Response(a, b, c)`, `CheckPins()` and `CheckPinsResponse(a)` |
| Protocol.SetPinPayload | protocol.py:27-29 | The payload of `SetPin(pin, state)` decodes to a SetPin with exactly that pin and state |
| Protocol.CheckPinsPayload | protocol.py:45-47 | The payload of `CheckPins()` is the lone tag and decodes to a CheckPins |
| Protocol.ResponsePayload | protocol.py:34-36 | The payload of `Response(pin, state, success)` decodes to a Response with exactly those values |
| Protocol.CheckPinsResponsePayload | protocol.py:49-51 | The payload of `CheckPinsResponse(statuses)` decodes to a CheckPinsResponse carrying that list |
| Replies.Truthy | app/client.py:65 | `if response.success`: a JSON value is false exactly when it is 0, false, the empty string or the empty list |
| Replies.AsInt | app/client.py:66 | The integer `response.pin - 1` computes with: an integer stands for itself, true for 1 and false for 0; a string or a list has none |
| Replies.PyIndex | app/client.py:66 | A list index reaches a slot iff it lies in [-len, len); a non-negative index reaches itself and a negative one slot index + len |
| Replies.Classify | app/client.py:62-71 | The two `isinstance` tests: a decode failure exactly when `from_binary` fails, a Response or a CheckPinsResponse with the payload's field values, anything else matches neither test |
| Replies.ClassifyResponse | app/client.py:64 | A Response payload is classified with the pin, state and success it was built from |
| Replies.ClassifySnapshot | app/client.py:71 | A CheckPinsResponse payload is classified with its list |
| Replies.ClassifyRequests | app/client.py:64-71 | SetPin and CheckPins payloads match neither test |
| Replies.AssignStatus | app/client.py:66 | `statuses[pin + offset] = state` in Python's order: AttributeError without `statuses`, TypeError for a non-integer pin, IndexError outside the list; on success exactly that slot changes and the length is kept |
| Transport.Run | app/client.py:32-40 | Once the socket is created, every request ends in exactly one signal, the received bytes iff connect, send and receive all succeed, and the socket is closed; if creating the socket fails, the thread raises and emits no signal |
| Grid.Column | app/client.py:144-155 | Every widget's column lies in 0..7, on the right half (4..7) exactly for odd pin indices |
| Grid.PlacementInvertible | app/client.py:144-157 | Pin index i sits in row i // 2, odd indices on columns 7/6/5/4 and even on 0/1/2/3, inside the 20-by-8 grid; pin and slot can be read back from the cell |
| Grid.PlacementInjective | app/client.py:144-165 | Distinct (pin, widget) pairs get distinct cells; in particular the 40 bulbs are pairwise distinct |
| Grid.DecimalRoundTrip | app/client.py:139 | `str(n)` of a natural number reads back as n |
| Grid.DisplayName | app/client.py:138-142 | A pin with a configured name shows it; any other pin shows "PIN" followed by decimal digits without a leading zero that read back as its pin number, which is `str(i + 1)` |
| Grid.UnnamedLabelsDistinct | app/client.py:138-142 | Two pins without a configured name get different "PIN<n>" labels |
| Grid.PlacePin | app/client.py:138-171 | One loop iteration: pin index i's bulb, name label, picture and (iff controllable) toggle button go in its own cells, none of which was filled before |
| Grid.AddPin | app/client.py:137-171 | After iteration i, pins 0..i are all placed and every widget already placed stays where it was |
| Grid.CreateGridLayout | app/client.py:134-173 | Every pin gets its bulb, its name label (configured name, else "PIN" and its number) and its picture in its cells, a toggle button exactly when controllable, no cell is filled twice, and the button keys are the controllable pin indices |
| AppClient.ButtonIndicesExact | app/client.py:166-169 | Toggle buttons exist exactly for the pins in `pins_to_control`, keyed by pin - 1 |
| AppClient.Parse | app/client.py:61-78 | One received payload: one that does not decode changes nothing and raises; a SetPin or CheckPins changes nothing and completes |
| AppClient.Apply | app/client.py:64-78 | A decoded reply never removes `statuses`, enables only existing buttons, enables none when the slot raises, and enables one only when `statuses` exists |
| AppClient.ParseKeepsConsistent | app/client.py:61-78 | No reply enables a button that does not exist, or enables one while `statuses` is missing |
| AppClient.SuccessfulResponse | app/client.py:64-70 | A successful Response sets `statuses[pin - 1] := state` and re-enables button pin - 1; every other status and button is unchanged |
| AppClient.ResponseWithoutButton | app/client.py:66-70 | A successful Response for a pin with a status but no button stores the status, then raises KeyError at `toggle_buttons[pin - 1]` with no button enabled |
| AppClient.ResponseForPinZero | app/client.py:66-70 | A successful Response for pin 0 writes the last status (index -1), then raises KeyError |
| AppClient.FailedResponse | app/client.py:65 | A Response with success false changes nothing; the pin's button stays disabled |
| AppClient.SnapshotReplaces | app/client.py:71-78 | A CheckPinsResponse replaces `statuses` wholesale and enables every toggle button |
| AppClient.RequestsIgnored | app/client.py:64-71 | A SetPin or CheckPins delivered to the slot changes nothing |
| AppClient.ResponsesCommute | app/client.py:64-70 | Two successful Response replies for different pins leave the same statuses, buttons and outcome in either delivery order |
| AppClient.SnapshotWins | app/client.py:76 | A CheckPinsResponse delivered after any other reply overwrites what that reply wrote |
| AppClient.Client.constructor | app/client.py:44-59 | A new window has no `statuses`, toggle buttons exactly for the controllable pins, all disabled, every pin's widgets placed on its grid, and exactly one thread, carrying a CheckPins |
| AppClient.Client.CommunicateWithServer | app/client.py:90-96 | Adds exactly one new key to `threads`, mapped to the request |
| AppClient.Client.DeleteThread | app/client.py:98-99 | Removes exactly that key; an unknown id raises KeyError |
| AppClient.Client.RefreshPinStatuses | app/client.py:101-102 | Starts one thread carrying the CheckPins payload |
| AppClient.Client.ParseResponse | app/client.py:61-78 | The new statuses, enabled buttons and slot outcome are those `Parse` gives, and the consistency invariant is kept |
| AppClient.Client.EnableAllButtons | app/client.py:77-78 | The loop over the toggle buttons leaves exactly the existing buttons enabled |
| AppClient.Client.ConnectionProblem | app/client.py:80-88 | Ends normally and changes no client state |
| AppClient.Client.TogglePin | app/client.py:177-182 | Disables button pin - 1 and starts a thread sending `SetPin(pin, not statuses[pin - 1])`; `statuses` is unchanged; an index past the list raises IndexError with the button already disabled |
| AppClient.Client.Deliver | app/client.py:93-95 | The thread's signal goes to `parse_response` (as `Parse`) or `connection_problem` (no change), then the thread is removed |
| AppClient.StartSession | app/client.py:44-78 | After startup and the answer to its CheckPins, `statuses` is the received list, every button is enabled and no thread is left |
| AppClient.ToggleSession | app/client.py:177-182 | After startup, a click on a controllable pin confirmed by the peer flips exactly that pin's status and leaves every button enabled |
| Legacy.Parse | Client.py:50-56 | One received payload never creates or removes `statuses` and keeps its length; one that does not decode changes nothing and raises |
| Legacy.NeverLearnsStatuses | Client.py:50-55 | Without `statuses` no reply creates it; the slot raises AttributeError exactly on a Response whose success is true |
| Legacy.FailedResponseIgnored | Client.py:53-54 | A Response whose success is false changes nothing and completes |
| Legacy.SnapshotIgnored | Client.py:53 | A CheckPinsResponse changes nothing |
| Legacy.ResponseWritesSlotPin | Client.py:53-56 | A successful Response writes index pin, not pin - 1 |
| Legacy.LastPinOverflows | Client.py:55 | With 40 statuses, a successful Response for pin 40 raises IndexError and changes nothing |
| Legacy.ResponseMissesToggledSlot | Client.py:55-56 | For every pin from 1 to 39, a confirmed toggle leaves the slot `toggle_pin` reads unchanged |
| Legacy.Client.constructor | Client.py:35-48 | A new window has no `statuses` and one thread, carrying a CheckPins; its grid holds every pin's bulb, name label and picture where the placement puts them, and a toggle button exactly for the controllable pins (Client.py:88-135) |
| Legacy.Client.CommunicateWithServer | Client.py:62-67 | Appends the request to `threads`; nothing ever removes one, so its length counts the requests issued |
| Legacy.Client.RefreshPinStatuses | Client.py:69-74 | Appends a CheckPins; `statuses` is not assigned |
| Legacy.Client.ParseResponse | Client.py:50-56 | The new `statuses` and slot outcome are those `Legacy.Parse` gives; a missing `statuses` stays missing |
| Legacy.Client.ConnectionProblem | Client.py:58-60 | Ends normally and changes no client state |
| Legacy.Client.TogglePin | Client.py:139-142 | Appends `SetPin(pin, not statuses[pin - 1])` without touching `statuses`; AttributeError without `statuses`, IndexError past its end |
| Legacy.Client.Deliver | Client.py:64-65 | The signal goes to `parse_response` or `connection_problem`; the thread stays in `threads` |
| Legacy.ClickAfterStartup | Client.py:69-74 | Whatever signal answers the startup CheckPins (any reply or a connection failure), the first click raises AttributeError and sends nothing |

## Left out

- JSON text and UTF-8 (`json.dumps`, `json.loads`, `encode`, `decode`) are an opaque bijection between a payload and its bytes. Bytes that are not JSON, a JSON document that is not an object, and JSON values other than integers, booleans, strings and lists of booleans (floats, null, nested objects, mixed lists) are not modelled.
- Sockets: whether `socket.socket` creates a socket, and the results of `connect`, `sendall` and `recv`, are inputs to `Transport.Run`. Truncation by the 1024-byte receive buffer is not modelled.
- Qt threads and signals: each delivered signal is one sequential event, in any order. What Qt does after a slot raises is not modelled. The state is left as it was when the exception was raised.
- Presentation: pixmaps, the spinner, message boxes, column stretch, window geometry and `init_ui`. `bulbs` is kept only as the range its index must fall in. A button is kept only as its enabled flag.
- Module-level startup (`QApplication`, `exec_`), the `print` logging and the `__str__` methods.
- `id(thread)` is a parameter of `AppClient.Client` methods. CPython makes it unique among live objects.
- Unmodelled outcomes: `parse_response` may store a `state` that is not a boolean into `statuses`, or take a string `statuses` list from a CheckPinsResponse. The model's `seq<bool>` cannot hold either value. The slot's outcome is then `Unmodelled` and the state is left unchanged.
- `app/settings.py` is transcribed as the constants `Settings.PinsToControl` and `Settings.PinNames`, which the operator's client reads.
- The root-level `settings` module that Client.py imports is not part of this model. Its `pin_names` and `pins_to_control` are parameters of the `Legacy.Client` constructor and of `Legacy.ClickAfterStartup`. `HOST` and `PORT` are not modelled.
- AppClient.Client.TogglePin: requires the pin's button to be enabled, because Qt delivers `clicked` only from an enabled button.
- AppClient.Client.CommunicateWithServer: requires a thread id no live thread has, as `id()` guarantees.
- Legacy.Client.TogglePin: requires a pin that has a toggle button (a controllable pin from 1 to 40), because `clicked` comes only from a button.

## Findings

| source | as written | input that shows it | evidently intended | confidence | as-written member | corrected member |
|---|---|---|---|---|---|---|
| Client.py:69-74 | `refresh_pin_statuses` tests the None that `communicate_with_server` returns. `parse_response` ignores CheckPinsResponse. So `statuses` is never assigned. | The startup CheckPins is answered with any list, then any toggle button is clicked: the click raises AttributeError and no SetPin is sent. | Assign `statuses` when the CheckPinsResponse arrives, as app/client.py:71-78 does. | not executed; high | Legacy.ClickAfterStartup | AppClient.ToggleSession |
| Client.py:55-56 | A successful Response writes `statuses[response.pin]`, while `toggle_pin` reads `statuses[pin - 1]`. | 40 statuses and Response(18, s, true): slot 18 (pin 19) changes and slot 17 does not. Response(40, s, true) raises IndexError. In Client.py as written this stays hidden behind the first finding: `statuses` never exists, so line 55 raises AttributeError first. It shows once `statuses` is assigned. | Index `response.pin - 1`, as app/client.py:66-70 does. | not executed; high | Legacy.ResponseMissesToggledSlot | AppClient.SuccessfulResponse |
