# EnOcean dongle: decode and dispatch

A Dafny model of the EnOcean component of Home Assistant
(`homeassistant/components/enocean/__init__.py`). The component owns one
EnOcean USB dongle. The dongle's communicator calls `EnOceanDongle.callback`
once for each packet it receives. For a radio telegram, the callback turns the
organisation code (`rorg`) and the data bytes into an event triple
`(rxtype, value, channel)`. It then walks the registered devices in
registration order and calls `value_changed` on each device whose `stype`
fits the event, whose combined `dev_id` equals the telegram's `sender_int`,
and whose extra condition holds. For a successful four-byte response packet,
the callback stores the payload as the communicator's `base_id`.

Files:

- `wrappers.dfy`: `Option`, for Python's `None`, and `Result`, for the exception a short frame raises.
- `address.dfy` (module `Address`): `_combine_hex` as the big-endian value `Combine`, with the loop `CombineHex`. It includes the encoding `Bytes`, which inverts `Combine`, and the facts built on that round trip.
- `classifier.dfy` (module `Classifier`): the `if/elif` classification as the function `Classify`, proved equal to the ordered rule table (`Rules`, `FirstMatch`) by `ClassifyIsRuleTable`.
- `dispatch.dfy` (module `Dispatch`): the match rules of the dispatch loop. The capability table `Fits` and the argument table `CallFor` say who is called and with what; `Dispatched` applies them to the whole registry in order, and `Handle` (the six `if` blocks for one device) is proved to agree with them. The lemmas prove that exactly the targets are called, once each, in registration order.
- `dongle.dfy` (module `EnOcean`): the classes. `Dongle` holds the registry as a `seq<Device>` field, which `RegisterDevice` appends to. `Dongle.Dispatch` is the loop and `Dongle.Callback` is the whole callback. `Device` registers itself and snapshots the dongle's `base_id`. `Communicator` stands in for the serial communicator: its `base_id` and the packets sent.

`value_changed` belongs to the concrete devices, so the model does not call it. A dispatch returns the ordered log of the calls it would make: `Call(device index, value, extra argument)`.

Constants from the EnOcean serial protocol and radio profiles that the code refers to by name:
- `RORG.VLD` is 0xD2.
- `PACKET.RESPONSE` is 0x02.
- `RETURN_CODE.OK` is 0x00.

Behaviour of the code worth knowing:

- `_combine_hex` accepts a list of any length; it does not reject a three-byte address. `Combine([1, 2, 3])` is 0x010203 (`Address.CombineExample`).
- The switch-status branch (lines 95-101) assigns `value` only when byte 3 is 0xe4 or 0x80 and never resets it. For a VLD telegram whose other bytes also match the switch-status rule, the event therefore carries the tentative cover value POS.raw_value, not `None` (`Classifier.SwitchStatusValue`). A matching rule replaces the tentative type and channel, but not always its value.
- A frame with fewer than seven data bytes raises at `data[6]` (line 86) before any device is called. It is modelled as `Failure(IndexError)`, not excluded by a precondition.

## Model

| member | source | states |
|---|---|---|
| Address.CombineHex | homeassistant/components/enocean/__init__.py:61-66 | the loop over the reversed list yields the big-endian value of the bytes, below 256^n; its invariant shows each shifted byte lands above the accumulator, so `\|=` adds |
| Address.CombinePrepend | homeassistant/components/enocean/__init__.py:61-66 | `[b] + rest` combines to `b << 8*\|rest\|` plus the value of `rest` |
| Address.CombineBound | homeassistant/components/enocean/__init__.py:61-66 | n bytes combine to a value below 256^n |
| Address.CombineAppend | homeassistant/components/enocean/__init__.py:61-66 | appending a byte shifts the value one byte up and adds the byte |
| Address.BytesOfCombine | homeassistant/components/enocean/__init__.py:61-66 | encoding the combined value in as many bytes gives the list back |
| Address.CombineOfBytes | homeassistant/components/enocean/__init__.py:61-66 | combining the k-byte encoding of a value below 256^k gives the value back |
| Address.CombineInjective | homeassistant/components/enocean/__init__.py:107 | for addresses of one length, combined integers are equal exactly when the byte lists are, so comparing `sender_int` with the combined `dev_id` compares addresses |
| Address.CombineExample | homeassistant/components/enocean/__init__.py:61-66 | [1,2,3,4] combines to 0x01020304 and [1,2,3] to 0x010203 |
| Classifier.ChannelOf | homeassistant/components/enocean/__init__.py:97 | the switch channel `data[2] & 0x1F` is in 0..31 |
| Classifier.Classify | homeassistant/components/enocean/__init__.py:76-104 | fails exactly when there are fewer than 7 data bytes; every channel is in 0..31 and is 0 unless the event is a switch status; a power event carries a value in 0..65535; no event type means no value |
| Classifier.FirstMatchPicksFirst | homeassistant/components/enocean/__init__.py:86-104 | the first rule in table order that fires decides the event; later rules are not consulted |
| Classifier.FirstMatchNoneFires | homeassistant/components/enocean/__init__.py:86-104 | if no rule fires, the tentative event stands unchanged |
| Classifier.ClassifyIsRuleTable | homeassistant/components/enocean/__init__.py:78-104 | the `if/elif` chain equals the ordered rule table (wallswitch 0x30, wallswitch 0x20, power, switch status, dimmer) run over the tentative VLD cover event |
| Classifier.FiringRuleOverrides | homeassistant/components/enocean/__init__.py:81-104 | when a rule fires, the event type and channel are that rule's whatever `rorg` and POS.raw_value are, and so is the value when the rule assigns one |
| Classifier.NoRuleKeepsTentative | homeassistant/components/enocean/__init__.py:78-85 | with no rule firing, a VLD telegram gives a cover event carrying POS.raw_value on channel 0 and any other telegram gives no event |
| Classifier.CoverOnlyFromVld | homeassistant/components/enocean/__init__.py:81-104 | a cover event comes only from a VLD telegram on which no rule fires, and carries POS.raw_value |
| Classifier.SwitchStatusValue | homeassistant/components/enocean/__init__.py:95-101 | a switch-status event has `data[2] & 0x60 == 0x60` and channel `data[2] & 0x1F`; its value is 1 for byte 3 = 0xe4, 0 for 0x80, otherwise the tentative value (POS.raw_value for VLD, else None) |
| Classifier.ClassifyExamples | homeassistant/components/enocean/__init__.py:81-104 | cover 42 from a VLD telegram; wallswitch 1 overriding it when byte 6 is 0x30; switch status 1 on channel 5 for byte 2 = 0x65; power 300 from bytes 0x01, 0x2c; a 6-byte frame fails |
| Dispatch.Handle | homeassistant/components/enocean/__init__.py:106-125 | the six `if` blocks for one device call at most once, exactly when the device is a target (address and capability table), with the arguments of the argument table |
| Dispatch.DispatchedStep | homeassistant/components/enocean/__init__.py:105-125 | running the six `if` blocks on the last device after the earlier ones gives exactly the table-defined calls of the whole registry |
| Dispatch.DispatchedPrefix | homeassistant/components/enocean/__init__.py:105-125 | handling one more device of the registry appends exactly that device's six-`if` calls to the table-defined calls so far |
| Dispatch.DispatchedSound | homeassistant/components/enocean/__init__.py:105-125 | every call goes to a registered device whose combined `dev_id` is the sender and that fits the event, with the arguments of the argument table |
| Dispatch.DispatchedOrdered | homeassistant/components/enocean/__init__.py:105-125 | calls follow registration order and no device index is called twice |
| Dispatch.CallsIncrease | homeassistant/components/enocean/__init__.py:105-125 | of two calls in the log, the earlier one goes to the device registered earlier |
| Dispatch.CalledIsTarget | homeassistant/components/enocean/__init__.py:105-125 | a device that is called is a target |
| Dispatch.TargetIsCalled | homeassistant/components/enocean/__init__.py:105-125 | a target is called |
| Dispatch.DispatchedComplete | homeassistant/components/enocean/__init__.py:105-125 | registered device i is called if and only if it is a target |
| Dispatch.CallOfTarget | homeassistant/components/enocean/__init__.py:106-125 | a target receives exactly the call of the argument table |
| Dispatch.NoEventNoCalls | homeassistant/components/enocean/__init__.py:105-125 | if no event type is set, no device is called |
| Dispatch.CalledDevicesHaveSenderAddress | homeassistant/components/enocean/__init__.py:107-124 | a called device whose address has the sender's length has exactly the sender's address bytes |
| Dispatch.PowerFanOut | homeassistant/components/enocean/__init__.py:112-118 | at the sender's address, a power sensor gets the reading; a switch gets `value_changed(1)` and is called exactly when the reading exceeds 10 |
| Dispatch.SwitchStatusNeedsChannel | homeassistant/components/enocean/__init__.py:119-122 | a switch at the sender's address gets a switch-status event exactly when its channel equals the event's |
| Dispatch.WallSwitchPassesDataByte | homeassistant/components/enocean/__init__.py:109-111 | a listener at the sender's address gets the wallswitch value and the frame's byte 1 |
| Dispatch.DuplicatesBothCalled | homeassistant/components/enocean/__init__.py:105-125 | two identical registered targets are both called; there is no deduplication |
| Dispatch.PowerReadingExample | homeassistant/components/enocean/__init__.py:112-118 | a reading above 10 reaches a power sensor with the reading, then a switch at the same address with 1 |
| EnOcean.RadioCallsOutcome | homeassistant/components/enocean/__init__.py:76-125 | a radio telegram fails with IndexError exactly when it has fewer than 7 data bytes; a telegram that classifies to no event calls nobody |
| EnOcean.PowerTelegramExample | homeassistant/components/enocean/__init__.py:86-118 | a power telegram with reading above 10 from 01:02:03:04 produces the calls (sensor, reading) then (switch, 1) |
| EnOcean.Communicator.Send | homeassistant/components/enocean/__init__.py:58 | the communicator's outbound log gains exactly the packet sent |
| EnOcean.Dongle.constructor | homeassistant/components/enocean/__init__.py:43-50 | a new dongle has an empty registry and captures the communicator's `base_id` |
| EnOcean.Dongle.RegisterDevice | homeassistant/components/enocean/__init__.py:52-54 | the registry becomes the old registry with the device appended; existing entries and their order are unchanged |
| EnOcean.Dongle.SendCommand | homeassistant/components/enocean/__init__.py:56-58 | the packet is appended to the communicator's outbound log |
| EnOcean.Dongle.HandleDevice | homeassistant/components/enocean/__init__.py:106-125 | the six `if` blocks for one registered device, with `_combine_hex` per matching guard, return exactly the calls `Handle` gives for that device's view |
| EnOcean.Dongle.Dispatch | homeassistant/components/enocean/__init__.py:105-125 | the loop over the registry, one device at a time in order, returns exactly `Dispatched` of the registry |
| EnOcean.Dongle.Callback | homeassistant/components/enocean/__init__.py:68-134 | a radio telegram yields the IndexError or the dispatch of its event and leaves `base_id` alone. A non-radio packet sets the communicator's `base_id` to `response_data` exactly when it is a RESPONSE with return code OK and 4 bytes, else changes nothing. The dongle's own `base_id`, the registry and every device stay as they were |
| EnOcean.Device.constructor | homeassistant/components/enocean/__init__.py:140-145 | a new device is appended to its dongle's registry, has `stype` "" and `sensorid` [0,0,0,0], and snapshots the dongle's `base_id` |
| EnOcean.Device.SendCommand | homeassistant/components/enocean/__init__.py:148-152 | a packet of the given type, data and optional data is appended to the communicator's outbound log |
| EnOcean.Device.SendPacket | homeassistant/components/enocean/__init__.py:154-156 | the packet is appended to the communicator's outbound log |
| EnOcean.PowerFanOutExample | homeassistant/components/enocean/__init__.py:105-118 | a power sensor and a switch, configured after registration at one address, both receive a reading above 10 through the callback, the switch with 1 |
| EnOcean.BaseIdSnapshotExample | homeassistant/components/enocean/__init__.py:131-134 | a successful four-byte response changes the communicator's `base_id` but not the dongle's or a registered device's snapshot |

## Left out

- `setup` and `CONFIG_SCHEMA` (lines 22-37): configuration validation by the host framework. The process-wide `ENOCEAN_DONGLE` (line 20) is replaced by a dongle reference handed to each `Device`.
- Opening the serial port and starting the communicator's receive thread (lines 45-48): serial I/O and a thread. The communicator is built beforehand and handed to the dongle.
- Concurrency: registration that races with a dispatch in flight, and `value_changed` handlers that call `send_command` back during dispatch. The model runs one operation at a time.
- `select_eep`/`parse_eep` (lines 82-83): the external profile decoder. POS.raw_value is an input field of a radio packet (`posRaw`). A decoder failure and a missing field are not modelled.
- The behaviour of concrete devices' `value_changed`: external. A dispatch returns the ordered log of the calls instead.
- Logging (line 77).
- Address.CombineHex: the elements of a `dev_id` are bytes (0..255). A Python list holding a larger integer would overlap under `|=`, and that case is not modelled.
- EnOcean.Device.constructor: the base class never sets `dev_id` or `channel`; concrete devices set them after registration. The model starts them at `[]` and 0. A device with the default `stype` "" is never matched, so those starting values are never read.
- EnOcean.Dongle.Callback: an argument that is neither a radio packet nor a packet is ignored by the code and has no counterpart in the model. Radio packets carry only the fields the callback reads. Outbound packets are `Command(type, data, optional)`.
- EnOcean.Packet: a radio packet's organisation code, sender address and data bytes are independent fields. In the radio protocol the organisation code is the first data byte and the sender comes from the bytes near the end of the data, and the model does not tie the fields together: its example frames start with their organisation code, but their data bytes do not repeat the sender address. Every general lemma holds for all field values, so it covers the frames that can occur.
