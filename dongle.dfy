/**
  The objects of the component: the dongle that owns the communicator and the
  device registry, the devices that register themselves with it, and the
  callback that classifies each incoming packet and notifies the devices.
 */
module EnOcean {
  import opened Wrappers
  import opened Address
  import opened Classifier
  import opened Dispatch

  /** PACKET.RESPONSE: the packet type of a response to a command. */
  const RESPONSE: nat := 0x02

  /** RETURN_CODE.OK: the return code of a successful command. */
  const RETURN_OK: nat := 0x00

  /**
    A packet handed to the callback: a radio telegram (organisation code, sender
    address as an integer, data bytes, and the POS.raw_value its VLD profile
    decodes to), or any other packet, of which the callback reads the type, the
    return code and the response data.
   */
  datatype Packet =
    | Radio(rorg: Byte, senderInt: nat, data: seq<Byte>, posRaw: int)
    | NonRadio(packetType: nat, response: nat, responseData: seq<Byte>)

  /** An outbound packet: its type, data and optional data. */
  datatype Command = Command(packetType: nat, data: seq<Byte>, optional: seq<Byte>)

  /** A successful response carrying a four-byte payload: the communicator's new base id. */
  predicate CarriesBaseId(packet: Packet)
  {
    packet.NonRadio? && packet.packetType == RESPONSE && packet.response == RETURN_OK
    && |packet.responseData| == 4
  }

  /** The calls one radio telegram causes: an IndexError for a short frame, else the dispatch of its event. */
  function RadioCalls(devs: seq<DeviceView>, rorg: Byte, senderInt: nat, data: seq<Byte>, posRaw: int): (r: Result<seq<Call>, Fault>)
  {
    match Classify(rorg, posRaw, data)
    case Failure(e) => Failure(e)
    case Success(ev) => Success(Dispatched(devs, ev, senderInt, data[1]))
  }

  /** A telegram with fewer than seven data bytes raises before any device is called; no event means no call. */
  lemma RadioCallsOutcome(devs: seq<DeviceView>, rorg: Byte, senderInt: nat, data: seq<Byte>, posRaw: int)
    ensures |data| < 7 <==> RadioCalls(devs, rorg, senderInt, data, posRaw) == Failure(IndexError)
    ensures |data| >= 7 && Classify(rorg, posRaw, data).value.rxtype == None ==>
              RadioCalls(devs, rorg, senderInt, data, posRaw) == Success([])
  {
    if |data| >= 7 && Classify(rorg, posRaw, data).value.rxtype == None {
      NoEventNoCalls(devs, Classify(rorg, posRaw, data).value, senderInt, data[1]);
    }
  }

  /** A power telegram reading above 10 from 01:02:03:04 reaches a power sensor and a switch registered there. */
  lemma PowerTelegramExample(reading: Byte)
    requires reading > 10
    ensures var id: seq<Byte> := [0x01, 0x02, 0x03, 0x04];
      RadioCalls([DeviceView("powersensor", id, 0), DeviceView("switch", id, 0)],
                 0xA5, 0x01020304, [0xA5, 0x00, 0x00, reading, 0x0c, 0x00, 0x00], 0)
      == Success([Call(0, Some(reading as int), None), Call(1, Some(1), None)])
  {
    var data: seq<Byte> := [0xA5, 0x00, 0x00, reading, 0x0c, 0x00, 0x00];
    assert Classify(0xA5, 0, data) == Success(Event(Some(Power), Some(reading as int), 0));
    PowerReadingExample(reading);
  }

  /**
    The serial communicator, an external collaborator: only its `base_id`
    property and the packets sent through it are modelled.
   */
  class Communicator {
    var baseId: seq<Byte>
    var sent: seq<Command>

    constructor (baseId: seq<Byte>)
      ensures this.baseId == baseId && sent == []
    {
      this.baseId := baseId;
      sent := [];
    }

    method Send(command: Command)
      modifies this`sent
      ensures sent == old(sent) + [command]
    {
      sent := sent + [command];
    }
  }

  /** The registry as the dispatch loop reads it. */
  function Views(devs: seq<Device>): (vs: seq<DeviceView>)
    reads set d | d in devs
    ensures |vs| == |devs|
    ensures forall i :: 0 <= i < |devs| ==> vs[i] == devs[i].View()
  {
    if devs == [] then [] else Views(devs[..|devs| - 1]) + [devs[|devs| - 1].View()]
  }

  /** The dongle: owner of the communicator and of the device registry. */
  class Dongle {
    const communicator: Communicator
    var devices: seq<Device>
    var baseId: seq<Byte>

    /** Opening the serial port is left out: the communicator is handed in, and its base id captured. */
    constructor (communicator: Communicator)
      ensures this.communicator == communicator
      ensures devices == [] && baseId == communicator.baseId
    {
      this.communicator := communicator;
      devices := [];
      baseId := communicator.baseId;
    }

    /** Appends a device; the devices already registered keep their places. */
    method RegisterDevice(dev: Device)
      modifies this`devices
      ensures devices == old(devices) + [dev]
    {
      devices := devices + [dev];
    }

    /** Hands a packet to the communicator. */
    method SendCommand(command: Command)
      modifies communicator`sent
      ensures communicator.sent == old(communicator.sent) + [command]
    {
      communicator.Send(command);
    }

    /** The six `if` blocks of the loop body for the device at index `i`. */
    method HandleDevice(device: Device, i: nat, ev: Event, sender: nat, data1: Byte) returns (calls: seq<Call>)
      requires WellFormed(ev)
      ensures calls == Handle(device.View(), i, ev, sender, data1)
    {
      calls := [];
      if ev.rxtype == Some(Cover) && device.stype == "cover" {
        var id := CombineHex(device.devId);
        if sender == id {
          calls := calls + [Call(i, ev.value, None)];
        }
      }
      if ev.rxtype == Some(WallSwitch) && device.stype == "listener" {
        var id := CombineHex(device.devId);
        if sender == id {
          calls := calls + [Call(i, ev.value, Some(data1))];
        }
      }
      if ev.rxtype == Some(Power) && device.stype == "powersensor" {
        var id := CombineHex(device.devId);
        if sender == id {
          calls := calls + [Call(i, ev.value, None)];
        }
      }
      if ev.rxtype == Some(Power) && device.stype == "switch" {
        var id := CombineHex(device.devId);
        if sender == id && ev.value.value > 10 {
          calls := calls + [Call(i, Some(1), None)];
        }
      }
      if ev.rxtype == Some(SwitchStatus) && device.stype == "switch" && ev.channel == device.channel {
        var id := CombineHex(device.devId);
        if sender == id {
          calls := calls + [Call(i, ev.value, None)];
        }
      }
      if ev.rxtype == Some(DimmerStatus) && device.stype == "dimmer" {
        var id := CombineHex(device.devId);
        if sender == id {
          calls := calls + [Call(i, ev.value, None)];
        }
      }
    }

    /** The dispatch loop: every registered device, in order, through the six match rules. */
    method Dispatch(ev: Event, sender: nat, data1: Byte) returns (log: seq<Call>)
      requires WellFormed(ev)
      ensures log == Dispatched(Views(devices), ev, sender, data1)
    {
      ghost var vs := Views(devices);
      log := [];
      var i := 0;
      while i < |devices|
        invariant 0 <= i <= |devices|
        invariant log == Dispatched(vs[..i], ev, sender, data1)
      {
        var calls := HandleDevice(devices[i], i, ev, sender, data1);
        assert vs[i] == devices[i].View();
        DispatchedPrefix(vs, i, ev, sender, data1);
        log := log + calls;
        i := i + 1;
      }
      assert vs[..i] == vs;
    }

    /**
      The callback for one incoming packet. A radio telegram is classified and
      dispatched; a short one raises IndexError before any device is called. A
      successful four-byte response sets the communicator's base id; the
      dongle's own `baseId`, captured at construction, stays as it was.
     */
    method Callback(packet: Packet) returns (outcome: Result<seq<Call>, Fault>)
      modifies communicator`baseId
      ensures packet.Radio? ==>
                outcome == RadioCalls(Views(devices), packet.rorg, packet.senderInt, packet.data, packet.posRaw)
                && communicator.baseId == old(communicator.baseId)
      ensures packet.NonRadio? ==>
                outcome == Success([])
                && communicator.baseId == if CarriesBaseId(packet) then packet.responseData else old(communicator.baseId)
      ensures baseId == old(baseId) && devices == old(devices) && Views(devices) == old(Views(devices))
    {
      match packet
      case Radio(rorg, senderInt, data, posRaw) =>
        var classified := Classify(rorg, posRaw, data);
        if classified.Failure? {
          return Failure(classified.error);
        }
        var log := Dispatch(classified.value, senderInt, data[1]);
        outcome := Success(log);
      case NonRadio(packetType, response, responseData) =>
        if packetType == RESPONSE && response == RETURN_OK && |responseData| == 4 {
          communicator.baseId := responseData;
        }
        outcome := Success([]);
    }
  }

  /**
    The common part of every device: it registers itself with the dongle it is
    given and snapshots the dongle's base id. Concrete devices then set their
    `stype`, `devId` and `channel`, which the registry sees, since it holds the
    device itself.
   */
  class Device {
    const dongle: Dongle
    var stype: string
    var devId: seq<Byte>
    var channel: int
    var sensorId: seq<Byte>
    var baseId: seq<Byte>

    /** What the dispatch loop reads of this device. */
    function View(): DeviceView
      reads this
    {
      DeviceView(stype, devId, channel)
    }

    constructor (dongle: Dongle)
      modifies dongle`devices
      ensures this.dongle == dongle
      ensures dongle.devices == old(dongle.devices) + [this]
      ensures stype == "" && sensorId == [0x00, 0x00, 0x00, 0x00] && baseId == dongle.baseId
      ensures devId == [] && channel == 0
    {
      this.dongle := dongle;
      stype := "";
      devId := [];
      channel := 0;
      sensorId := [0x00, 0x00, 0x00, 0x00];
      baseId := dongle.baseId;
      new;
      dongle.RegisterDevice(this);
    }

    /** Builds a packet of the given type and sends it through the dongle. */
    method SendCommand(data: seq<Byte>, optional: seq<Byte>, packetType: nat)
      modifies dongle.communicator`sent
      ensures dongle.communicator.sent == old(dongle.communicator.sent) + [Command(packetType, data, optional)]
    {
      dongle.SendCommand(Command(packetType, data, optional));
    }

    /** Sends a ready-made packet through the dongle. */
    method SendPacket(packet: Command)
      modifies dongle.communicator`sent
      ensures dongle.communicator.sent == old(dongle.communicator.sent) + [packet]
    {
      dongle.SendCommand(packet);
    }
  }

  /**
    A power sensor and a switch registered at one address and configured after
    registration: a reading above 10 reaches both, the switch with 1.
   */
  method PowerFanOutExample(reading: Byte) returns (outcome: Result<seq<Call>, Fault>)
    requires reading > 10
    ensures outcome == Success([Call(0, Some(reading as int), None), Call(1, Some(1), None)])
  {
    var communicator := new Communicator([0xff, 0x80, 0x00, 0x00]);
    var dongle := new Dongle(communicator);
    var sensor := new Device(dongle);
    sensor.stype, sensor.devId := "powersensor", [0x01, 0x02, 0x03, 0x04];
    var relay := new Device(dongle);
    relay.stype, relay.devId := "switch", [0x01, 0x02, 0x03, 0x04];
    assert dongle.devices == [sensor, relay];
    ghost var vs := Views(dongle.devices);
    ghost var id: seq<Byte> := [0x01, 0x02, 0x03, 0x04];
    assert vs == [DeviceView("powersensor", id, 0), DeviceView("switch", id, 0)];
    var data: seq<Byte> := [0xA5, 0x00, 0x00, reading, 0x0c, 0x00, 0x00];
    outcome := dongle.Callback(Radio(0xA5, 0x01020304, data, 0));
    assert outcome == RadioCalls(vs, 0xA5, 0x01020304, data, 0);
    PowerTelegramExample(reading);
  }

  /**
    A successful four-byte response changes the communicator's base id only:
    the dongle and a registered device keep the snapshot they took.
   */
  method BaseIdSnapshotExample() returns (communicatorBase: seq<Byte>, dongleBase: seq<Byte>, deviceBase: seq<Byte>)
    ensures communicatorBase == [0xff, 0x81, 0x00, 0x00]
    ensures dongleBase == deviceBase == [0xff, 0x80, 0x00, 0x00]
  {
    var communicator := new Communicator([0xff, 0x80, 0x00, 0x00]);
    var dongle := new Dongle(communicator);
    var device := new Device(dongle);
    var outcome := dongle.Callback(NonRadio(RESPONSE, RETURN_OK, [0xff, 0x81, 0x00, 0x00]));
    communicatorBase, dongleBase, deviceBase := communicator.baseId, dongle.baseId, device.baseId;
  }
}
