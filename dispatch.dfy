/**
  The match rules of the dispatch loop of `EnOceanDongle.callback`: which
  registered devices have `value_changed` called for an event, with which
  arguments and in which order. The handlers themselves are external, so a
  dispatch is described by the ordered log of the calls it makes.
 */
module Dispatch {
  import opened Wrappers
  import opened Address
  import opened Classifier

  /** What the loop reads of a registered device: its `stype`, `dev_id` and `channel`. */
  datatype DeviceView = DeviceView(stype: string, devId: seq<Byte>, channel: int)

  /** One call `value_changed(value)` or `value_changed(value, extra)` on the device at `device` in the registry. */
  datatype Call = Call(device: nat, value: Option<int>, extra: Option<Byte>)

  /** Every event the classifier produces: a power event always carries a value. */
  predicate WellFormed(ev: Event)
  {
    ev.rxtype == Some(Power) ==> ev.value.Some?
  }

  /** The capability table: which kind of device an event type is for, and the extra condition. */
  predicate Fits(d: DeviceView, ev: Event)
    requires WellFormed(ev)
  {
    match ev.rxtype
    case None => false
    case Some(Cover) => d.stype == "cover"
    case Some(WallSwitch) => d.stype == "listener"
    case Some(Power) => d.stype == "powersensor" || (d.stype == "switch" && ev.value.value > 10)
    case Some(SwitchStatus) => d.stype == "switch" && d.channel == ev.channel
    case Some(DimmerStatus) => d.stype == "dimmer"
  }

  /** A device is a target when its combined address is the sender's and it fits the event. */
  predicate Targets(d: DeviceView, ev: Event, sender: nat)
    requires WellFormed(ev)
  {
    Combine(d.devId) == sender && Fits(d, ev)
  }

  /**
    The argument table: a listener also gets the frame's byte 1, a switch told
    of a power reading gets 1, everyone else the event's value.
   */
  function CallFor(d: DeviceView, i: nat, ev: Event, data1: Byte): Call
  {
    if ev.rxtype == Some(WallSwitch) then Call(i, ev.value, Some(data1))
    else if ev.rxtype == Some(Power) && d.stype == "switch" then Call(i, Some(1), None)
    else Call(i, ev.value, None)
  }

  /**
    The six `if` blocks of the loop body for the device at index `i`, in source
    order. At most one of them calls, and it calls exactly the targets.
   */
  function Handle(d: DeviceView, i: nat, ev: Event, sender: nat, data1: Byte): (r: seq<Call>)
    requires WellFormed(ev)
    ensures r == if Targets(d, ev, sender) then [CallFor(d, i, ev, data1)] else []
  {
    var own := sender == Combine(d.devId);
    (if ev.rxtype == Some(Cover) && d.stype == "cover" && own then [Call(i, ev.value, None)] else [])
    + (if ev.rxtype == Some(WallSwitch) && d.stype == "listener" && own then [Call(i, ev.value, Some(data1))] else [])
    + (if ev.rxtype == Some(Power) && d.stype == "powersensor" && own then [Call(i, ev.value, None)] else [])
    + (if ev.rxtype == Some(Power) && d.stype == "switch" && own && ev.value.value > 10 then [Call(i, Some(1), None)] else [])
    + (if ev.rxtype == Some(SwitchStatus) && d.stype == "switch" && ev.channel == d.channel && own
       then [Call(i, ev.value, None)] else [])
    + (if ev.rxtype == Some(DimmerStatus) && d.stype == "dimmer" && own then [Call(i, ev.value, None)] else [])
  }

  /**
    The calls of the whole loop, by the two tables: the devices in registration
    order, each target with the call of the argument table.
   */
  function Dispatched(devs: seq<DeviceView>, ev: Event, sender: nat, data1: Byte): seq<Call>
    requires WellFormed(ev)
  {
    if devs == [] then []
    else
      var n := |devs| - 1;
      Dispatched(devs[..n], ev, sender, data1)
        + (if Targets(devs[n], ev, sender) then [CallFor(devs[n], n, ev, data1)] else [])
  }

  /** Device `i` appears in the log. */
  predicate Called(log: seq<Call>, i: nat)
  {
    exists k :: 0 <= k < |log| && log[k].device == i
  }

  /** One step of the loop: the calls for the earlier devices, then the six `if` blocks for the last one. */
  lemma DispatchedStep(devs: seq<DeviceView>, ev: Event, sender: nat, data1: Byte)
    requires WellFormed(ev) && devs != []
    ensures var n := |devs| - 1;
      Dispatched(devs, ev, sender, data1) == Dispatched(devs[..n], ev, sender, data1) + Handle(devs[n], n, ev, sender, data1)
  {
  }

  /** Extending the handled prefix of the registry by one device appends that device's calls. */
  lemma DispatchedPrefix(devs: seq<DeviceView>, i: nat, ev: Event, sender: nat, data1: Byte)
    requires WellFormed(ev) && i < |devs|
    ensures Dispatched(devs[..i + 1], ev, sender, data1)
              == Dispatched(devs[..i], ev, sender, data1) + Handle(devs[i], i, ev, sender, data1)
  {
    assert devs[..i + 1][..i] == devs[..i];
  }

  /** Every call goes to a target, with the arguments of the argument table. */
  lemma {:induction false} DispatchedSound(devs: seq<DeviceView>, ev: Event, sender: nat, data1: Byte, k: nat)
    requires WellFormed(ev)
    requires k < |Dispatched(devs, ev, sender, data1)|
    ensures var c := Dispatched(devs, ev, sender, data1)[k];
      c.device < |devs| && Targets(devs[c.device], ev, sender) && c == CallFor(devs[c.device], c.device, ev, data1)
  {
    var n := |devs| - 1;
    var front := devs[..n];
    var before := Dispatched(front, ev, sender, data1);
    if k < |before| {
      DispatchedSound(front, ev, sender, data1, k);
      var d := before[k].device;
      assert d < n && devs[d] == front[d];
    }
  }

  /** Of two calls in the log, the earlier one goes to the device registered earlier. */
  lemma {:induction false} CallsIncrease(devs: seq<DeviceView>, ev: Event, sender: nat, data1: Byte, j: nat, k: nat)
    requires WellFormed(ev)
    requires j < k < |Dispatched(devs, ev, sender, data1)|
    ensures Dispatched(devs, ev, sender, data1)[j].device < Dispatched(devs, ev, sender, data1)[k].device
  {
    var n := |devs| - 1;
    var front := devs[..n];
    var before := Dispatched(front, ev, sender, data1);
    var log := Dispatched(devs, ev, sender, data1);
    assert log == before + (if Targets(devs[n], ev, sender) then [CallFor(devs[n], n, ev, data1)] else []);
    assert log[j] == before[j];
    if k < |before| {
      assert log[k] == before[k];
      CallsIncrease(front, ev, sender, data1, j, k);
    } else {
      DispatchedSound(front, ev, sender, data1, j);
      assert log[k] == CallFor(devs[n], n, ev, data1);
    }
  }

  /** Calls follow registration order, and no device is called twice. */
  lemma DispatchedOrdered(devs: seq<DeviceView>, ev: Event, sender: nat, data1: Byte)
    requires WellFormed(ev)
    ensures var log := Dispatched(devs, ev, sender, data1);
      forall j, k :: 0 <= j < k < |log| ==> log[j].device < log[k].device
  {
    var log := Dispatched(devs, ev, sender, data1);
    forall j, k | 0 <= j < k < |log| ensures log[j].device < log[k].device {
      CallsIncrease(devs, ev, sender, data1, j, k);
    }
  }

  /** A device that appears in the log is a target. */
  lemma CalledIsTarget(devs: seq<DeviceView>, ev: Event, sender: nat, data1: Byte, i: nat)
    requires WellFormed(ev) && i < |devs|
    requires Called(Dispatched(devs, ev, sender, data1), i)
    ensures Targets(devs[i], ev, sender)
  {
    var log := Dispatched(devs, ev, sender, data1);
    var k :| 0 <= k < |log| && log[k].device == i;
    DispatchedSound(devs, ev, sender, data1, k);
  }

  /** A target appears in the log. */
  lemma {:induction false} TargetIsCalled(devs: seq<DeviceView>, ev: Event, sender: nat, data1: Byte, i: nat)
    requires WellFormed(ev) && i < |devs|
    requires Targets(devs[i], ev, sender)
    ensures Called(Dispatched(devs, ev, sender, data1), i)
  {
    var n := |devs| - 1;
    var front := devs[..n];
    var before := Dispatched(front, ev, sender, data1);
    var log := Dispatched(devs, ev, sender, data1);
    if i < n {
      assert front[i] == devs[i];
      TargetIsCalled(front, ev, sender, data1, i);
      var k :| 0 <= k < |before| && before[k].device == i;
      assert log[k] == before[k];
    } else {
      assert log[|log| - 1].device == i;
    }
  }

  /** Every target is called: device i appears in the log exactly when it is a target. */
  lemma DispatchedComplete(devs: seq<DeviceView>, ev: Event, sender: nat, data1: Byte)
    requires WellFormed(ev)
    ensures var log := Dispatched(devs, ev, sender, data1);
      forall i :: 0 <= i < |devs| ==> (Called(log, i) <==> Targets(devs[i], ev, sender))
  {
    forall i | 0 <= i < |devs|
      ensures Called(Dispatched(devs, ev, sender, data1), i) <==> Targets(devs[i], ev, sender)
    {
      if Called(Dispatched(devs, ev, sender, data1), i) {
        CalledIsTarget(devs, ev, sender, data1, i);
      }
      if Targets(devs[i], ev, sender) {
        TargetIsCalled(devs, ev, sender, data1, i);
      }
    }
  }

  /** The call a target receives: the one of the argument table. */
  lemma CallOfTarget(devs: seq<DeviceView>, ev: Event, sender: nat, data1: Byte, i: nat)
    requires WellFormed(ev)
    requires i < |devs| && Targets(devs[i], ev, sender)
    ensures CallFor(devs[i], i, ev, data1) in Dispatched(devs, ev, sender, data1)
  {
    DispatchedComplete(devs, ev, sender, data1);
    var log := Dispatched(devs, ev, sender, data1);
    var k :| 0 <= k < |log| && log[k].device == i;
    DispatchedSound(devs, ev, sender, data1, k);
    assert log[k] in log;
  }

  /** A frame that classifies to no event type calls no device. */
  lemma {:induction false} NoEventNoCalls(devs: seq<DeviceView>, ev: Event, sender: nat, data1: Byte)
    requires ev.rxtype == None
    ensures Dispatched(devs, ev, sender, data1) == []
  {
    if devs != [] {
      NoEventNoCalls(devs[..|devs| - 1], ev, sender, data1);
    }
  }

  /** Only devices whose `dev_id` has the sender's bytes are called, when addresses have the sender's length. */
  lemma CalledDevicesHaveSenderAddress(devs: seq<DeviceView>, ev: Event, senderBytes: seq<Byte>, data1: Byte, i: nat)
    requires WellFormed(ev)
    requires i < |devs| && |devs[i].devId| == |senderBytes|
    requires Called(Dispatched(devs, ev, Combine(senderBytes), data1), i)
    ensures devs[i].devId == senderBytes
  {
    var sender := Combine(senderBytes);
    var log := Dispatched(devs, ev, sender, data1);
    var k :| 0 <= k < |log| && log[k].device == i;
    DispatchedSound(devs, ev, sender, data1, k);
    CombineInjective(devs[i].devId, senderBytes);
  }

  /**
    Power fan-out: at the sender's address a power sensor gets the reading, and
    a switch gets `value_changed(1)` exactly when the reading exceeds 10.
   */
  lemma PowerFanOut(devs: seq<DeviceView>, ev: Event, sender: nat, data1: Byte, i: nat)
    requires ev.rxtype == Some(Power) && ev.value.Some?
    requires i < |devs| && Combine(devs[i].devId) == sender
    ensures devs[i].stype == "powersensor" ==>
              Call(i, ev.value, None) in Dispatched(devs, ev, sender, data1)
    ensures devs[i].stype == "switch" ==>
              (Called(Dispatched(devs, ev, sender, data1), i) <==> ev.value.value > 10)
    ensures devs[i].stype == "switch" && ev.value.value > 10 ==>
              Call(i, Some(1), None) in Dispatched(devs, ev, sender, data1)
  {
    if devs[i].stype == "powersensor" {
      CallOfTarget(devs, ev, sender, data1, i);
    } else if devs[i].stype == "switch" {
      DispatchedComplete(devs, ev, sender, data1);
      assert Targets(devs[i], ev, sender) <==> ev.value.value > 10;
      if ev.value.value > 10 {
        CallOfTarget(devs, ev, sender, data1, i);
      }
    }
  }

  /** A switch-status event reaches a switch at the sender's address exactly when its channel is the event's. */
  lemma SwitchStatusNeedsChannel(devs: seq<DeviceView>, ev: Event, sender: nat, data1: Byte, i: nat)
    requires ev.rxtype == Some(SwitchStatus)
    requires i < |devs| && Combine(devs[i].devId) == sender && devs[i].stype == "switch"
    ensures Called(Dispatched(devs, ev, sender, data1), i) <==> devs[i].channel == ev.channel
  {
    DispatchedComplete(devs, ev, sender, data1);
  }

  /** A wall-switch event gives each listener at the sender's address the frame's byte 1 as its second argument. */
  lemma WallSwitchPassesDataByte(devs: seq<DeviceView>, ev: Event, sender: nat, data1: Byte, i: nat)
    requires ev.rxtype == Some(WallSwitch)
    requires i < |devs| && Combine(devs[i].devId) == sender && devs[i].stype == "listener"
    ensures Call(i, ev.value, Some(data1)) in Dispatched(devs, ev, sender, data1)
  {
    CallOfTarget(devs, ev, sender, data1, i);
  }

  /** Registration does not deduplicate: two registered copies of one target are both called. */
  lemma DuplicatesBothCalled(devs: seq<DeviceView>, ev: Event, sender: nat, data1: Byte, i: nat, j: nat)
    requires WellFormed(ev)
    requires i < j < |devs| && devs[i] == devs[j] && Targets(devs[i], ev, sender)
    ensures Called(Dispatched(devs, ev, sender, data1), i) && Called(Dispatched(devs, ev, sender, data1), j)
    ensures |Dispatched(devs, ev, sender, data1)| >= 2
  {
    DispatchedComplete(devs, ev, sender, data1);
    var log := Dispatched(devs, ev, sender, data1);
    var a :| 0 <= a < |log| && log[a].device == i;
    var b :| 0 <= b < |log| && log[b].device == j;
    assert a != b;
  }

  /** A reading above 10 from 01:02:03:04 reaches a power sensor and then a switch registered at that address. */
  lemma PowerReadingExample(reading: int)
    requires reading > 10
    ensures var id: seq<Byte> := [0x01, 0x02, 0x03, 0x04];
      Dispatched([DeviceView("powersensor", id, 0), DeviceView("switch", id, 0)],
                 Event(Some(Power), Some(reading), 0), 0x01020304, 0x00)
      == [Call(0, Some(reading), None), Call(1, Some(1), None)]
  {
    var id: seq<Byte> := [0x01, 0x02, 0x03, 0x04];
    var vs := [DeviceView("powersensor", id, 0), DeviceView("switch", id, 0)];
    var ev := Event(Some(Power), Some(reading), 0);
    assert Combine(id) == 0x01020304;
    assert Targets(vs[0], ev, 0x01020304) && Targets(vs[1], ev, 0x01020304);
    assert vs[..1][..0] == [];
    assert Dispatched(vs[..1], ev, 0x01020304, 0x00) == [CallFor(vs[0], 0, ev, 0x00)];
  }
}
