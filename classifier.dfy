/**
  Frame classification: the first half of `EnOceanDongle.callback`, which
  turns a radio packet's organisation code (`rorg`) and `data` bytes into the
  triple (rxtype, value, channel) that the dispatch loop then routes.
 */
module Classifier {
  import opened Wrappers
  import opened Address

  /** RORG.VLD, the organisation code of variable-length telegrams. */
  const VLD: Byte := 0xD2

  /** The event types the callback recognises. */
  datatype RxType = Cover | WallSwitch | Power | SwitchStatus | DimmerStatus

  /**
    The callback's local variables after classification. `rxtype == None` means
    no device is notified; `value` is `None` where the callback leaves it unset.
   */
  datatype Event = Event(rxtype: Option<RxType>, value: Option<int>, channel: int)

  /** Exceptions that abort the handling of one packet. */
  datatype Fault = IndexError

  /** The event before the `if/elif` chain: a tentative cover event for a VLD telegram. */
  function Tentative(rorg: Byte, posRaw: int): Event
  {
    if rorg == VLD then Event(Some(Cover), Some(posRaw), 0) else Event(None, None, 0)
  }

  /** Bits 5 and 6 of a byte are both set: `b & 0x60 == 0x60`. */
  predicate SwitchBits(b: Byte)
  {
    (b as bv8) & 0x60 == 0x60
  }

  /** The channel number of a switch telegram: `b & 0x1F`. */
  function ChannelOf(b: Byte): (c: int)
    ensures 0 <= c < 32
  {
    ((b as bv8) & 0x1F) as int
  }

  /**
    Classification as the callback writes it. `posRaw` stands for the profile
    field POS.raw_value that the external decoder yields for a VLD telegram. A
    frame with fewer than seven data bytes raises at the first test of `data[6]`.
    The switch-status branch does not reset `value`, so when byte 3 is neither
    0xe4 nor 0x80 the tentative value stays.
   */
  function Classify(rorg: Byte, posRaw: int, data: seq<Byte>): (r: Result<Event, Fault>)
    ensures r.Failure? <==> |data| < 7
    ensures r.Success? ==> 0 <= r.value.channel < 32
    ensures r.Success? && r.value.rxtype != Some(SwitchStatus) ==> r.value.channel == 0
    ensures r.Success? && r.value.rxtype == Some(Power) ==>
              r.value.value.Some? && 0 <= r.value.value.value <= 65535
    ensures r.Success? && r.value.rxtype == None ==> r.value.value == None
  {
    if |data| < 7 then Failure(IndexError)
    else
      var prior := Tentative(rorg, posRaw);
      if data[6] == 0x30 then Success(Event(Some(WallSwitch), Some(1), 0))
      else if data[6] == 0x20 then Success(Event(Some(WallSwitch), Some(0), 0))
      else if data[4] == 0x0c then Success(Event(Some(Power), Some(data[3] as int + data[2] as int * 256), 0))
      else if SwitchBits(data[2]) then
        var value := if data[3] == 0xe4 then Some(1) else if data[3] == 0x80 then Some(0) else prior.value;
        Success(Event(Some(SwitchStatus), value, ChannelOf(data[2])))
      else if data[0] == 0xa5 && data[1] == 0x02 then Success(Event(Some(DimmerStatus), Some(data[2] as int), 0))
      else Success(prior)
  }

  // The second stage as an ordered rule table; `ClassifyIsRuleTable` proves the chain above equal to it.

  /** The five rules of the `if/elif` chain. */
  datatype Rule = WallSwitchOn | WallSwitchOff | PowerReading | SwitchState | DimmerState

  /** The rules in the order they are tried. */
  const Rules: seq<Rule> := [WallSwitchOn, WallSwitchOff, PowerReading, SwitchState, DimmerState]

  /** The condition under which a rule applies to a frame. */
  predicate Fires(rule: Rule, data: seq<Byte>)
    requires |data| >= 7
  {
    match rule
    case WallSwitchOn => data[6] == 0x30
    case WallSwitchOff => data[6] == 0x20
    case PowerReading => data[4] == 0x0c
    case SwitchState => SwitchBits(data[2])
    case DimmerState => data[0] == 0xa5 && data[1] == 0x02
  }

  /** The event type each rule produces. */
  function Category(rule: Rule): RxType
  {
    match rule
    case WallSwitchOn => WallSwitch
    case WallSwitchOff => WallSwitch
    case PowerReading => Power
    case SwitchState => SwitchStatus
    case DimmerState => DimmerStatus
  }

  /** The value a rule assigns, or `None` when it assigns none. */
  function Assigned(rule: Rule, data: seq<Byte>): Option<int>
    requires |data| >= 7
  {
    match rule
    case WallSwitchOn => Some(1)
    case WallSwitchOff => Some(0)
    case PowerReading => Some(data[3] as int + data[2] as int * 256)
    case SwitchState => if data[3] == 0xe4 then Some(1) else if data[3] == 0x80 then Some(0) else None
    case DimmerState => Some(data[2] as int)
  }

  /** What a fired rule makes of the tentative event: its type, its value if it assigns one, its channel. */
  function Apply(rule: Rule, data: seq<Byte>, prior: Event): Event
    requires |data| >= 7
  {
    Event(Some(Category(rule)),
          if Assigned(rule, data).Some? then Assigned(rule, data) else prior.value,
          if rule == SwitchState then ChannelOf(data[2]) else prior.channel)
  }

  /** The first rule of `rules` that fires decides the event; if none fires, `prior` stands. */
  function FirstMatch(rules: seq<Rule>, data: seq<Byte>, prior: Event): Event
    requires |data| >= 7
  {
    if rules == [] then prior
    else if Fires(rules[0], data) then Apply(rules[0], data, prior)
    else FirstMatch(rules[1..], data, prior)
  }

  /** The rule at index k is the first of `rules` that fires on `data`. */
  predicate FirstFiring(rules: seq<Rule>, data: seq<Byte>, k: nat)
    requires |data| >= 7
  {
    k < |rules| && Fires(rules[k], data) && forall j :: 0 <= j < k ==> !Fires(rules[j], data)
  }

  /** The first firing rule decides; a rule that fires later in the table is never consulted. */
  lemma {:induction false} FirstMatchPicksFirst(rules: seq<Rule>, data: seq<Byte>, prior: Event, k: nat)
    requires |data| >= 7
    requires FirstFiring(rules, data, k)
    ensures FirstMatch(rules, data, prior) == Apply(rules[k], data, prior)
  {
    if k > 0 {
      assert !Fires(rules[0], data);
      assert FirstFiring(rules[1..], data, k - 1) by {
        forall j | 0 <= j < k - 1 ensures !Fires(rules[1..][j], data) {
          assert rules[1..][j] == rules[j + 1];
        }
      }
      FirstMatchPicksFirst(rules[1..], data, prior, k - 1);
    }
  }

  /** When no rule of `rules` fires, the prior event stands unchanged. */
  lemma {:induction false} FirstMatchNoneFires(rules: seq<Rule>, data: seq<Byte>, prior: Event)
    requires |data| >= 7
    requires forall j :: 0 <= j < |rules| ==> !Fires(rules[j], data)
    ensures FirstMatch(rules, data, prior) == prior
  {
    if rules != [] {
      assert !Fires(rules[0], data);
      FirstMatchNoneFires(rules[1..], data, prior);
    }
  }

  /** The `if/elif` chain is the ordered rule table run over the tentative event. */
  lemma ClassifyIsRuleTable(rorg: Byte, posRaw: int, data: seq<Byte>)
    requires |data| >= 7
    ensures Classify(rorg, posRaw, data) == Success(FirstMatch(Rules, data, Tentative(rorg, posRaw)))
  {
    var prior := Tentative(rorg, posRaw);
    if Fires(WallSwitchOn, data) {
      FirstMatchPicksFirst(Rules, data, prior, 0);
    } else if Fires(WallSwitchOff, data) {
      FirstMatchPicksFirst(Rules, data, prior, 1);
    } else if Fires(PowerReading, data) {
      FirstMatchPicksFirst(Rules, data, prior, 2);
    } else if Fires(SwitchState, data) {
      FirstMatchPicksFirst(Rules, data, prior, 3);
    } else if Fires(DimmerState, data) {
      FirstMatchPicksFirst(Rules, data, prior, 4);
    } else {
      FirstMatchNoneFires(Rules, data, prior);
    }
  }

  /**
    A rule that fires replaces the tentative cover result: the event type is the
    first firing rule's, whatever the organisation code and the decoded position.
   */
  lemma FiringRuleOverrides(rorg: Byte, posRaw: int, data: seq<Byte>, k: nat)
    requires |data| >= 7
    requires FirstFiring(Rules, data, k)
    ensures Classify(rorg, posRaw, data).Success?
    ensures Classify(rorg, posRaw, data).value.rxtype == Some(Category(Rules[k]))
    ensures Classify(rorg, posRaw, data).value.channel == if Rules[k] == SwitchState then ChannelOf(data[2]) else 0
    ensures Assigned(Rules[k], data).Some? ==> Classify(rorg, posRaw, data).value.value == Assigned(Rules[k], data)
  {
    ClassifyIsRuleTable(rorg, posRaw, data);
    FirstMatchPicksFirst(Rules, data, Tentative(rorg, posRaw), k);
  }

  /** When no rule fires, a VLD telegram is a cover event carrying POS.raw_value and any other telegram is no event. */
  lemma NoRuleKeepsTentative(rorg: Byte, posRaw: int, data: seq<Byte>)
    requires |data| >= 7
    requires forall j :: 0 <= j < |Rules| ==> !Fires(Rules[j], data)
    ensures Classify(rorg, posRaw, data) == Success(
              if rorg == VLD then Event(Some(Cover), Some(posRaw), 0) else Event(None, None, 0))
  {
    ClassifyIsRuleTable(rorg, posRaw, data);
    FirstMatchNoneFires(Rules, data, Tentative(rorg, posRaw));
  }

  /** A cover event comes only from a VLD telegram on which no rule fires. */
  lemma CoverOnlyFromVld(rorg: Byte, posRaw: int, data: seq<Byte>)
    requires Classify(rorg, posRaw, data).Success?
    requires Classify(rorg, posRaw, data).value.rxtype == Some(Cover)
    ensures rorg == VLD
    ensures forall j :: 0 <= j < |Rules| ==> !Fires(Rules[j], data)
    ensures Classify(rorg, posRaw, data).value.value == Some(posRaw)
  {
  }

  /** A switch-status event's value: 1 for byte 3 = 0xe4, 0 for 0x80, otherwise whatever the tentative stage left. */
  lemma SwitchStatusValue(rorg: Byte, posRaw: int, data: seq<Byte>)
    requires Classify(rorg, posRaw, data).Success?
    requires Classify(rorg, posRaw, data).value.rxtype == Some(SwitchStatus)
    ensures SwitchBits(data[2])
    ensures Classify(rorg, posRaw, data).value.channel == ChannelOf(data[2])
    ensures Classify(rorg, posRaw, data).value.value ==
              if data[3] == 0xe4 then Some(1)
              else if data[3] == 0x80 then Some(0)
              else if rorg == VLD then Some(posRaw)
              else None
  {
  }

  /** Examples: a cover telegram, its override by a wall switch, a switch telegram on channel 5, a power reading, a short frame. */
  lemma ClassifyExamples()
    ensures Classify(VLD, 42, [VLD, 0, 0, 0, 0, 0, 0]) == Success(Event(Some(Cover), Some(42), 0))
    ensures Classify(VLD, 42, [VLD, 0, 0, 0, 0, 0, 0x30]) == Success(Event(Some(WallSwitch), Some(1), 0))
    ensures Classify(0xF6, 0, [0xF6, 0, 0x65, 0xe4, 0, 0, 0]) == Success(Event(Some(SwitchStatus), Some(1), 5))
    ensures Classify(0xA5, 0, [0xA5, 0, 0x01, 0x2c, 0x0c, 0, 0]) == Success(Event(Some(Power), Some(300), 0))
    ensures Classify(0xA5, 0, [0xA5, 0, 0, 0, 0, 0]) == Failure(IndexError)
  {
  }
}
