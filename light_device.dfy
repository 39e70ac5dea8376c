/**
 * The ESP32 lamp (`LightDevice`): a Matter extended-colour light whose
 * on/off and colour-temperature attributes are read back as one of four
 * coarse states, driven by a button that cycles through them and by
 * attribute writes from the Matter stack.
 *
 * The Matter attribute store is the pair of fields `onOff` and `colorTemp`;
 * the LED driver is the log `driverCalls` of the calls made to it.
 */
module Light {
  import opened Wrappers
  import opened Msg

  /** `LightDevice::State`, with codes 0..4 in declaration order. */
  datatype State = Off | ColorWhite | ColorYellow | ColorRed | On

  /** The enum value of a state, as sent in `lParam` and on the wire. */
  function Code(s: State): (c: uint32)
    ensures c <= 4
    ensures FromCode(c) == Some(s)
  {
    match s
    case Off => 0
    case ColorWhite => 1
    case ColorYellow => 2
    case ColorRed => 3
    case On => 4
  }

  /** The state with enum value `c`, if any. */
  function FromCode(c: int): (r: Option<State>)
    ensures r.Some? <==> 0 <= c <= 4
  {
    if c == 0 then Some(Off)
    else if c == 1 then Some(ColorWhite)
    else if c == 2 then Some(ColorYellow)
    else if c == 3 then Some(ColorRed)
    else if c == 4 then Some(On)
    else None
  }

  /** Colour temperatures, in mireds, written for the three colour states. */
  const ColorTemperatureRed: uint16 := 1700
  const ColorTemperatureYellow: uint16 := 520
  const ColorTemperatureWhite: uint16 := 160

  /** Midpoints separating the buckets; a value equal to one falls in the warmer bucket. */
  const WhiteYellowBoundary: uint16 := (ColorTemperatureYellow + ColorTemperatureWhite) / 2
  const YellowRedBoundary: uint16 := (ColorTemperatureRed + ColorTemperatureYellow) / 2

  /** The state `getState` reports for the given attribute values. */
  function Classify(onOff: bool, mireds: uint16): (s: State)
    ensures s != On
    ensures s == Off <==> !onOff
    ensures onOff ==> (s == ColorWhite <==> mireds < 340)
    ensures onOff ==> (s == ColorYellow <==> 340 <= mireds < 1110)
    ensures onOff ==> (s == ColorRed <==> 1110 <= mireds)
  {
    if !onOff then Off
    else if mireds < WhiteYellowBoundary then ColorWhite
    else if mireds < YellowRedBoundary then ColorYellow
    else ColorRed
  }

  /** The colour temperature `setState` writes for a colour state. */
  function WrittenTemperature(s: State): (t: Option<uint16>)
    ensures t.Some? <==> s in {ColorWhite, ColorYellow, ColorRed}
  {
    match s
    case ColorWhite => Some(ColorTemperatureWhite)
    case ColorYellow => Some(ColorTemperatureYellow)
    case ColorRed => Some(ColorTemperatureRed)
    case _ => None
  }

  /** Each colour temperature `setState` writes lies well inside its own bucket. */
  lemma WrittenTemperatureClassifies(s: State)
    requires s in {ColorWhite, ColorYellow, ColorRed}
    ensures Classify(true, WrittenTemperature(s).value) == s
  {
  }

  /** The state `clickButtonOn` moves to: Off, white, yellow, red, and back to Off. */
  function NextClick(s: State): (n: State)
    ensures n != On
    ensures s in {ColorRed, On} <==> n == Off
  {
    match s
    case Off => ColorWhite
    case ColorWhite => ColorYellow
    case ColorYellow => ColorRed
    case _ => Off
  }

  /** The state after `n` clicks. */
  function Clicks(s: State, n: nat): State
    decreases n
  {
    if n == 0 then s else Clicks(NextClick(s), n - 1)
  }

  /** Every four clicks the button returns the lamp to the state it started from. */
  lemma {:induction false} ClicksCycle(s: State, k: nat)
    requires s != On
    ensures Clicks(s, 4 * k) == s
  {
    if k > 0 {
      var t := NextClick(NextClick(NextClick(NextClick(s))));
      assert t == s;
      calc {
        Clicks(s, 4 * k);
        Clicks(NextClick(s), 4 * k - 1);
        Clicks(NextClick(NextClick(s)), 4 * k - 2);
        Clicks(NextClick(NextClick(NextClick(s))), 4 * k - 3);
        Clicks(t, 4 * (k - 1));
        { ClicksCycle(s, k - 1); }
        s;
      }
    }
  }

  /** Within one cycle from Off, the button visits every colour state exactly once, then Off. */
  lemma ClicksFromOff()
    ensures Clicks(Off, 1) == ColorWhite && Clicks(Off, 2) == ColorYellow
    ensures Clicks(Off, 3) == ColorRed && Clicks(Off, 4) == Off
  {
  }

  /** The Matter value type tag of an attribute value. */
  datatype AttrType = Boolean | Uint8 | NullableUint8 | Uint16 | OtherType(tag: uint8)

  /**
   * `esp_matter_attr_val_t`: the type tag and the raw bits of the value
   * union, whose `b` and `u8` views read the low byte and `u16` the low two.
   */
  datatype AttrVal = AttrVal(typ: AttrType, raw: uint32)
  {
    function B(): bool { raw % 0x100 != 0 }
    function U8(): uint8 { raw % 0x100 }
    function U16(): uint16 { raw % 0x1_0000 }
  }

  /** A call into the LED driver, with the attribute value it was derived from. */
  datatype LedCall =
    | SetPower(on: bool)
    | SetBrightness(level: uint8)
    | SetHue(hue: uint8)
    | SetSaturation(saturation: uint8)
    | SetTemperature(mireds: uint16)

  const EspOk: int := 0
  const EspFail: int := -1

  // Matter cluster and attribute identifiers
  const IdentifyCluster: uint32 := 0x0003
  const GroupsCluster: uint32 := 0x0004
  const OnOffCluster: uint32 := 0x0006
  const LevelControlCluster: uint32 := 0x0008
  const ColorControlCluster: uint32 := 0x0300
  const OnOffAttr: uint32 := 0x0000
  const CurrentLevelAttr: uint32 := 0x0000
  const CurrentHueAttr: uint32 := 0x0000
  const CurrentSaturationAttr: uint32 := 0x0001
  const ColorTemperatureMiredsAttr: uint32 := 0x0007

  /** The driver setter an attribute write is routed to. */
  datatype Setter = PowerSetter | BrightnessSetter | HueSetter | SaturationSetter | TemperatureSetter

  /** The routing of `onAttributeUpdate`: which setter, if any, handles `(cluster, attribute)`. */
  function Route(cluster: uint32, attribute: uint32): (r: Option<Setter>)
    ensures r == Some(PowerSetter) <==> cluster == OnOffCluster && attribute == OnOffAttr
    ensures r == Some(BrightnessSetter) <==> cluster == LevelControlCluster && attribute == CurrentLevelAttr
    ensures r == Some(HueSetter) <==> cluster == ColorControlCluster && attribute == CurrentHueAttr
    ensures r == Some(SaturationSetter) <==> cluster == ColorControlCluster && attribute == CurrentSaturationAttr
    ensures r == Some(TemperatureSetter) <==> cluster == ColorControlCluster && attribute == ColorTemperatureMiredsAttr
  {
    if cluster == OnOffCluster then
      if attribute == OnOffAttr then Some(PowerSetter) else None
    else if cluster == LevelControlCluster then
      if attribute == CurrentLevelAttr then Some(BrightnessSetter) else None
    else if cluster == ColorControlCluster then
      if attribute == CurrentHueAttr then Some(HueSetter)
      else if attribute == CurrentSaturationAttr then Some(SaturationSetter)
      else if attribute == ColorTemperatureMiredsAttr then Some(TemperatureSetter)
      else None
    else None
  }

  /** The driver call a setter makes for `val`; brightness refuses any type but nullable uint8. */
  function DriverCall(setter: Setter, val: AttrVal): (c: Option<LedCall>)
    ensures c.None? <==> setter == BrightnessSetter && val.typ != NullableUint8
  {
    match setter
    case PowerSetter => Some(SetPower(val.B()))
    case BrightnessSetter => if val.typ == NullableUint8 then Some(SetBrightness(val.U8())) else None
    case HueSetter => Some(SetHue(val.U8()))
    case SaturationSetter => Some(SetSaturation(val.U8()))
    case TemperatureSetter => Some(SetTemperature(val.U16()))
  }

  function CallLog(c: Option<LedCall>): seq<LedCall>
  {
    if c.Some? then [c.value] else []
  }

  class LightDevice {
    var endpointId: uint16
    /** The OnOff attribute of the endpoint, in the Matter store. */
    var onOff: bool
    /** The ColorTemperatureMireds attribute of the endpoint, in the Matter store. */
    var colorTemp: uint16
    var driverCalls: seq<LedCall>

    /** A device over a store holding the given values; the endpoint is 0 until `init`. */
    constructor(storedOnOff: bool, storedMireds: uint16)
      ensures endpointId == 0 && onOff == storedOnOff && colorTemp == storedMireds && driverCalls == []
    {
      endpointId := 0;
      onOff := storedOnOff;
      colorTemp := storedMireds;
      driverCalls := [];
    }

    /** `init(endpoint_id)`: records the endpoint; always succeeds. */
    method Init(endpoint: uint16) returns (err: int)
      modifies this
      ensures err == EspOk && endpointId == endpoint
      ensures onOff == old(onOff) && colorTemp == old(colorTemp) && driverCalls == old(driverCalls)
    {
      endpointId := endpoint;
      err := EspOk;
    }

    /** `getEndpointID()`. */
    function GetEndpointId(): (id: uint16)
      reads this
      ensures id == endpointId
    {
      endpointId
    }

    /** `getState()`: the coarse state of the stored attributes; never `On`. */
    function GetState(): (s: State)
      reads this
      ensures s == Classify(onOff, colorTemp)
    {
      Classify(onOff, colorTemp)
    }

    /**
     * The effect of `setState(s)`: a colour state writes its temperature and
     * turns the lamp on, `On` only turns it on, `Off` only turns it off; each
     * write is mirrored to the LED driver.
     */
    twostate predicate SetStateDone(s: State)
      reads this
    {
      onOff == (s != Off)
      && colorTemp == (if WrittenTemperature(s).Some? then WrittenTemperature(s).value else old(colorTemp))
      && driverCalls == old(driverCalls)
           + (if WrittenTemperature(s).Some? then [SetTemperature(WrittenTemperature(s).value)] else [])
           + [SetPower(s != Off)]
      && endpointId == old(endpointId)
    }

    /**
     * `setState(state)`. Reading the state back gives `state`, except for
     * `On`, which reads back as the colour already stored.
     */
    method SetState(s: State)
      modifies this
      ensures SetStateDone(s)
      ensures s != On ==> GetState() == s
      ensures s == On ==> GetState() == Classify(true, old(colorTemp))
    {
      match s {
        case On =>
          onOff := true;
          driverCalls := driverCalls + [SetPower(true)];
        case ColorWhite =>
          colorTemp := ColorTemperatureWhite;
          driverCalls := driverCalls + [SetTemperature(ColorTemperatureWhite)];
          onOff := true;
          driverCalls := driverCalls + [SetPower(true)];
        case ColorYellow =>
          colorTemp := ColorTemperatureYellow;
          driverCalls := driverCalls + [SetTemperature(ColorTemperatureYellow)];
          onOff := true;
          driverCalls := driverCalls + [SetPower(true)];
        case ColorRed =>
          colorTemp := ColorTemperatureRed;
          driverCalls := driverCalls + [SetTemperature(ColorTemperatureRed)];
          onOff := true;
          driverCalls := driverCalls + [SetPower(true)];
        case Off =>
          onOff := false;
          driverCalls := driverCalls + [SetPower(false)];
      }
    }

    /** `clickButtonOn()`: moves the lamp one step along the button cycle. */
    method ClickButtonOn()
      modifies this
      ensures SetStateDone(NextClick(old(GetState())))
      ensures GetState() == NextClick(old(GetState()))
    {
      var s := GetState();
      SetState(NextClick(s));
    }

    /** The setters: mirror one attribute to the LED driver, answering its result. */
    method ApplySetter(setter: Setter, val: AttrVal, driverResult: int) returns (err: int)
      modifies this
      ensures driverCalls == old(driverCalls) + CallLog(DriverCall(setter, val))
      ensures err == if DriverCall(setter, val).Some? then driverResult else EspFail
      ensures onOff == old(onOff) && colorTemp == old(colorTemp) && endpointId == old(endpointId)
    {
      var call := DriverCall(setter, val);
      if call.Some? {
        driverCalls := driverCalls + [call.value];
        err := driverResult;
      } else {
        err := EspFail;
      }
    }

    /**
     * `onAttributeUpdate(cluster, attribute, val)`: routes a write by the
     * Matter stack to the LED driver; the store itself is left to the stack.
     * `driverResult` is what the driver answers.
     */
    method OnAttributeUpdate(cluster: uint32, attribute: uint32, val: AttrVal, driverResult: int)
      returns (err: int)
      modifies this
      ensures Route(cluster, attribute).None? ==> err == EspOk && driverCalls == old(driverCalls)
      ensures Route(cluster, attribute).Some? ==>
        var call := DriverCall(Route(cluster, attribute).value, val);
        driverCalls == old(driverCalls) + CallLog(call) && err == if call.Some? then driverResult else EspFail
      ensures onOff == old(onOff) && colorTemp == old(colorTemp) && endpointId == old(endpointId)
    {
      var setter := Route(cluster, attribute);
      if setter.Some? {
        err := ApplySetter(setter.value, val, driverResult);
      } else {
        err := EspOk;
      }
    }
  }
}
