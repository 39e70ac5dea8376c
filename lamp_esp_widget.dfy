/**
 * `LampEspWidget`, the companion's panel for the ESP32 lamp. It tracks
 * whether the TCP link is up and the last lamp state the lamp reported,
 * and draws a frame, a bulb icon and a caption from those two fields.
 * The widget's `State` enum has the values of the lamp's own state codes,
 * so it is modelled by the lamp's `State` and `FromCode`.
 */
module EspWidget {
  import opened Wrappers
  import opened PyConst
  import opened Light

  const DeviceName := "lamp-esp"
  const UpdateEvent := "update"
  const Blue := "blue"
  const Grey := "grey"
  const IconOn := "assets/lightbulb-on.png"
  const IconOff := "assets/lightbulb-off.png"

  /**
   * `State.has_value(v)`: whether `v` is a key of the enum's value map.
   * Booleans and numbers equal to 0..4 are; an unhashable list or dict
   * raises `TypeError`.
   */
  function HasValue(v: PyValue): (r: Outcome<bool>)
    ensures r.Raises? <==> v.PyList? || v.PyDict?
    ensures r == Returns(true) <==> v.PyBool? || (v.PyNum? && v.r in {0.0, 1.0, 2.0, 3.0, 4.0})
  {
    match v
    case PyBool(_) => Returns(true)
    case PyNum(r) => Returns(r in {0.0, 1.0, 2.0, 3.0, 4.0})
    case PyList(_) => Raises
    case PyDict(_) => Raises
    case _ => Returns(false)
  }

  /** `State(v)` for a value `has_value` accepts: the member whose value equals `v`. */
  function StateOf(v: PyValue): (s: State)
    requires HasValue(v) == Returns(true)
    ensures v.PyNum? ==> Code(s) as real == v.r
    ensures v.PyBool? ==> Code(s) == if v.b then 1 else 0
  {
    match v
    case PyBool(b) => if b then ColorWhite else Off
    case PyNum(r) => FromCode(r.Floor).value
  }

  /**
   * What `handleEventDevice` makes of a device update's `obj`: a new lamp
   * state, nothing, or an exception from a missing key, a non-dict object
   * or an unhashable `arg1`.
   */
  function ReportedState(obj: PyValue): (r: Outcome<Option<State>>)
    ensures r.Returns? && r.value.Some? <==>
      obj.PyDict? && "device" in obj.entries && obj.entries["device"] == PyStr(DeviceName)
      && "event" in obj.entries && obj.entries["event"] == PyStr(UpdateEvent)
      && "arg1" in obj.entries && HasValue(obj.entries["arg1"]) == Returns(true)
    ensures r.Returns? && r.value.Some? ==> r.value.value == StateOf(obj.entries["arg1"])
    ensures r.Raises? <==>
      !obj.PyDict? || "device" !in obj.entries
      || (obj.entries["device"] == PyStr(DeviceName)
          && ("event" !in obj.entries
              || (obj.entries["event"] == PyStr(UpdateEvent)
                  && ("arg1" !in obj.entries || HasValue(obj.entries["arg1"]).Raises?))))
  {
    match Subscript(obj, "device")
    case Raises => Raises
    case Returns(device) =>
      if device == PyNone || device != PyStr(DeviceName) then Returns(None)
      else match Subscript(obj, "event")
        case Raises => Raises
        case Returns(event) =>
          if event == PyNone || event != PyStr(UpdateEvent) then Returns(None)
          else match Subscript(obj, "arg1")
            case Raises => Raises
            case Returns(state) =>
              match HasValue(state)
              case Raises => Raises
              case Returns(ok) => if ok then Returns(Some(StateOf(state))) else Returns(None)
  }

  /** Whether the widget shows a live link after a connection update: only TCP updates count. */
  function ConnectedAfter(isConnected: bool, ev: AppEvent): (r: bool)
    ensures ev.arg0 == PyConnType(Tcp) ==> (r <==> ev.arg1 == PyConnState(Connected))
    ensures ev.arg0 != PyConnType(Tcp) ==> r == isConnected
  {
    if ev.arg0 != PyConnType(Tcp) then isConnected else ev.arg1 == PyConnState(Connected)
  }

  /** `uiColor()`. */
  function UiColor(isConnected: bool): (r: string)
    ensures r == Blue <==> isConnected
    ensures r == Grey <==> !isConnected
  {
    if isConnected then Blue else Grey
  }

  /** The image `uiUpdateIcon` shows. */
  function IconImage(isConnected: bool, state: State): (r: string)
    ensures r == IconOn <==> isConnected && state != Off
    ensures r == IconOn || r == IconOff
  {
    if isConnected && state != Off then IconOn else IconOff
  }

  /** The caption `uiUpdateText` shows; its `'unknown'` branch is never taken. */
  function UiText(isConnected: bool, state: State): (r: string)
    ensures r == "disconnect" <==> !isConnected
    ensures r != "unknown" && r != ""
  {
    if !isConnected then "disconnect"
    else match state
      case Off => "off"
      case ColorWhite => "white"
      case ColorYellow => "yellow"
      case ColorRed => "red"
      case On => "on"
  }

  class LampEspWidget {
    var isConnected: bool
    var state: State
    var groupColor: string
    var iconImage: string
    var titleColor: Option<string>
    var text: string
    var textColor: Option<string>
    var toParent: seq<AppEvent>

    /** The caption and title as `uiUpdateText` last drew them. */
    predicate Drawn()
      reads this
    {
      text == UiText(isConnected, state) && titleColor == Some(UiColor(isConnected)) && textColor == titleColor
    }

    /** The display shows the two fields; the caption is blank until first drawn. */
    predicate Valid()
      reads this
    {
      groupColor == UiColor(isConnected) && iconImage == IconImage(isConnected, state)
      && (Drawn() || (text == "" && titleColor == None && textColor == None))
    }

    /** `__init__`: disconnected, lamp off, grey frame, bulb off, blank caption. */
    constructor()
      ensures Valid() && !isConnected && state == Off && text == "" && toParent == []
    {
      isConnected := false;
      state := Off;
      groupColor := Grey;
      iconImage := IconOff;
      titleColor := None;
      text := "";
      textColor := None;
      toParent := [];
    }

    method UiUpdateIcon()
      modifies this
      ensures iconImage == IconImage(isConnected, state)
      ensures isConnected == old(isConnected) && state == old(state) && groupColor == old(groupColor)
      ensures titleColor == old(titleColor) && text == old(text) && textColor == old(textColor)
      ensures toParent == old(toParent)
    {
      iconImage := if isConnected && state != Off then IconOn else IconOff;
    }

    method UiUpdateText()
      modifies this
      ensures Drawn()
      ensures isConnected == old(isConnected) && state == old(state) && groupColor == old(groupColor)
      ensures iconImage == old(iconImage) && toParent == old(toParent)
    {
      var t := "";
      if !isConnected {
        t := t + "disconnect";
      } else if state == Off {
        t := t + "off";
      } else if state == ColorWhite {
        t := t + "white";
      } else if state == ColorYellow {
        t := t + "yellow";
      } else if state == ColorRed {
        t := t + "red";
      } else {
        t := t + "on";
      }
      titleColor := Some(UiColor(isConnected));
      text := t;
      textColor := Some(UiColor(isConnected));
    }

    method UiUpdateGroup()
      modifies this
      ensures Valid() && Drawn()
      ensures isConnected == old(isConnected) && state == old(state) && toParent == old(toParent)
    {
      groupColor := UiColor(isConnected);
      UiUpdateIcon();
      UiUpdateText();
    }

    /** `handleEventConnection`: a TCP update redraws everything and, when up, asks for the lamp's state. */
    method HandleEventConnection(ev: AppEvent)
      requires Valid()
      modifies this
      ensures Valid() && state == old(state)
      ensures isConnected == ConnectedAfter(old(isConnected), ev)
      ensures ev.arg0 != PyConnType(Tcp) ==> unchanged(this)
      ensures ev.arg0 == PyConnType(Tcp) ==> (Drawn()
        && toParent == old(toParent) + if isConnected then [PostEvent(DeviceReqUpdate, PyConnType(Tcp))] else [])
    {
      if ev.arg0 != PyConnType(Tcp) {
        return;
      }
      isConnected := ev.arg1 == PyConnState(Connected);
      UiUpdateGroup();
      if isConnected {
        toParent := toParent + [PostEvent(DeviceReqUpdate, PyConnType(Tcp))];
      }
    }

    /** `handleEventDevice`: `raised` when the handler raises, which the event loop logs. */
    method HandleEventDevice(ev: AppEvent) returns (raised: bool)
      requires Valid()
      modifies this
      ensures Valid() && isConnected == old(isConnected) && toParent == old(toParent)
      ensures raised <==> ReportedState(ev.obj).Raises?
      ensures state == match ReportedState(ev.obj) { case Returns(Some(s)) => s case _ => old(state) }
      ensures ReportedState(ev.obj) == Returns(Some(state)) ==> Drawn()
      ensures !(ReportedState(ev.obj).Returns? && ReportedState(ev.obj).value.Some?) ==> unchanged(this)
    {
      raised := false;
      var device := Subscript(ev.obj, "device");
      if device.Raises? {
        return true;
      }
      if device.value == PyNone || device.value != PyStr(DeviceName) {
        return;
      }
      var event := Subscript(ev.obj, "event");
      if event.Raises? {
        return true;
      }
      if event.value == PyNone {
        return;
      }
      if event.value == PyStr(UpdateEvent) {
        var arg1 := Subscript(ev.obj, "arg1");
        if arg1.Raises? {
          return true;
        }
        var ok := HasValue(arg1.value);
        if ok.Raises? {
          return true;
        }
        if ok.value {
          state := StateOf(arg1.value);
          UiUpdateText();
          UiUpdateIcon();
        }
      }
    }

    /** `uiClickIcon`: a click asks for the lamp's button only while connected. */
    method UiClickIcon()
      modifies this
      ensures isConnected == old(isConnected) && state == old(state)
      ensures toParent == old(toParent) + if isConnected then [PostEvent(UserInput, PyButton(LampEspOn))] else []
      ensures groupColor == old(groupColor) && iconImage == old(iconImage) && text == old(text)
      ensures titleColor == old(titleColor) && textColor == old(textColor)
    {
      if isConnected {
        toParent := toParent + [PostEvent(UserInput, PyButton(LampEspOn))];
      }
    }

    /** `onAppEvent` over the two-entry `handlers` map of the widget. */
    method OnAppEvent(ev: AppEvent) returns (raised: bool)
      requires Valid()
      modifies this
      ensures Valid()
      ensures raised <==> ev.event == DeviceUpdate && ReportedState(ev.obj).Raises?
      ensures isConnected == if ev.event == ConnectionUpdate then ConnectedAfter(old(isConnected), ev) else old(isConnected)
      ensures state == if ev.event == DeviceUpdate && ReportedState(ev.obj).Returns? && ReportedState(ev.obj).value.Some?
        then ReportedState(ev.obj).value.value else old(state)
      ensures ev.event !in {ConnectionUpdate, DeviceUpdate} ==> unchanged(this)
    {
      raised := false;
      if ev.event == ConnectionUpdate {
        HandleEventConnection(ev);
      } else if ev.event == DeviceUpdate {
        raised := HandleEventDevice(ev);
      }
    }
  }
}
