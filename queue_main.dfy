/**
 * The ESP32 main thread (`QueueMain`): it owns the lamp, answers the
 * companion's commands with the lamp's state, turns the boot button into a
 * click, reports network availability to the panel thread, and routes the
 * Matter stack's attribute writes to the lamp.
 *
 * Posts to the panel thread's queue and to its own queue are appended to
 * `panelQueue` and `ownQueue`.
 */
module MainQueue {
  import opened Wrappers
  import opened Msg
  import opened EspAppEvent
  import opened Light

  /** The IP event identifiers `onPlatformSpecificEvent` distinguishes. */
  datatype IpEventId = StaGotIp | GotIp6 | StaLostIp | OtherIpEvent(id: int)

  /** `platform->ESPSystemEvent`: an IP event, a Wi-Fi event (only logged), or another base. */
  datatype SystemEvent = IpEvent(id: IpEventId) | WifiEvent(wifiId: int) | OtherBase

  /** `attribute::callback_type_t`. */
  datatype CallbackType = PreUpdate | PostUpdate | OtherCallback(code: int)

  /** The report of the lamp's state to the panel thread. */
  function StateReport(s: State): (m: Message)
    ensures m.event == EventApp && m.iParam == AppDeviceUpdate && m.uParam == DeviceLamp
    ensures FromCode(m.lParam) == Some(s)
  {
    Post(EventApp, AppDeviceUpdate, DeviceLamp, Code(s))
  }

  /** What `onPlatformSpecificEvent` posts to the panel thread. */
  function NetworkReports(ev: SystemEvent): (r: seq<Message>)
    ensures ev == IpEvent(StaGotIp) ==> r == [Post(EventSystem, SysNetworkAvailable, BoolParam(true))]
    ensures ev == IpEvent(StaLostIp) ==> r == [Post(EventSystem, SysNetworkAvailable, BoolParam(false))]
    ensures ev != IpEvent(StaGotIp) && ev != IpEvent(StaLostIp) ==> r == []
  {
    match ev
    case IpEvent(StaGotIp) => [Post(EventSystem, SysNetworkAvailable, BoolParam(true))]
    case IpEvent(StaLostIp) => [Post(EventSystem, SysNetworkAvailable, BoolParam(false))]
    case _ => []
  }

  class QueueMain {
    const light: LightDevice
    /** The GPIO of the boot button (`_buttonBoot.getPin()`). */
    const buttonPin: int32
    var panelQueue: seq<Message>
    var ownQueue: seq<Message>

    /** A main thread owning a lamp over the given stored attributes. */
    constructor(storedOnOff: bool, storedMireds: uint16, pin: int32)
      ensures fresh(light) && light.onOff == storedOnOff && light.colorTemp == storedMireds
      ensures light.driverCalls == [] && buttonPin == pin && panelQueue == [] && ownQueue == []
    {
      light := new LightDevice(storedOnOff, storedMireds);
      buttonPin := pin;
      panelQueue := [];
      ownQueue := [];
    }

    /**
     * The effect of `handlerUserCommand(msg)`: a request for an update
     * reports the current state; a click on `ButtonLampEspOn` advances the
     * lamp and reports the new state; anything else changes nothing.
     */
    twostate predicate UserCommandDone(msg: Message)
      reads this, light
    {
      ownQueue == old(ownQueue)
      && if msg.uParam == UsrReqUpdate then
        panelQueue == old(panelQueue) + [StateReport(old(light.GetState()))] && unchanged(light)
      else if msg.uParam == UsrClick && msg.lParam == ButtonLampEspOn then
        light.SetStateDone(NextClick(old(light.GetState())))
        && panelQueue == old(panelQueue) + [StateReport(NextClick(old(light.GetState())))]
      else
        panelQueue == old(panelQueue) && unchanged(light)
    }

    /** `handlerUserCommand(msg)`. */
    method HandlerUserCommand(msg: Message)
      modifies this, light
      ensures UserCommandDone(msg)
    {
      if msg.uParam == UsrReqUpdate {
        var state := light.GetState();
        panelQueue := panelQueue + [StateReport(state)];
      } else if msg.uParam == UsrClick && msg.lParam == ButtonLampEspOn {
        light.ClickButtonOn();
        var state := light.GetState();
        panelQueue := panelQueue + [StateReport(state)];
      }
    }

    /** The effect of `handlerButtonClick(msg)`: a click of the boot button becomes a `ButtonLampEspOn` click. */
    twostate predicate ButtonClickDone(msg: Message)
      reads this
    {
      panelQueue == old(panelQueue)
      && ownQueue == old(ownQueue)
           + (if msg.uParam == buttonPin then [Post(EventApp, AppUserCommand, UsrClick, ButtonLampEspOn)] else [])
    }

    /** `handlerButtonClick(msg)`. */
    method HandlerButtonClick(msg: Message)
      modifies this
      ensures ButtonClickDone(msg)
    {
      if msg.uParam == buttonPin {
        ownQueue := ownQueue + [Post(EventApp, AppUserCommand, UsrClick, ButtonLampEspOn)];
      }
    }

    /** `onMessage(msg)`: the handler map holds `EventApp`, `EventSystem` and `EventNull` (which only logs). */
    method OnMessage(msg: Message)
      modifies this, light
      ensures msg.event == EventApp && msg.iParam == AppUserCommand ==> UserCommandDone(msg)
      ensures msg.event == EventSystem && msg.iParam == SysButtonClick ==> ButtonClickDone(msg) && unchanged(light)
      ensures !(msg.event == EventApp && msg.iParam == AppUserCommand)
              && !(msg.event == EventSystem && msg.iParam == SysButtonClick)
              ==> unchanged(this) && unchanged(light)
    {
      if msg.event == EventApp && msg.iParam == AppUserCommand {
        HandlerUserCommand(msg);
      } else if msg.event == EventSystem && msg.iParam == SysButtonClick {
        HandlerButtonClick(msg);
      }
    }

    /** `onPlatformSpecificEvent(event)`: gaining or losing the station's IPv4 address is reported. */
    method OnPlatformSpecificEvent(ev: SystemEvent)
      modifies this
      ensures panelQueue == old(panelQueue) + NetworkReports(ev) && ownQueue == old(ownQueue)
    {
      if ev == IpEvent(StaGotIp) {
        panelQueue := panelQueue + [Post(EventSystem, SysNetworkAvailable, BoolParam(true))];
      } else if ev == IpEvent(StaLostIp) {
        panelQueue := panelQueue + [Post(EventSystem, SysNetworkAvailable, BoolParam(false))];
      }
    }

    /**
     * `onAttributeUpdate(type, endpoint, cluster, attribute, val)`: only a
     * pre-update on the lamp's endpoint reaches the lamp (through
     * `onLightPreUpdate`); everything else answers `ESP_OK`.
     */
    method OnAttributeUpdate(typ: CallbackType, endpoint: uint16, cluster: uint32, attribute: uint32,
                             val: AttrVal, driverResult: int) returns (err: int)
      modifies light
      ensures typ == PreUpdate && endpoint == light.endpointId && Route(cluster, attribute).Some? ==>
        var call := DriverCall(Route(cluster, attribute).value, val);
        light.driverCalls == old(light.driverCalls) + CallLog(call)
        && err == if call.Some? then driverResult else EspFail
      ensures !(typ == PreUpdate && endpoint == light.endpointId && Route(cluster, attribute).Some?) ==>
        err == EspOk && light.driverCalls == old(light.driverCalls)
      ensures light.onOff == old(light.onOff) && light.colorTemp == old(light.colorTemp)
      ensures light.endpointId == old(light.endpointId)
    {
      err := EspOk;
      if typ == PreUpdate && endpoint == light.GetEndpointId() {
        err := light.OnAttributeUpdate(cluster, attribute, val, driverResult);
      }
    }
  }

  /** Every state the main thread reports decodes to a colour state or Off, never `On`. */
  lemma ReportedStatesAreCoarse(onOff: bool, mireds: uint16)
    ensures FromCode(StateReport(Classify(onOff, mireds)).lParam).value != On
    ensures StateReport(Classify(onOff, mireds)).lParam <= 3
  {
  }
}
