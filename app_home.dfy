/**
 * `AppHome`, the root component of the companion controller. It keeps the
 * last reported TCP and BLE connection states and routes events between
 * the GUI, the TCP server component and the BLE client's queue; user
 * commands for a lamp leave only while that lamp's link is up.
 */
module Home {
  import opened PyConst

  /** What one handled event hands on: to `self.gui`, to `self.tcp`, and onto `queueBle`. */
  datatype Posts = Posts(gui: seq<AppEvent>, tcp: seq<AppEvent>, ble: seq<AppEvent>)

  const NoPosts := Posts([], [], [])

  const IsConnected := PyConnState(Connected)

  /** The states after `handleEventConnection`: `arg0` picks the link whose state becomes `arg1`. */
  function ConnectionStates(tcpState: PyValue, bleState: PyValue, ev: AppEvent): (r: (PyValue, PyValue))
    ensures ev.arg0 == PyConnType(Tcp) ==> r == (ev.arg1, bleState)
    ensures ev.arg0 == PyConnType(Ble) ==> r == (tcpState, ev.arg1)
    ensures r.0 != tcpState ==> ev.arg0 == PyConnType(Tcp)
    ensures r.1 != bleState ==> ev.arg0 == PyConnType(Ble)
  {
    match ev.arg0
    case PyConnType(Tcp) => (ev.arg1, bleState)
    case PyConnType(Ble) => (tcpState, ev.arg1)
    case _ => (tcpState, bleState)
  }

  /** `handleEventConnection` always tells the GUI, with the event's `obj` dropped. */
  function ConnectionPosts(ev: AppEvent): (p: Posts)
    ensures p.tcp == [] && p.ble == [] && |p.gui| == 1
    ensures p.gui[0].event == ev.event && p.gui[0].arg0 == ev.arg0 && p.gui[0].arg1 == ev.arg1
    ensures p.gui[0].obj == PyNone
  {
    Posts([PostEvent(ev.event, ev.arg0, ev.arg1)], [], [])
  }

  /** `handleEventDataTcp` and `handleEventDataBle`: a decoded object becomes one `DeviceUpdate` for the GUI. */
  function DataPosts(ev: AppEvent): (p: Posts)
    ensures p.tcp == [] && p.ble == []
    ensures p.gui == [] <==> ev.obj == PyNone
    ensures p.gui != [] ==> p.gui == [AppEvent(DeviceUpdate, PyNum(0.0), PyNum(0.0), ev.obj)]
  {
    if ev.obj == PyNone then NoPosts else Posts([PostEvent(DeviceUpdate, PyNum(0.0), PyNum(0.0), ev.obj)], [], [])
  }

  /** `handleEventReqUpdate`: the request goes, unchanged, to the link named by `arg0`. */
  function ReqUpdatePosts(ev: AppEvent): (p: Posts)
    ensures p.gui == []
    ensures p.tcp == (if ev.arg0 == PyConnType(Tcp) then [ev] else [])
    ensures p.ble == (if ev.arg0 == PyConnType(Ble) then [ev] else [])
  {
    if ev.arg0 == PyConnType(Tcp) then Posts([], [ev], [])
    else if ev.arg0 == PyConnType(Ble) then Posts([], [], [ev])
    else NoPosts
  }

  /** `handleUserLampEspOn`. */
  function LampEspOnPosts(tcpState: PyValue, ev: AppEvent): (p: Posts)
    ensures p.gui == [] && p.ble == []
    ensures p.tcp == (if tcpState == IsConnected then [ev] else [])
  {
    if tcpState == IsConnected then Posts([], [ev], []) else NoPosts
  }

  /** `handleUserLampNrfOnOff`. */
  function LampNrfOnOffPosts(bleState: PyValue, ev: AppEvent): (p: Posts)
    ensures p.gui == [] && p.tcp == []
    ensures p.ble == (if bleState == IsConnected then [ev] else [])
  {
    if bleState == IsConnected then Posts([], [], [ev]) else NoPosts
  }

  /** `handleEventUser`: the `switchButton` lookup on `arg0`, unknown buttons going to `unsupportedHandler`. */
  function UserPosts(tcpState: PyValue, bleState: PyValue, ev: AppEvent): (p: Posts)
    ensures p.gui == []
    ensures p.tcp == (if ev.arg0 == PyButton(LampEspOn) && tcpState == IsConnected then [ev] else [])
    ensures p.ble == (if ev.arg0 == PyButton(LampNrfOnOff) && bleState == IsConnected then [ev] else [])
  {
    match ev.arg0
    case PyButton(LampNrfOnOff) => LampNrfOnOffPosts(bleState, ev)
    case PyButton(LampEspOn) => LampEspOnPosts(tcpState, ev)
    case _ => NoPosts
  }

  /** `onAppEvent` over the five-entry `handlers` map of `AppHome`. */
  function Route(tcpState: PyValue, bleState: PyValue, ev: AppEvent): (p: Posts)
    ensures |p.gui| <= 1 && |p.tcp| <= 1 && |p.ble| <= 1
    ensures p.tcp != [] ==> (p.tcp == [ev]
      && ((ev.event == UserInput && ev.arg0 == PyButton(LampEspOn) && tcpState == IsConnected)
          || (ev.event == DeviceReqUpdate && ev.arg0 == PyConnType(Tcp))))
    ensures p.ble != [] ==> (p.ble == [ev]
      && ((ev.event == UserInput && ev.arg0 == PyButton(LampNrfOnOff) && bleState == IsConnected)
          || (ev.event == DeviceReqUpdate && ev.arg0 == PyConnType(Ble))))
    ensures p.gui != [] <==> ev.event == ConnectionUpdate || (ev.event in {DataTcp, DataBle} && ev.obj != PyNone)
  {
    match ev.event
    case UserInput => UserPosts(tcpState, bleState, ev)
    case ConnectionUpdate => ConnectionPosts(ev)
    case DeviceReqUpdate => ReqUpdatePosts(ev)
    case DataTcp => DataPosts(ev)
    case DataBle => DataPosts(ev)
    case _ => NoPosts
  }

  /** The link states after `onAppEvent`: only a connection update changes one. */
  function NextStates(tcpState: PyValue, bleState: PyValue, ev: AppEvent): (r: (PyValue, PyValue))
    ensures ev.event != ConnectionUpdate ==> r == (tcpState, bleState)
    ensures ev.event == ConnectionUpdate ==> r == ConnectionStates(tcpState, bleState, ev)
  {
    if ev.event == ConnectionUpdate then ConnectionStates(tcpState, bleState, ev) else (tcpState, bleState)
  }

  class AppHome {
    var tcpState: PyValue
    var bleState: PyValue
    var toGui: seq<AppEvent>
    var toTcp: seq<AppEvent>
    var queueBle: seq<AppEvent>

    /** `__init__`: both links start `Disconnected`. */
    constructor()
      ensures tcpState == PyConnState(Disconnected) && bleState == PyConnState(Disconnected)
      ensures toGui == [] && toTcp == [] && queueBle == []
    {
      tcpState := PyConnState(Disconnected);
      bleState := PyConnState(Disconnected);
      toGui := [];
      toTcp := [];
      queueBle := [];
    }

    /** The outboxes grew by exactly `p`. */
    twostate predicate Emitted(p: Posts)
      reads this
    {
      toGui == old(toGui) + p.gui && toTcp == old(toTcp) + p.tcp && queueBle == old(queueBle) + p.ble
    }

    /** `started`: the GUI learns both link states. */
    method Started()
      modifies this
      ensures tcpState == old(tcpState) && bleState == old(bleState)
      ensures Emitted(Posts([PostEvent(ConnectionUpdate, PyConnType(Tcp), tcpState),
                             PostEvent(ConnectionUpdate, PyConnType(Ble), bleState)], [], []))
    {
      toGui := toGui + [PostEvent(ConnectionUpdate, PyConnType(Tcp), tcpState),
                        PostEvent(ConnectionUpdate, PyConnType(Ble), bleState)];
    }

    method HandleEventConnection(ev: AppEvent)
      modifies this
      ensures (tcpState, bleState) == ConnectionStates(old(tcpState), old(bleState), ev)
      ensures Emitted(ConnectionPosts(ev))
    {
      if ev.arg0 == PyConnType(Tcp) {
        tcpState := ev.arg1;
      } else if ev.arg0 == PyConnType(Ble) {
        bleState := ev.arg1;
      }
      toGui := toGui + [PostEvent(ev.event, ev.arg0, ev.arg1)];
    }

    /** `handleEventDataTcp`; `handleEventDataBle` has the same body. */
    method HandleEventData(ev: AppEvent)
      modifies this
      ensures tcpState == old(tcpState) && bleState == old(bleState)
      ensures Emitted(DataPosts(ev))
    {
      if ev.obj == PyNone {
        return;
      }
      toGui := toGui + [PostEvent(DeviceUpdate, PyNum(0.0), PyNum(0.0), ev.obj)];
    }

    method HandleEventReqUpdate(ev: AppEvent)
      modifies this
      ensures tcpState == old(tcpState) && bleState == old(bleState)
      ensures Emitted(ReqUpdatePosts(ev))
    {
      if ev.arg0 == PyConnType(Tcp) {
        toTcp := toTcp + [PostEvent(ev.event, ev.arg0, ev.arg1, ev.obj)];
      } else if ev.arg0 == PyConnType(Ble) {
        queueBle := queueBle + [AppEvent(ev.event, ev.arg0, ev.arg1, ev.obj)];
      }
    }

    method HandleUserLampEspOn(ev: AppEvent)
      modifies this
      ensures tcpState == old(tcpState) && bleState == old(bleState)
      ensures Emitted(LampEspOnPosts(tcpState, ev))
    {
      if tcpState == IsConnected {
        toTcp := toTcp + [PostEvent(ev.event, ev.arg0, ev.arg1, ev.obj)];
      }
    }

    method HandleUserLampNrfOnOff(ev: AppEvent)
      modifies this
      ensures tcpState == old(tcpState) && bleState == old(bleState)
      ensures Emitted(LampNrfOnOffPosts(bleState, ev))
    {
      if bleState == IsConnected {
        queueBle := queueBle + [AppEvent(ev.event, ev.arg0, ev.arg1, ev.obj)];
      }
    }

    method HandleEventUser(ev: AppEvent)
      modifies this
      ensures tcpState == old(tcpState) && bleState == old(bleState)
      ensures Emitted(UserPosts(tcpState, bleState, ev))
    {
      match ev.arg0
      case PyButton(LampNrfOnOff) => HandleUserLampNrfOnOff(ev);
      case PyButton(LampEspOn) => HandleUserLampEspOn(ev);
      case _ =>
    }

    /** `onAppEvent`. */
    method OnAppEvent(ev: AppEvent)
      modifies this
      ensures (tcpState, bleState) == NextStates(old(tcpState), old(bleState), ev)
      ensures Emitted(Route(old(tcpState), old(bleState), ev))
    {
      match ev.event
      case UserInput => HandleEventUser(ev);
      case ConnectionUpdate => HandleEventConnection(ev);
      case DeviceReqUpdate => HandleEventReqUpdate(ev);
      case DataTcp => HandleEventData(ev);
      case DataBle => HandleEventData(ev);
      case _ =>
    }
  }
}
