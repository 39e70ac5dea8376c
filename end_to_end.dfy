/**
 * Properties that span the three programs: a lamp state the ESP32 panel
 * sends reaches the companion's widget as that same state, and the
 * widget's view of the TCP link agrees with `AppHome`'s.
 *
 * Between the panel and the companion sits Python's `json.loads`, which is
 * not part of this model: it is a parameter, and `ReadsCJson` says that it
 * decodes what cJSON prints as the Python value of the same tree.
 */
module EndToEnd {
  import opened Wrappers
  import opened Msg
  import opened LampWire
  import Light
  import Panel
  import opened PyConst
  import Home
  import EspWidget

  /** The Python value `json.loads` builds for a JSON tree; of duplicate keys the last one wins. */
  function ToPy(j: Json): PyValue
    decreases j, 1
  {
    match j
    case JNull => PyNone
    case JBool(b) => PyBool(b)
    case JNumber(n) => PyNum(n as real)
    case JString(s) => PyStr(s)
    case JArray(items) => PyList(ToPyItems(j, items))
    case JObject(members) => PyDict(ToPyMembers(j, members))
  }

  function ToPyItems(ghost j: Json, items: seq<Json>): seq<PyValue>
    requires forall k :: 0 <= k < |items| ==> items[k] < j
    decreases j, 0, |items|
  {
    if items == [] then [] else [ToPy(items[0])] + ToPyItems(j, items[1..])
  }

  function ToPyMembers(ghost j: Json, members: seq<Member>): map<string, PyValue>
    requires forall k :: 0 <= k < |members| ==> members[k].value < j
    decreases j, 0, |members|
  {
    if members == [] then map[]
    else
      var rest := ToPyMembers(j, members[1..]);
      if members[0].key in rest then rest else rest[members[0].key := ToPy(members[0].value)]
  }

  /** `json.loads` applied to cJSON's output yields the Python value of the printed tree. */
  ghost predicate ReadsCJson(c: CJson, loads: string -> Option<PyValue>)
  {
    forall j: Json | WireTree(j) :: loads(c.printUnformatted(j)) == Some(ToPy(j))
  }

  /** The dict the companion decodes from the panel's `update` message for state code `code`. */
  lemma UpdateDict(code: uint32)
    requires code <= 4
    ensures ToPy(BuildTree(Name, Update, 0, ToInt32(code)))
            == PyDict(map[DeviceKey := PyStr(Name), EventKey := PyStr(Update),
                          Arg0Key := PyNum(0.0), Arg1Key := PyNum(code as real)])
  {
    var t := BuildTree(Name, Update, 0, ToInt32(code));
    var ms := t.members;
    assert ms[3..][1..] == [];
    assert ms[2..][1..] == ms[3..];
    assert ms[1..][1..] == ms[2..];
    assert ms[1..] == ms[1..];
    assert |Arg0Key| == |Arg1Key| && Arg0Key[3] != Arg1Key[3];
    assert ToPyMembers(t, ms[3..]) == map[Arg1Key := PyNum(code as real)];
    assert ToPyMembers(t, ms[2..]) == map[Arg1Key := PyNum(code as real), Arg0Key := PyNum(0.0)];
    assert |EventKey| != |Arg0Key| && |EventKey| != |Arg1Key|;
    assert ToPyMembers(t, ms[1..])
        == map[Arg1Key := PyNum(code as real), Arg0Key := PyNum(0.0), EventKey := PyStr(Update)];
    assert |DeviceKey| != |Arg0Key| && |DeviceKey| != |Arg1Key| && |DeviceKey| != |EventKey|;
    assert ToPyMembers(t, ms) == ToPyMembers(t, ms[1..])[DeviceKey := PyStr(Name)];
    assert ToPy(t) == PyDict(ToPyMembers(t, ms));
  }

  /** The companion's `json.loads` of the panel's update text is the Python value of the built tree. */
  lemma UpdateTextLoads(env: Panel.Env, loads: string -> Option<PyValue>, code: uint32)
    requires env.rootAllocated && env.printAllocated
    requires ReadsCJson(env.codec, loads)
    ensures Panel.UpdateText(env, code).Some?
    ensures loads(Panel.UpdateText(env, code).value) == Some(ToPy(BuildTree(Name, Update, 0, ToInt32(code))))
  {
    assert '\0' !in Name && '\0' !in Update;
    BuiltIsWireTree(Name, Update, 0, ToInt32(code));
  }

  /**
   * A lamp state the ESP32 panel reports over TCP arrives: `AppHome` hands
   * the decoded object to the GUI as a device update, and the widget takes
   * on exactly the state the lamp reported.
   */
  lemma StateReportReachesWidget(env: Panel.Env, loads: string -> Option<PyValue>, s: Light.State)
    requires env.rootAllocated && env.printAllocated
    requires ReadsCJson(env.codec, loads)
    ensures Panel.UpdateText(env, Light.Code(s)).Some?
    ensures var text := Panel.UpdateText(env, Light.Code(s)).value;
      loads(text).Some?
      && Home.DataPosts(PostEvent(DataTcp, obj := loads(text).value)).gui
         == [AppEvent(DeviceUpdate, PyNum(0.0), PyNum(0.0), loads(text).value)]
      && EspWidget.ReportedState(loads(text).value) == Returns(Some(s))
  {
    var code := Light.Code(s);
    UpdateDict(code);
    UpdateTextLoads(env, loads, code);
    var obj := ToPy(BuildTree(Name, Update, 0, ToInt32(code)));
    assert obj.entries["arg1"] == PyNum(code as real);
    assert EspWidget.HasValue(PyNum(code as real)) == Returns(true);
    assert Light.Code(EspWidget.StateOf(PyNum(code as real))) == code;
    assert Light.FromCode(code) == Some(s);
  }

  /** `AppHome`'s link states and GUI posts after handling `evs` in order. */
  function HomeRun(tcpState: PyValue, bleState: PyValue, evs: seq<AppEvent>): (PyValue, PyValue, seq<AppEvent>)
    decreases |evs|
  {
    if evs == [] then (tcpState, bleState, [])
    else
      var next := Home.NextStates(tcpState, bleState, evs[0]);
      var rest := HomeRun(next.0, next.1, evs[1..]);
      (rest.0, rest.1, Home.Route(tcpState, bleState, evs[0]).gui + rest.2)
  }

  /** The widget's `isConnected` after handling the GUI's forwards `feed` in order. */
  function WidgetRun(isConnected: bool, feed: seq<AppEvent>): bool
    decreases |feed|
  {
    if feed == [] then isConnected
    else
      var next := if feed[0].event == ConnectionUpdate then EspWidget.ConnectedAfter(isConnected, feed[0]) else isConnected;
      WidgetRun(next, feed[1..])
  }

  lemma {:induction false} WidgetRunAppend(c: bool, a: seq<AppEvent>, b: seq<AppEvent>)
    ensures WidgetRun(c, a + b) == WidgetRun(WidgetRun(c, a), b)
    decreases |a|
  {
    if a == [] {
      assert a + b == b;
    } else {
      assert (a + b)[0] == a[0] && (a + b)[1..] == a[1..] + b;
      var next := if a[0].event == ConnectionUpdate then EspWidget.ConnectedAfter(c, a[0]) else c;
      WidgetRunAppend(next, a[1..], b);
    }
  }

  /** One event keeps the two views of the TCP link in step. */
  lemma OneEventAgrees(tcpState: PyValue, bleState: PyValue, isConnected: bool, ev: AppEvent)
    requires (tcpState == Home.IsConnected) == isConnected
    ensures (Home.NextStates(tcpState, bleState, ev).0 == Home.IsConnected)
            == WidgetRun(isConnected, Home.Route(tcpState, bleState, ev).gui)
  {
    var gui := Home.Route(tcpState, bleState, ev).gui;
    if ev.event == ConnectionUpdate {
      assert gui == [PostEvent(ev.event, ev.arg0, ev.arg1)];
      assert gui[1..] == [];
      assert WidgetRun(isConnected, gui) == WidgetRun(EspWidget.ConnectedAfter(isConnected, gui[0]), []);
    } else if gui != [] {
      assert gui == [AppEvent(DeviceUpdate, PyNum(0.0), PyNum(0.0), ev.obj)];
      assert gui[1..] == [];
    }
  }

  /**
   * Fed every event `AppHome` forwards to the GUI, the widget shows the
   * link as up exactly when `AppHome` holds the TCP state `Connected`, so a
   * click on the widget reaches `AppHome` only when it will be sent on.
   */
  lemma {:induction false} LinkViewsAgree(tcpState: PyValue, bleState: PyValue, isConnected: bool, evs: seq<AppEvent>)
    requires (tcpState == Home.IsConnected) == isConnected
    ensures var r := HomeRun(tcpState, bleState, evs);
      (r.0 == Home.IsConnected) == WidgetRun(isConnected, r.2)
    decreases |evs|
  {
    if evs != [] {
      var next := Home.NextStates(tcpState, bleState, evs[0]);
      var gui := Home.Route(tcpState, bleState, evs[0]).gui;
      OneEventAgrees(tcpState, bleState, isConnected, evs[0]);
      LinkViewsAgree(next.0, next.1, WidgetRun(isConnected, gui), evs[1..]);
      WidgetRunAppend(isConnected, gui, HomeRun(next.0, next.1, evs[1..]).2);
    }
  }
}
