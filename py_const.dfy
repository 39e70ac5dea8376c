/**
 * The companion controller's vocabulary: the enums of const.py, the
 * Python values its components pass around, and the `AppEvent` record
 * that `postEvent` fires.
 */
module PyConst {
  /** `EventValue`. */
  datatype EventValue = Null | Timer | ConnectionUpdate | DeviceUpdate | DeviceReqUpdate | DataTcp | DataBle | UserInput

  /** `ConnectionType`. */
  datatype ConnectionType = Tcp | Ble

  /** `ConnectionState`. */
  datatype ConnectionState = Connected | Disconnected

  /** `UserButton`. */
  datatype UserButton = LampNrfOnOff | LampEspOn

  /**
   * The Python values that reach the core: `None`, booleans, numbers
   * (`int` and `float` compare and hash by numeric value, which is all the
   * core relies on, so one real-valued case covers both), strings, the
   * lists and string-keyed dicts that `json.loads` produces, and members
   * of the enums above. Equality of two values is Python's `==` whenever
   * one side is a string, an enum member or `None`, the only comparisons
   * the core makes.
   */
  datatype PyValue =
    | PyNone
    | PyBool(b: bool)
    | PyNum(r: real)
    | PyStr(s: string)
    | PyList(items: seq<PyValue>)
    | PyDict(entries: map<string, PyValue>)
    | PyConnType(t: ConnectionType)
    | PyConnState(cs: ConnectionState)
    | PyButton(button: UserButton)

  /** A Python outcome: a value, or an exception that the event loop catches and logs. */
  datatype Outcome<T> = Returns(value: T) | Raises

  /** `obj[key]` for a string key: the entry of a dict, `KeyError` for a missing key, `TypeError` for any other value. */
  function Subscript(obj: PyValue, key: string): (r: Outcome<PyValue>)
    ensures r.Returns? <==> obj.PyDict? && key in obj.entries
    ensures r.Returns? ==> r.value == obj.entries[key]
  {
    if obj.PyDict? && key in obj.entries then Returns(obj.entries[key]) else Raises
  }

  /** `AppEvent(event, arg0, arg1, obj)`. */
  datatype AppEvent = AppEvent(event: EventValue, arg0: PyValue, arg1: PyValue, obj: PyValue)

  /** The event `postEvent(event, arg0=0, arg1=0, obj=None)` fires. */
  function PostEvent(event: EventValue, arg0: PyValue := PyNum(0.0), arg1: PyValue := PyNum(0.0), obj: PyValue := PyNone): AppEvent
  {
    AppEvent(event, arg0, arg1, obj)
  }
}
