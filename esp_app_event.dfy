/**
 * Event identifiers and parameter codes shared by the ESP32 threads.
 * The header that defines them is not part of this model: the values below
 * are placeholders, and only their distinctness within one namespace is used.
 * `ButtonLampEspOn` is 2, the value the companion sends for its
 * `UserButton.LampEspOn`.
 */
module EspAppEvent {
  import opened Msg

  // event (the bus-level namespace)
  const EventNull: int16 := 0
  const EventApp: int16 := 1
  const EventSystem: int16 := 2

  // iParam of EventApp (AppTriggerSource)
  const AppUserCommand: int16 := 1
  const AppDeviceUpdate: int16 := 2
  const AppTcpConnection: int16 := 3

  // iParam of EventSystem (SystemTriggerSource)
  const SysSoftwareTimer: int16 := 1
  const SysButtonClick: int16 := 2
  const SysNetworkAvailable: int16 := 3

  // uParam of AppUserCommand
  const UsrReqUpdate: uint16 := 1
  const UsrClick: uint16 := 2

  // uParam of AppDeviceUpdate
  const DeviceLamp: uint16 := 1

  // lParam of a failed AppTcpConnection
  const ErrCreateSocket: uint32 := 1
  const ErrTaskCreate: uint32 := 2
  const ErrInvalidSocket: uint32 := 3
  const ErrDnsLookup: uint32 := 4
  const ErrConnect: uint32 := 5
  const ErrDisconnect: uint32 := 6

  // button identifiers carried in lParam of UsrClick
  const ButtonLampEspOn: uint32 := 2

  /** `postEvent(EventApp, AppTcpConnection, true)`. */
  function TcpConnected(): Message
  {
    Post(EventApp, AppTcpConnection, BoolParam(true))
  }

  /** `postEvent(EventApp, AppTcpConnection, false, reason)`. */
  function TcpFailed(reason: uint32): Message
  {
    Post(EventApp, AppTcpConnection, BoolParam(false), reason)
  }

  /** A message the worker posts to report the end of its connection attempt. */
  predicate IsTcpFailure(m: Message)
  {
    m.event == EventApp && m.iParam == AppTcpConnection && m.uParam == 0
  }
}
