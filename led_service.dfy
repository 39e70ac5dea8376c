/**
 * The nRF52840 LED GATT service (`led_service.c`): one characteristic that
 * a central writes to set the LED and reads to learn its state, with
 * notifications of changes once the central has enabled them.
 *
 * The module's static state (the registered callbacks and the notification
 * flag) is the `LedService` object; the write and read handlers are
 * functions of that state and of the request.
 */
module LedGatt {
  import opened Wrappers
  import opened Msg

  // ATT error codes, returned negated by BT_GATT_ERR
  const AttErrInvalidOffset: int := 0x07
  const AttErrInvalidAttributeLen: int := 0x0D
  const AttErrValueNotAllowed: int := 0x13

  /** The client configuration value that enables notifications. */
  const CccNotify: uint16 := 0x0001

  /** Zephyr's `EACCES`. */
  const EACCES: int := 13

  function GattErr(att: int): int
  {
    -att
  }

  /** Which of `led_service_cb`'s two callbacks are registered (non-NULL). */
  datatype Callbacks = Callbacks(write: bool, read: bool)

  /** The value `onChrcWrite` returns, and the argument it passed to the write callback, if it called it. */
  datatype WriteResult = WriteResult(ret: int, written: Option<bool>)

  /**
   * `onChrcWrite`: exactly one byte at offset 0 is accepted; when a write
   * callback is registered, only 0 and 1 are allowed, and the callback
   * receives whether the byte was 1.
   */
  function OnChrcWrite(writeRegistered: bool, data: seq<uint8>, offset: uint16): (r: WriteResult)
    requires |data| <= 0xFFFF
    ensures r.ret >= 0 <==> |data| == 1 && offset == 0 && (writeRegistered ==> data[0] <= 1)
    ensures r.ret >= 0 ==> r.ret == 1
    ensures |data| != 1 ==> r.ret == GattErr(AttErrInvalidAttributeLen)
    ensures |data| == 1 && offset != 0 ==> r.ret == GattErr(AttErrInvalidOffset)
    ensures |data| == 1 && offset == 0 && writeRegistered && data[0] > 1 ==> r.ret == GattErr(AttErrValueNotAllowed)
    ensures r.written.Some? <==> r.ret >= 0 && writeRegistered
    ensures r.written.Some? ==> r.written.value == (data[0] == 1)
  {
    if |data| != 1 then WriteResult(GattErr(AttErrInvalidAttributeLen), None)
    else if offset != 0 then WriteResult(GattErr(AttErrInvalidOffset), None)
    else if writeRegistered then
      var val := data[0];
      if val == 0 || val == 1 then WriteResult(|data|, Some(val != 0))
      else WriteResult(GattErr(AttErrValueNotAllowed), None)
    else WriteResult(|data|, None)
  }

  /** What `onChrcRead` does: hand `state` to `bt_gatt_attr_read`, or answer 0. */
  datatype ReadResult = ReadsValue(state: bool) | ReadsNothing

  /** `onChrcRead`: the read callback's state is served when one is registered. */
  function OnChrcRead(readRegistered: bool, state: bool): (r: ReadResult)
    ensures r.ReadsValue? <==> readRegistered
    ensures r.ReadsValue? ==> r.state == state
  {
    if readRegistered then ReadsValue(state) else ReadsNothing
  }

  /** The service's static state. */
  class LedService {
    var callbacks: Callbacks
    var notifyEnabled: bool
    /** Values handed to `bt_gatt_notify`, in order. */
    var notified: seq<bool>

    /** Static storage starts zeroed: no callbacks, notifications off. */
    constructor()
      ensures callbacks == Callbacks(false, false) && !notifyEnabled && notified == []
    {
      callbacks := Callbacks(false, false);
      notifyEnabled := false;
      notified := [];
    }

    /** `ble_led_service_init(cb)`: copies both callbacks unless `cb` is NULL; always answers 0. */
    method Init(cb: Option<Callbacks>) returns (r: int)
      modifies this
      ensures r == 0
      ensures callbacks == if cb.Some? then cb.value else old(callbacks)
      ensures notifyEnabled == old(notifyEnabled) && notified == old(notified)
    {
      if cb.Some? {
        callbacks := cb.value;
      }
      r := 0;
    }

    /** `onCccChanged(value)`: notifications are on exactly when the value is `BT_GATT_CCC_NOTIFY`. */
    method OnCccChanged(value: uint16)
      modifies this
      ensures notifyEnabled == (value == CccNotify)
      ensures callbacks == old(callbacks) && notified == old(notified)
    {
      notifyEnabled := value == CccNotify;
    }

    /**
     * `ble_led_notify(value)`: only a central that enabled notifications is
     * notified, and the call answers what `bt_gatt_notify` answers
     * (`stackAnswer`); otherwise it answers `-EACCES`.
     */
    method Notify(value: bool, stackAnswer: int) returns (r: int)
      modifies this
      ensures r == if notifyEnabled then stackAnswer else -EACCES
      ensures notified == old(notified) + (if notifyEnabled then [value] else [])
      ensures callbacks == old(callbacks) && notifyEnabled == old(notifyEnabled)
    {
      if notifyEnabled {
        notified := notified + [value];
        r := stackAnswer;
      } else {
        r := -EACCES;
      }
    }
  }
}
