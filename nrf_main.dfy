/**
 * The nRF52840 main task (`MainTask` in main.cpp) and the callbacks that
 * feed it: the user button, the LED characteristic's write and read
 * callbacks, and the BLE connection reports. The task owns the LED state;
 * the callbacks only post messages to its queue, which the task handles
 * one at a time.
 *
 * The event codes come from a header that is not part of this model; the
 * values below are placeholders, distinct within each namespace. The BLE
 * connection states are those of BleConst.h.
 */
module NrfMain {
  import opened Wrappers
  import opened Msg
  import opened Zephyr
  import opened LedGatt

  const EventNull: int16 := 0
  const EventUserInput: int16 := 1
  const EventBleConnection: int16 := 2
  const EventBleLed: int16 := 3

  const ActionToggleLed: int16 := 1
  const ActionSetLed: int16 := 2

  const BleConnectionUnknown: int16 := 0
  const BleDisconnected: int16 := 1
  const BleConnected: int16 := 2

  /** `TASK_QUEUE_SIZE`. */
  const TaskQueueSize: nat := 32

  /** `USER_BUTTON` = `DK_BTN1_MSK`, the mask of the first button. */
  const UserButtonMask: uint32 := 1

  /** The two board LEDs the task drives: `USER_LED` and `CON_STATUS_LED`. */
  datatype Led = UserLed | ConStatusLed

  /** One `dk_set_led`/`dk_set_led_on`/`dk_set_led_off` call. */
  datatype LedWrite = LedWrite(led: Led, on: bool)

  /** `!button_state && has_changed & USER_BUTTON`: no button is held and the first one changed. */
  function ToggleRequested(buttonState: uint32, hasChanged: uint32): (r: bool)
    ensures r ==> buttonState == 0
    ensures r <==> buttonState == 0 && hasChanged % 2 == 1
  {
    buttonState == 0 && hasChanged % (2 * UserButtonMask) / UserButtonMask != 0
  }

  /** What the write callback posts for a new LED state. */
  function SetLedMessage(b: bool): (m: Message)
    ensures m.event == EventBleLed && m.iParam == ActionSetLed && m.uParam == 0
    ensures (m.lParam != 0) == b && m.lParam <= 1
  {
    Post(EventBleLed, ActionSetLed, 0, BoolParam(b))
  }

  class MainTask {
    const taskQueue: KMsgq
    const bus: MessageQueue
    const service: LedService
    var ledState: bool
    var ledWrites: seq<LedWrite>

    /** The task posts to its own queue, which keeps its capacity. */
    ghost predicate Valid()
      reads this, taskQueue
    {
      bus.queueRef == taskQueue && taskQueue.Valid() && taskQueue.maxMsgs == TaskQueueSize
    }

    /** `MainTask()`: bound to `taskQueue`, LED off. */
    constructor(service: LedService)
      ensures Valid() && fresh(taskQueue) && fresh(bus) && this.service == service
      ensures taskQueue.contents == [] && !ledState && ledWrites == []
    {
      var q := new KMsgq(TaskQueueSize);
      taskQueue := q;
      bus := new MessageQueue(q);
      this.service := service;
      ledState := false;
      ledWrites := [];
    }

    /** `start()`: shows the LED state and turns the connection LED off. */
    method Start()
      modifies this
      ensures ledWrites == old(ledWrites) + [LedWrite(UserLed, ledState), LedWrite(ConStatusLed, false)]
      ensures ledState == old(ledState)
    {
      ledWrites := ledWrites + [LedWrite(UserLed, ledState), LedWrite(ConStatusLed, false)];
    }

    /** `getLedState()`. */
    function GetLedState(): (b: bool)
      reads this
      ensures b == ledState
    {
      ledState
    }

    /** The effect of `setLedState(b)`: the state, the LED and, if enabled, a notification all carry `b`. */
    twostate predicate SetLedStateDone(b: bool)
      reads this, service
    {
      ledState == b && ledWrites == old(ledWrites) + [LedWrite(UserLed, b)]
      && service.notified == old(service.notified) + (if old(service.notifyEnabled) then [b] else [])
      && service.notifyEnabled == old(service.notifyEnabled) && service.callbacks == old(service.callbacks)
    }

    /** `setLedState(b)`. */
    method SetLedState(b: bool)
      modifies this, service
      ensures SetLedStateDone(b)
    {
      ledState := b;
      ledWrites := ledWrites + [LedWrite(UserLed, b)];
      // The answer of `ble_led_notify` is discarded, so what the stack answers does not matter.
      var _ := service.Notify(b, 0);
    }

    /** `toggleLedState()`. */
    method ToggleLedState()
      modifies this, service
      ensures SetLedStateDone(!old(ledState))
    {
      SetLedState(!ledState);
    }

    /** The effect of `onMessage(msg)` on the LEDs and the service. */
    twostate predicate MessageDone(msg: Message)
      reads this, service
    {
      if msg.event == EventUserInput && msg.iParam == ActionToggleLed then
        SetLedStateDone(!old(ledState))
      else if msg.event == EventBleLed && msg.iParam == ActionSetLed then
        SetLedStateDone(msg.lParam != 0)
      else if msg.event == EventBleConnection && msg.iParam in {BleDisconnected, BleConnected} then
        ledState == old(ledState) && ledWrites == old(ledWrites) + [LedWrite(ConStatusLed, msg.iParam == BleConnected)]
        && unchanged(service)
      else
        ledState == old(ledState) && ledWrites == old(ledWrites) && unchanged(service)
    }

    /** `handlerEventUserInput(msg)`. */
    method HandlerEventUserInput(msg: Message)
      requires msg.event == EventUserInput
      modifies this, service
      ensures MessageDone(msg)
    {
      if msg.iParam == ActionToggleLed {
        ToggleLedState();
      }
    }

    /** `handlerEventBleConnection(msg)`: the connection LED follows the link. */
    method HandlerEventBleConnection(msg: Message)
      requires msg.event == EventBleConnection
      modifies this
      ensures MessageDone(msg)
    {
      if msg.iParam == BleDisconnected {
        ledWrites := ledWrites + [LedWrite(ConStatusLed, false)];
      } else if msg.iParam == BleConnected {
        ledWrites := ledWrites + [LedWrite(ConStatusLed, true)];
      }
    }

    /** `handlerEventBleLed(msg)`: any non-zero `lParam` turns the LED on. */
    method HandlerEventBleLed(msg: Message)
      requires msg.event == EventBleLed
      modifies this, service
      ensures MessageDone(msg)
    {
      if msg.iParam == ActionSetLed {
        SetLedState(msg.lParam != 0);
      }
    }

    /** `onMessage(msg)`: the handler map holds the three events above and `EventNull` (which only logs). */
    method OnMessage(msg: Message)
      modifies this, service
      ensures MessageDone(msg)
    {
      if msg.event == EventUserInput {
        HandlerEventUserInput(msg);
      } else if msg.event == EventBleConnection {
        HandlerEventBleConnection(msg);
      } else if msg.event == EventBleLed {
        HandlerEventBleLed(msg);
      }
    }
  }

  /** `postMainEvent(event, iParam, uParam, lParam)`: a post to the main task's queue. */
  method PostMainEvent(task: MainTask, event: int16, iParam: int16, uParam: uint16, lParam: uint32)
    requires task.Valid()
    modifies task.taskQueue
    ensures task.Valid()
    ensures task.taskQueue.contents
            == Enqueued(old(task.taskQueue.contents), TaskQueueSize, Message(event, iParam, uParam, lParam))
  {
    task.bus.PostEvent(event, iParam, uParam, lParam);
  }

  /** `button_changed(button_state, has_changed)`: releasing the first button requests a toggle. */
  method ButtonChanged(task: MainTask, buttonState: uint32, hasChanged: uint32)
    requires task.Valid()
    modifies task.taskQueue
    ensures task.Valid()
    ensures task.taskQueue.contents == if ToggleRequested(buttonState, hasChanged)
      then Enqueued(old(task.taskQueue.contents), TaskQueueSize, Post(EventUserInput, ActionToggleLed))
      else old(task.taskQueue.contents)
  {
    if ToggleRequested(buttonState, hasChanged) {
      task.bus.PostEvent(EventUserInput, ActionToggleLed);
    }
  }

  /** `onLedChrcWrite(b)`: the registered write callback. */
  method OnLedChrcWrite(task: MainTask, b: bool)
    requires task.Valid()
    modifies task.taskQueue
    ensures task.Valid()
    ensures task.taskQueue.contents == Enqueued(old(task.taskQueue.contents), TaskQueueSize, SetLedMessage(b))
  {
    PostMainEvent(task, EventBleLed, ActionSetLed, 0, BoolParam(b));
  }

  /** `onLedChrcRead()`: the registered read callback. */
  function OnLedChrcRead(task: MainTask): (b: bool)
    reads task
    ensures b == task.ledState
  {
    task.GetLedState()
  }

  /**
   * A GATT write of the LED characteristic: `onChrcWrite` over the
   * service's callbacks, the registered write callback being `onLedChrcWrite`.
   */
  method GattWrite(task: MainTask, data: seq<uint8>, offset: uint16) returns (ret: int)
    requires task.Valid() && |data| <= 0xFFFF
    modifies task.taskQueue
    ensures task.Valid()
    ensures ret == OnChrcWrite(task.service.callbacks.write, data, offset).ret
    ensures var w := OnChrcWrite(task.service.callbacks.write, data, offset).written;
      task.taskQueue.contents == if w.Some?
        then Enqueued(old(task.taskQueue.contents), TaskQueueSize, SetLedMessage(w.value))
        else old(task.taskQueue.contents)
  {
    var r := OnChrcWrite(task.service.callbacks.write, data, offset);
    if r.written.Some? {
      OnLedChrcWrite(task, r.written.value);
    }
    ret := r.ret;
  }

  /** A GATT read of the LED characteristic, the registered read callback being `onLedChrcRead`. */
  function GattRead(task: MainTask): (r: ReadResult)
    reads task, task.service
    ensures r.ReadsValue? <==> task.service.callbacks.read
    ensures r.ReadsValue? ==> r.state == task.ledState
  {
    OnChrcRead(task.service.callbacks.read, OnLedChrcRead(task))
  }

  /**
   * A central writes one byte (0 or 1) to the LED characteristic of a task
   * whose callbacks are registered and whose queue is empty; once the task
   * handles the message that write posted, a read serves the written value.
   */
  method WriteThenRead(task: MainTask, byte: uint8) returns (ret: int, read: ReadResult)
    requires task.Valid() && task.taskQueue.contents == [] && byte <= 1
    requires task.service.callbacks == Callbacks(true, true)
    modifies task, task.taskQueue, task.service
    ensures ret == 1 && read == ReadsValue(byte == 1)
  {
    ret := GattWrite(task, [byte], 0);
    assert task.taskQueue.contents == [SetLedMessage(byte == 1)];
    task.OnMessage(task.taskQueue.contents[0]);
    read := GattRead(task);
  }
}
