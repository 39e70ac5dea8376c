/**
 * The ESP32 panel thread (`ThreadPanel`) and the starter of its TCP worker
 * (`TaskTcpClient::start`): it owns the connection to the companion, keeps
 * the connection state machine, sends lamp updates over the socket and
 * forwards the companion's commands to the main thread.
 *
 * Handlers run one at a time on the thread's own task. What the platform
 * answers during a handler (a new socket, the outcome of creating the
 * worker task, the JSON codec and its allocations) is an `Env` parameter.
 * Posts to the panel's own queue and to the main thread's queue are appended
 * to `ownQueue` and `mainQueue`; `send` calls are appended to `sent`.
 */
module Panel {
  import opened Wrappers
  import opened Msg
  import opened EspAppEvent
  import opened LampWire

  datatype ConnectionState = Undefine | Disconnect | Connecting | Connect

  /** A FreeRTOS task handle: NULL, or the worker task `id`. */
  datatype TaskHandle = NoTask | Task(id: nat)

  /** The outcome of `xTaskCreate`: a new task, or a failure to allocate one. */
  datatype SpawnResult = Spawned(id: nat) | SpawnFailed

  /** What the platform answers while one handler runs. */
  datatype Env = Env(socketResult: int, spawn: SpawnResult, codec: CJson, rootAllocated: bool, printAllocated: bool)

  /** One `send(sock, str, strlen(str), 0)` call. */
  datatype Sent = Sent(sock: int, text: string)

  /** The tasks a handle keeps track of. */
  function TaskSet(h: TaskHandle): set<nat>
  {
    if h.Task? then {h.id} else {}
  }

  /** `_sock` after `start` ran with it at `sock0`. */
  function StartedSock(env: Env, sock0: int): int
  {
    if env.socketResult < 0 then sock0 else env.socketResult
  }

  /** `_hTaskConnect` after `start` ran with it at `h0`. */
  function StartedTask(env: Env, h0: TaskHandle): TaskHandle
  {
    if env.socketResult >= 0 && env.spawn.Spawned? then Task(env.spawn.id) else h0
  }

  /** What `start` posts to the panel's own queue: a failure report if it could not start the worker. */
  function StartPosts(env: Env): (p: seq<Message>)
    ensures |p| <= 1 && (p != [] <==> StartedTask(env, NoTask) == NoTask)
    ensures forall m | m in p :: IsTcpFailure(m)
  {
    if env.socketResult < 0 then [TcpFailed(ErrCreateSocket)]
    else if env.spawn.SpawnFailed? then [TcpFailed(ErrTaskCreate)]
    else []
  }

  /** The sockets `closeSocket` shuts down when `_sock` is `sock`. */
  function Closing(sock: int): seq<int>
  {
    if sock != -1 then [sock] else []
  }

  /** The text `handlerUpdateDevice` sends for a lamp state, if building and printing succeed. */
  function UpdateText(env: Env, lParam: uint32): (r: Option<string>)
    ensures r.Some? <==> env.rootAllocated && env.printAllocated
    ensures Inverse(env.codec) && r.Some? ==> ParseText(env.codec, r.value) == Some(Fields(Name, Update, 0, ToInt32(lParam)))
  {
    if env.rootAllocated && env.printAllocated then
      assert '\0' !in Name && '\0' !in Update;
      WireRoundTripIfInverse(env.codec, Name, Update, 0, ToInt32(lParam));
      Some(env.codec.printUnformatted(BuildTree(Name, Update, 0, ToInt32(lParam))))
    else None
  }

  class ThreadPanel {
    var isNetworkAvailable: bool
    var connectionState: ConnectionState
    var sock: int
    var hTaskConnect: TaskHandle
    var ownQueue: seq<Message>
    var mainQueue: seq<Message>
    var sent: seq<Sent>
    /** Sockets shut down and closed, in order. */
    ghost var closed: seq<int>
    /** Worker tasks deleted with `vTaskDelete`, in order. */
    ghost var deleted: seq<nat>
    /** Worker tasks created and not yet deleted. */
    ghost var live: set<nat>

    /**
     * The state is never `Undefine`; a disconnected panel holds no worker;
     * the only live worker is the one `_hTaskConnect` names.
     */
    ghost predicate Valid()
      reads this
      ensures Valid() ==> |live| <= 1
    {
      connectionState != Undefine
      && (connectionState == Disconnect ==> hTaskConnect == NoTask)
      && live == TaskSet(hTaskConnect)
    }

    constructor()
      ensures Valid()
      ensures !isNetworkAvailable && connectionState == Disconnect && sock == -1 && hTaskConnect == NoTask
      ensures ownQueue == [] && mainQueue == [] && sent == [] && closed == [] && deleted == [] && live == {}
    {
      isNetworkAvailable := false;
      connectionState := Disconnect;
      sock := -1;
      hTaskConnect := NoTask;
      ownQueue := [];
      mainQueue := [];
      sent := [];
      closed := [];
      deleted := [];
      live := {};
    }

    /** `closeSocket()`: forgets the socket, shutting it down and closing it if there was one. */
    method CloseSocket()
      modifies this
      ensures sock == -1 && closed == old(closed) + Closing(old(sock))
      ensures isNetworkAvailable == old(isNetworkAvailable) && connectionState == old(connectionState)
      ensures hTaskConnect == old(hTaskConnect) && live == old(live) && deleted == old(deleted)
      ensures ownQueue == old(ownQueue) && mainQueue == old(mainQueue) && sent == old(sent)
    {
      var s := sock;
      sock := -1;
      if s != -1 {
        closed := closed + [s];
      }
    }

    /**
     * `TaskTcpClient::start(this)`: opens a socket and creates the worker
     * task; each failure is reported on the panel's own queue.
     */
    method StartTcpClient(env: Env)
      modifies this
      ensures sock == StartedSock(env, old(sock)) && hTaskConnect == StartedTask(env, old(hTaskConnect))
      ensures live == old(live) + (if StartedTask(env, NoTask).Task? then {env.spawn.id} else {})
      ensures ownQueue == old(ownQueue) + StartPosts(env)
      ensures isNetworkAvailable == old(isNetworkAvailable) && connectionState == old(connectionState)
      ensures mainQueue == old(mainQueue) && sent == old(sent) && closed == old(closed) && deleted == old(deleted)
    {
      if env.socketResult < 0 {
        ownQueue := ownQueue + [TcpFailed(ErrCreateSocket)];
        return;
      }
      sock := env.socketResult;
      match env.spawn {
        case Spawned(id) =>
          hTaskConnect := Task(id);
          live := live + {id};
        case SpawnFailed =>
          ownQueue := ownQueue + [TcpFailed(ErrTaskCreate)];
      }
    }

    /** The effect of `handlerUpdateDevice(msg)`: the lamp state goes out over the socket, if there is one. */
    twostate predicate UpdateDeviceDone(msg: Message, env: Env)
      reads this
    {
      (if msg.uParam == DeviceLamp && old(sock) >= 0 && UpdateText(env, msg.lParam).Some?
       then sent == old(sent) + [Sent(old(sock), UpdateText(env, msg.lParam).value)]
       else sent == old(sent))
      && isNetworkAvailable == old(isNetworkAvailable) && connectionState == old(connectionState)
      && sock == old(sock) && hTaskConnect == old(hTaskConnect)
      && ownQueue == old(ownQueue) && mainQueue == old(mainQueue)
      && closed == old(closed) && deleted == old(deleted) && live == old(live)
    }

    /** `handlerUpdateDevice(msg)`. */
    method HandlerUpdateDevice(msg: Message, env: Env)
      modifies this
      ensures UpdateDeviceDone(msg, env)
    {
      if msg.uParam != DeviceLamp || sock < 0 {
        return;
      }
      var state := ToInt32(msg.lParam);
      var model := new LampModel();
      var built := model.Build(Some(Name), Some(Update), 0, state, env.rootAllocated);
      if built {
        var str := model.Stringnify(env.codec, env.printAllocated);
        if str.Some? {
          sent := sent + [Sent(sock, str.value)];
        }
      }
      model.Dispose();
    }

    /** The effect of `handlerUserCommand(msg)`: the companion's commands are forwarded unchanged to the main thread. */
    twostate predicate UserCommandDone(msg: Message)
      reads this
    {
      mainQueue == old(mainQueue) + (if msg.uParam in {UsrReqUpdate, UsrClick} then [msg] else [])
      && isNetworkAvailable == old(isNetworkAvailable) && connectionState == old(connectionState)
      && sock == old(sock) && hTaskConnect == old(hTaskConnect)
      && ownQueue == old(ownQueue) && sent == old(sent)
      && closed == old(closed) && deleted == old(deleted) && live == old(live)
    }

    /** `handlerUserCommand(msg)`. */
    method HandlerUserCommand(msg: Message)
      modifies this
      ensures UserCommandDone(msg)
    {
      if msg.uParam == UsrReqUpdate || msg.uParam == UsrClick {
        mainQueue := mainQueue + [msg];
      }
    }

    /**
     * The effect of `handlerTcpConnection(msg)`: success marks the panel
     * connected; a failure closes the socket, deletes the worker, and, if
     * the network is up, starts a new worker.
     */
    twostate predicate TcpConnectionDone(msg: Message, env: Env)
      reads this
    {
      isNetworkAvailable == old(isNetworkAvailable) && mainQueue == old(mainQueue) && sent == old(sent)
      && if msg.uParam != 0 then
        connectionState == Connect
        && sock == old(sock) && hTaskConnect == old(hTaskConnect) && ownQueue == old(ownQueue)
        && closed == old(closed) && deleted == old(deleted) && live == old(live)
      else
        closed == old(closed) + Closing(old(sock))
        && deleted == old(deleted) + (if old(hTaskConnect).Task? then [old(hTaskConnect).id] else [])
        && live == (old(live) - TaskSet(old(hTaskConnect))) + TaskSet(hTaskConnect)
        && if old(isNetworkAvailable) then
          connectionState == Connecting && sock == StartedSock(env, -1)
          && hTaskConnect == StartedTask(env, NoTask) && ownQueue == old(ownQueue) + StartPosts(env)
        else
          connectionState == Disconnect && sock == -1 && hTaskConnect == NoTask && ownQueue == old(ownQueue)
    }

    /** Clears `_hTaskConnect` and deletes the worker it named, if any. */
    method ReleaseWorker()
      modifies this
      ensures hTaskConnect == NoTask && live == old(live) - TaskSet(old(hTaskConnect))
      ensures deleted == old(deleted) + (if old(hTaskConnect).Task? then [old(hTaskConnect).id] else [])
      ensures isNetworkAvailable == old(isNetworkAvailable) && connectionState == old(connectionState)
      ensures sock == old(sock) && closed == old(closed)
      ensures ownQueue == old(ownQueue) && mainQueue == old(mainQueue) && sent == old(sent)
    {
      var handle := hTaskConnect;
      hTaskConnect := NoTask;
      if handle.Task? {
        deleted := deleted + [handle.id];
        live := live - {handle.id};
      }
    }

    /** The first half of a failed connection: `Disconnect`, the socket closed and the worker deleted. */
    method TearDown()
      requires Valid()
      modifies this
      ensures connectionState == Disconnect && sock == -1 && hTaskConnect == NoTask && live == {}
      ensures closed == old(closed) + Closing(old(sock))
      ensures deleted == old(deleted) + (if old(hTaskConnect).Task? then [old(hTaskConnect).id] else [])
      ensures isNetworkAvailable == old(isNetworkAvailable) && mainQueue == old(mainQueue) && sent == old(sent)
      ensures ownQueue == old(ownQueue)
    {
      connectionState := Disconnect;
      CloseSocket();
      ReleaseWorker();
    }

    /**
     * The failure branch of `handlerTcpConnection`: the socket is closed,
     * the worker deleted, and a new one started only if the network is up.
     */
    method ConnectionFailed(env: Env)
      requires Valid()
      modifies this
      ensures Valid()
      ensures isNetworkAvailable == old(isNetworkAvailable) && mainQueue == old(mainQueue) && sent == old(sent)
      ensures closed == old(closed) + Closing(old(sock))
      ensures deleted == old(deleted) + (if old(hTaskConnect).Task? then [old(hTaskConnect).id] else [])
      ensures live == (old(live) - TaskSet(old(hTaskConnect))) + TaskSet(hTaskConnect)
      ensures old(isNetworkAvailable) ==>
        connectionState == Connecting && sock == StartedSock(env, -1)
        && hTaskConnect == StartedTask(env, NoTask) && ownQueue == old(ownQueue) + StartPosts(env)
      ensures !old(isNetworkAvailable) ==>
        connectionState == Disconnect && sock == -1 && hTaskConnect == NoTask && ownQueue == old(ownQueue)
    {
      TearDown();
      if isNetworkAvailable {
        connectionState := Connecting;
        StartTcpClient(env);
      }
    }

    /** `handlerTcpConnection(msg)`; the three-second delay before reconnecting is not modelled. */
    method HandlerTcpConnection(msg: Message, env: Env)
      requires Valid()
      modifies this
      ensures Valid()
      ensures TcpConnectionDone(msg, env)
    {
      if msg.uParam != 0 {
        connectionState := Connect;
        return;
      }
      ConnectionFailed(env);
    }

    /**
     * The effect of `handlerNetworkAvailable(msg)`: the network coming up
     * while disconnected starts a worker; any other report closes the
     * socket. The flag always follows the report.
     */
    twostate predicate NetworkAvailableDone(msg: Message, env: Env)
      reads this
    {
      isNetworkAvailable == (msg.uParam != 0) && mainQueue == old(mainQueue) && sent == old(sent)
      && deleted == old(deleted)
      && if msg.uParam != 0 && old(connectionState) == Disconnect then
        connectionState == Connecting && closed == old(closed)
        && sock == StartedSock(env, old(sock)) && hTaskConnect == StartedTask(env, old(hTaskConnect))
        && live == old(live) + TaskSet(StartedTask(env, NoTask)) && ownQueue == old(ownQueue) + StartPosts(env)
      else
        connectionState == old(connectionState) && sock == -1 && closed == old(closed) + Closing(old(sock))
        && hTaskConnect == old(hTaskConnect) && live == old(live) && ownQueue == old(ownQueue)
    }

    /** `handlerNetworkAvailable(msg)`. */
    method HandlerNetworkAvailable(msg: Message, env: Env)
      requires Valid()
      modifies this
      ensures Valid()
      ensures NetworkAvailableDone(msg, env)
    {
      var isAvailable := msg.uParam != 0;
      if isAvailable && connectionState == Disconnect {
        connectionState := Connecting;
        StartTcpClient(env);
      } else {
        CloseSocket();
      }
      isNetworkAvailable := isAvailable;
    }

    /** `handlerEventApp(msg)`: dispatch on the trigger source. */
    method HandlerEventApp(msg: Message, env: Env)
      requires Valid()
      modifies this
      ensures Valid()
      ensures msg.iParam == AppDeviceUpdate ==> UpdateDeviceDone(msg, env)
      ensures msg.iParam == AppTcpConnection ==> TcpConnectionDone(msg, env)
      ensures msg.iParam == AppUserCommand ==> UserCommandDone(msg)
      ensures msg.iParam !in {AppDeviceUpdate, AppTcpConnection, AppUserCommand} ==> unchanged(this)
    {
      if msg.iParam == AppDeviceUpdate {
        HandlerUpdateDevice(msg, env);
      } else if msg.iParam == AppTcpConnection {
        HandlerTcpConnection(msg, env);
      } else if msg.iParam == AppUserCommand {
        HandlerUserCommand(msg);
      }
    }

    /** `handlerEventSystem(msg)`: the timer handler only logs. */
    method HandlerEventSystem(msg: Message, env: Env)
      requires Valid()
      modifies this
      ensures Valid()
      ensures msg.iParam == SysNetworkAvailable ==> NetworkAvailableDone(msg, env)
      ensures msg.iParam != SysNetworkAvailable ==> unchanged(this)
    {
      if msg.iParam == SysNetworkAvailable {
        HandlerNetworkAvailable(msg, env);
      }
    }

    /**
     * `onMessage(msg)`: the handler map holds `EventApp`, `EventSystem` and
     * `EventNull` (which only logs); any other event is dropped.
     */
    method OnMessage(msg: Message, env: Env)
      requires Valid()
      modifies this
      ensures Valid()
      ensures msg.event == EventApp && msg.iParam == AppDeviceUpdate ==> UpdateDeviceDone(msg, env)
      ensures msg.event == EventApp && msg.iParam == AppTcpConnection ==> TcpConnectionDone(msg, env)
      ensures msg.event == EventApp && msg.iParam == AppUserCommand ==> UserCommandDone(msg)
      ensures msg.event == EventSystem && msg.iParam == SysNetworkAvailable ==> NetworkAvailableDone(msg, env)
      ensures (!(msg.event == EventApp && msg.iParam in {AppDeviceUpdate, AppTcpConnection, AppUserCommand})
               && !(msg.event == EventSystem && msg.iParam == SysNetworkAvailable)) ==> unchanged(this)
    {
      if msg.event == EventApp {
        HandlerEventApp(msg, env);
      } else if msg.event == EventSystem {
        HandlerEventSystem(msg, env);
      }
    }
  }
}
