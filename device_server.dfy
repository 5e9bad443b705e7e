/**
 * The start-up sequence of a device server: `main` loads the configuration
 * named on the command line and builds a `DeviceServer`, whose constructor
 * creates the device through the factory, connects, optionally starts the
 * watchdog, reads until the device stops, then logs the device name, closes
 * the device and shuts the framework down.
 *
 * The framework object, the device, the watchdog and the factory are
 * collaborators whose code is not part of this model: each records the call
 * it receives in the framework's ghost event trace, and the outcome of each
 * call is fixed by the configuration it was given.  `shutdown` is terminal:
 * once it has run, no collaborator accepts a call.
 */
module DeviceLifecycle {
  import opened Nullable

  /** The device the factory builds for the configured device name: its friendly name and whether `connect` succeeds. */
  datatype DeviceSpec = DeviceSpec(name: string, connects: bool)

  /**
   * What a properties file configures, as far as the server sees it: the
   * `enableWatchDog` flag and the device the factory creates (None when the
   * factory returns null).
   */
  datatype Config = Config(enableWatchDog: bool, device: Option<DeviceSpec>)

  /** The log lines the server writes. */
  datatype Message = CantCreate | CantConnect | ClosedDeviceName(name: string)

  /** A call the server makes on one of its collaborators. */
  datatype Event =
    | InitFrom(path: string)
    | LogError(message: Message)
    | LogInfo(message: Message)
    | ShutdownCalled
    | ConnectCalled
    | WatchDogStarted
    | ReadDeviceCalled
    | GetDeviceNameCalled
    | CloseCalled

  // ------------------------------------------------------ collaborators

  /** The framework singleton: configuration, logging and shutdown. */
  class ZephyrOpen {
    var config: Config
    var terminated: bool
    ghost var events: seq<Event>

    /** `ZephyrOpen.getReference()`, before anything has been logged. */
    constructor (config: Config)
      ensures this.config == config && !terminated && events == []
    {
      this.config := config;
      terminated := false;
      events := [];
    }

    /** `init(path)`: the properties at `path` (given as `loaded`) become the configuration. */
    method Init(path: string, loaded: Config)
      requires !terminated
      modifies this`config, this`events
      ensures config == loaded && events == old(events) + [InitFrom(path)]
    {
      config := loaded;
      events := events + [InitFrom(path)];
    }

    /** `getBoolean(enableWatchDog)`. */
    function WatchDogEnabled(): bool
      reads this
    {
      config.enableWatchDog
    }

    method Error(message: Message)
      requires !terminated
      modifies this`events
      ensures events == old(events) + [LogError(message)]
    {
      events := events + [LogError(message)];
    }

    method Info(message: Message)
      requires !terminated
      modifies this`events
      ensures events == old(events) + [LogInfo(message)]
    {
      events := events + [LogInfo(message)];
    }

    /** `shutdown()`: the process ends, so nothing runs after it. */
    method Shutdown()
      requires !terminated
      modifies this`terminated, this`events
      ensures terminated && events == old(events) + [ShutdownCalled]
    {
      events := events + [ShutdownCalled];
      terminated := true;
    }
  }

  /** A device built by the factory. */
  class Device {
    const spec: DeviceSpec
    const constants: ZephyrOpen

    constructor (spec: DeviceSpec, constants: ZephyrOpen)
      ensures this.spec == spec && this.constants == constants
    {
      this.spec := spec;
      this.constants := constants;
    }

    method Connect() returns (connected: bool)
      requires !constants.terminated
      modifies constants`events
      ensures connected == spec.connects
      ensures constants.events == old(constants.events) + [ConnectCalled]
    {
      constants.events := constants.events + [ConnectCalled];
      connected := spec.connects;
    }

    /** The blocking read loop; it returns when the data stream ends. */
    method ReadDevice()
      requires !constants.terminated
      modifies constants`events
      ensures constants.events == old(constants.events) + [ReadDeviceCalled]
    {
      constants.events := constants.events + [ReadDeviceCalled];
    }

    method GetDeviceName() returns (name: string)
      requires !constants.terminated
      modifies constants`events
      ensures name == spec.name
      ensures constants.events == old(constants.events) + [GetDeviceNameCalled]
    {
      constants.events := constants.events + [GetDeviceNameCalled];
      name := spec.name;
    }

    method Close()
      requires !constants.terminated
      modifies constants`events
      ensures constants.events == old(constants.events) + [CloseCalled]
    {
      constants.events := constants.events + [CloseCalled];
    }
  }

  /** The watchdog over a connected device; only its start is modelled. */
  class WatchDog {
    const device: Device

    constructor (device: Device)
      ensures this.device == device
    {
      this.device := device;
    }

    method Start()
      requires !device.constants.terminated
      modifies device.constants`events
      ensures device.constants.events == old(device.constants.events) + [WatchDogStarted]
    {
      device.constants.events := device.constants.events + [WatchDogStarted];
    }
  }

  /** `DeviceFactory.create()`: the device the configuration names, or null. */
  method CreateDevice(constants: ZephyrOpen) returns (device: Device?)
    ensures device == null <==> constants.config.device.None?
    ensures device != null ==> fresh(device) && device.spec == constants.config.device.value && device.constants == constants
  {
    match constants.config.device
    case None => device := null;
    case Some(spec) => device := new Device(spec, constants);
  }

  // ------------------------------------------------------------- server

  /** The calls the constructor makes, for the device the factory returns and the watchdog flag. */
  function Lifecycle(device: Option<DeviceSpec>, watchDog: bool): seq<Event>
  {
    match device
    case None => [LogError(CantCreate), ShutdownCalled]
    case Some(d) =>
      var session :=
        if d.connects then (if watchDog then [WatchDogStarted] else []) + [ReadDeviceCalled]
        else [LogInfo(CantConnect)];
      [ConnectCalled] + session + Tail(d)
  }

  /** What runs on both paths once a device exists: log its name, close it, shut down. */
  function Tail(d: DeviceSpec): seq<Event>
  {
    [GetDeviceNameCalled, LogInfo(ClosedDeviceName(d.name)), CloseCalled, ShutdownCalled]
  }

  class DeviceServer {
    const constants: ZephyrOpen
    var device: Device?

    /** `DeviceServer()`: runs the whole lifecycle and ends with the framework shut down. */
    constructor (constants: ZephyrOpen)
      requires !constants.terminated
      modifies constants`events, constants`terminated
      ensures this.constants == constants && constants.terminated
      ensures device == null <==> constants.config.device.None?
      ensures constants.events ==
              old(constants.events) + Lifecycle(constants.config.device, constants.config.enableWatchDog)
    {
      this.constants := constants;
      device := null;
      new;
      var d := CreateDevice(constants);
      device := d;
      if d == null {
        constants.Error(CantCreate);
        constants.Shutdown();
      } else {
        ghost var before := constants.events;
        var connected := d.Connect();
        ghost var session: seq<Event>;
        if connected {
          session := [];
          if constants.WatchDogEnabled() {
            var dog := new WatchDog(d);
            dog.Start();
            session := [WatchDogStarted];
          }
          d.ReadDevice();
          session := session + [ReadDeviceCalled];
        } else {
          constants.Info(CantConnect);
          session := [LogInfo(CantConnect)];
        }
        ghost var head := before + [ConnectCalled] + session;
        assert constants.events == head;
        var name := d.GetDeviceName();
        constants.Info(ClosedDeviceName(name));
        d.Close();
        constants.Shutdown();
        assert constants.events == head + Tail(d.spec);
      }
    }
  }

  /** `main(args)`: with exactly one argument, load that properties file (as `loaded`) and run a server. */
  method Launch(args: seq<string>, constants: ZephyrOpen, loaded: Config)
    requires !constants.terminated
    modifies constants
    ensures |args| == 1 ==>
              constants.terminated &&
              constants.events == old(constants.events) + [InitFrom(args[0])] +
                                  Lifecycle(loaded.device, loaded.enableWatchDog)
    ensures |args| != 1 ==> constants.events == old(constants.events) && !constants.terminated
    ensures constants.config == if |args| == 1 then loaded else old(constants.config)
  {
    if |args| == 1 {
      constants.Init(args[0], loaded);
      var server := new DeviceServer(constants);
    }
  }

  // --------------------------------------------------------- properties

  /** How often `e` occurs in `events`. */
  function Count(events: seq<Event>, e: Event): (n: nat)
    ensures n <= |events|
    ensures n == 0 <==> e !in events
  {
    if events == [] then 0 else (if events[0] == e then 1 else 0) + Count(events[1..], e)
  }

  lemma {:induction false} CountAppend(a: seq<Event>, b: seq<Event>, e: Event)
    ensures Count(a + b, e) == Count(a, e) + Count(b, e)
    decreases |a|
  {
    if a == [] {
      assert a + b == b;
    } else {
      assert (a + b)[1..] == a[1..] + b;
      CountAppend(a[1..], b, e);
    }
  }

  lemma CountSingle(x: Event, e: Event)
    ensures Count([x], e) == if x == e then 1 else 0
  {
    assert [x][1..] == [];
  }

  /** The counts in a lifecycle that has a device, split into its three parts. */
  lemma {:induction false} CountLifecycle(d: DeviceSpec, watchDog: bool, e: Event)
    ensures var session := Lifecycle(Some(d), watchDog)[1..|Lifecycle(Some(d), watchDog)| - 4];
      && Lifecycle(Some(d), watchDog) == [ConnectCalled] + session + Tail(d)
      && Count(Lifecycle(Some(d), watchDog), e) == Count([ConnectCalled], e) + Count(session, e) + Count(Tail(d), e)
      && (session == if d.connects then (if watchDog then [WatchDogStarted] else []) + [ReadDeviceCalled]
                     else [LogInfo(CantConnect)])
  {
    var session := if d.connects then (if watchDog then [WatchDogStarted] else []) + [ReadDeviceCalled]
                   else [LogInfo(CantConnect)];
    var ev := Lifecycle(Some(d), watchDog);
    assert ev == [ConnectCalled] + session + Tail(d);
    assert ev[1..|ev| - 4] == session;
    CountAppend([ConnectCalled] + session, Tail(d), e);
    CountAppend([ConnectCalled], session, e);
  }

  /**
   * With no device, the error is logged and the framework shut down, and no
   * device call, watchdog or read happens.
   */
  lemma NullDeviceShutsDown(watchDog: bool)
    ensures var ev := Lifecycle(None, watchDog);
      && ev[0] == LogError(CantCreate) && ev[|ev| - 1] == ShutdownCalled
      && ConnectCalled !in ev && ReadDeviceCalled !in ev && WatchDogStarted !in ev
      && GetDeviceNameCalled !in ev && CloseCalled !in ev
  {
  }

  /** A created device is connected exactly once and closed exactly once; without one, neither happens. */
  lemma {:induction false} ConnectAndCloseOnce(device: Option<DeviceSpec>, watchDog: bool)
    ensures Count(Lifecycle(device, watchDog), ConnectCalled) == (if device.Some? then 1 else 0)
    ensures Count(Lifecycle(device, watchDog), CloseCalled) == (if device.Some? then 1 else 0)
    ensures Count(Lifecycle(device, watchDog), GetDeviceNameCalled) == (if device.Some? then 1 else 0)
  {
    if device.Some? {
      var d := device.value;
      CountLifecycle(d, watchDog, ConnectCalled);
      CountLifecycle(d, watchDog, CloseCalled);
      CountLifecycle(d, watchDog, GetDeviceNameCalled);
      TailCounts(d);
      CountSingle(ConnectCalled, ConnectCalled);
      CountSingle(ConnectCalled, CloseCalled);
      CountSingle(ConnectCalled, GetDeviceNameCalled);
      SessionCounts(d, watchDog);
    }
  }

  /** `readDevice` runs exactly once when `connect` succeeds and never otherwise. */
  lemma {:induction false} ReadIffConnected(device: Option<DeviceSpec>, watchDog: bool)
    ensures Count(Lifecycle(device, watchDog), ReadDeviceCalled) ==
            (if device.Some? && device.value.connects then 1 else 0)
  {
    if device.Some? {
      var d := device.value;
      CountLifecycle(d, watchDog, ReadDeviceCalled);
      TailCounts(d);
      CountSingle(ConnectCalled, ReadDeviceCalled);
      SessionCounts(d, watchDog);
    }
  }

  /** The watchdog starts, once, exactly when `connect` succeeded and the flag is set. */
  lemma {:induction false} WatchDogIffEnabled(device: Option<DeviceSpec>, watchDog: bool)
    ensures Count(Lifecycle(device, watchDog), WatchDogStarted) ==
            (if device.Some? && device.value.connects && watchDog then 1 else 0)
  {
    if device.Some? {
      var d := device.value;
      CountLifecycle(d, watchDog, WatchDogStarted);
      TailCounts(d);
      CountSingle(ConnectCalled, WatchDogStarted);
      SessionCounts(d, watchDog);
    }
  }

  /** The watchdog is started before the device is read. */
  lemma WatchDogBeforeRead(device: Option<DeviceSpec>, watchDog: bool)
    ensures var ev := Lifecycle(device, watchDog);
            forall k, m :: 0 <= k < |ev| && 0 <= m < |ev| && ev[k] == WatchDogStarted && ev[m] == ReadDeviceCalled ==> k < m
  {
    var ev := Lifecycle(device, watchDog);
    forall k, m | 0 <= k < |ev| && 0 <= m < |ev| && ev[k] == WatchDogStarted && ev[m] == ReadDeviceCalled
      ensures k < m
    {
      var d := device.value;
      assert d.connects && watchDog;
      assert ev == [ConnectCalled, WatchDogStarted, ReadDeviceCalled] + Tail(d);
    }
  }

  /** "can't connect" is logged exactly when a device exists and `connect` failed. */
  lemma CantConnectLogged(device: Option<DeviceSpec>, watchDog: bool)
    ensures LogInfo(CantConnect) in Lifecycle(device, watchDog) <==> device.Some? && !device.value.connects
  {
    if device.Some? {
      var d := device.value;
      var ev := Lifecycle(device, watchDog);
      assert forall k :: |ev| - 4 <= k < |ev| ==> ev[k] != LogInfo(CantConnect);
    }
  }

  /**
   * Shutdown happens exactly once and is the last call; with a device the
   * run ends by logging the device name, closing the device and shutting down.
   */
  lemma {:induction false} ShutdownLast(device: Option<DeviceSpec>, watchDog: bool)
    ensures var ev := Lifecycle(device, watchDog);
      && Count(ev, ShutdownCalled) == 1 && ev[|ev| - 1] == ShutdownCalled
      && (device.Some? ==> |ev| >= 5 && ev[0] == ConnectCalled &&
                           ev[|ev| - 4..] == [GetDeviceNameCalled, LogInfo(ClosedDeviceName(device.value.name)),
                                              CloseCalled, ShutdownCalled])
  {
    if device.Some? {
      var d := device.value;
      CountLifecycle(d, watchDog, ShutdownCalled);
      TailCounts(d);
      CountSingle(ConnectCalled, ShutdownCalled);
      SessionCounts(d, watchDog);
    } else {
      var ev := Lifecycle(device, watchDog);
      assert ev == [LogError(CantCreate)] + [ShutdownCalled];
      CountAppend([LogError(CantCreate)], [ShutdownCalled], ShutdownCalled);
      CountSingle(LogError(CantCreate), ShutdownCalled);
      CountSingle(ShutdownCalled, ShutdownCalled);
    }
  }

  lemma {:induction false} TailCounts(d: DeviceSpec)
    ensures Count(Tail(d), ConnectCalled) == 0 && Count(Tail(d), ReadDeviceCalled) == 0
    ensures Count(Tail(d), WatchDogStarted) == 0
    ensures Count(Tail(d), CloseCalled) == 1 && Count(Tail(d), ShutdownCalled) == 1
    ensures Count(Tail(d), GetDeviceNameCalled) == 1
  {
    var t := Tail(d);
    assert t == [GetDeviceNameCalled] + [LogInfo(ClosedDeviceName(d.name))] + [CloseCalled] + [ShutdownCalled];
    forall e | e in {ConnectCalled, ReadDeviceCalled, WatchDogStarted, CloseCalled, ShutdownCalled, GetDeviceNameCalled}
      ensures Count(t, e) == (if e == GetDeviceNameCalled || e == CloseCalled || e == ShutdownCalled then 1 else 0)
    {
      CountAppend([GetDeviceNameCalled] + [LogInfo(ClosedDeviceName(d.name))] + [CloseCalled], [ShutdownCalled], e);
      CountAppend([GetDeviceNameCalled] + [LogInfo(ClosedDeviceName(d.name))], [CloseCalled], e);
      CountAppend([GetDeviceNameCalled], [LogInfo(ClosedDeviceName(d.name))], e);
      CountSingle(GetDeviceNameCalled, e);
      CountSingle(LogInfo(ClosedDeviceName(d.name)), e);
      CountSingle(CloseCalled, e);
      CountSingle(ShutdownCalled, e);
    }
  }

  lemma {:induction false} SessionCounts(d: DeviceSpec, watchDog: bool)
    ensures var session := if d.connects then (if watchDog then [WatchDogStarted] else []) + [ReadDeviceCalled]
                           else [LogInfo(CantConnect)];
      && Count(session, ConnectCalled) == 0 && Count(session, CloseCalled) == 0
      && Count(session, ShutdownCalled) == 0 && Count(session, GetDeviceNameCalled) == 0
      && Count(session, ReadDeviceCalled) == (if d.connects then 1 else 0)
      && Count(session, WatchDogStarted) == (if d.connects && watchDog then 1 else 0)
  {
    var dog: seq<Event> := if watchDog then [WatchDogStarted] else [];
    forall e | e in {ConnectCalled, ReadDeviceCalled, WatchDogStarted, CloseCalled, ShutdownCalled, GetDeviceNameCalled}
      ensures Count(dog + [ReadDeviceCalled], e) ==
              (if e == ReadDeviceCalled || (watchDog && e == WatchDogStarted) then 1 else 0)
      ensures Count([LogInfo(CantConnect)], e) == 0
    {
      CountAppend(dog, [ReadDeviceCalled], e);
      CountSingle(ReadDeviceCalled, e);
      CountSingle(WatchDogStarted, e);
      CountSingle(LogInfo(CantConnect), e);
    }
  }
}
