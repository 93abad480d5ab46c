/**
 * The sketch itself: the globals of src/main.cpp, the boot sequence of
 * `setup` and one iteration of `loop`. Hardware and library calls whose
 * outcome matters are inputs (BootEnv, RequestEnv, the sensor Sample, the
 * generator); the calls made are recorded, in order, in `events`.
 */
module Node {
  import opened Wrappers
  import opened Platform
  import opened Identity
  import opened Naming
  import opened Sampler
  import opened Api

  /** The two I2C addresses a BME280 answers on. */
  const PrimarySensorAddress: int := 0x76
  const SecondarySensorAddress: int := 0x77

  /** WiFiManager settings: portal and connect timeouts in seconds. */
  const PortalTimeoutSeconds: int := 180
  const ConnectTimeoutSeconds: int := 20

  /** The NTP wait gives up after this many one-second retries. */
  const MaxTimeRetries: nat := 10

  /** A call from the sketch into hardware or a library, as it happens. */
  datatype Event =
    | ProbeSensor(address: int)                     // bme.begin(address, &Wire)
    | ConfigureSampling                             // forced mode, x1 oversampling, filter off
    | Halt                                          // while (1) delay(1000): never returns
    | SetHostname(name: string)                     // WiFi.setHostname
    | ConfigurePortal(portalTimeout: int, connectTimeout: int)
    | AutoConnect(apName: string, apPassword: string)
    | Restart                                       // delay(3000); ESP.restart(): never returns
    | ConfigTime                                    // configTime(0, 0, "pool.ntp.org")
    | TimeWait(retries: nat)                        // the getLocalTime retry loop, with its final count
    | MdnsBegin(name: string)
    | MdnsAddService(service: string, protocol: string, port: int)
    | ServerBegin
    | ForcedMeasurement                             // bme.takeForcedMeasurement(); readSensorValues()

  /** The outcomes of the calls `setup` branches on. */
  datatype BootEnv = BootEnv(
    sensorAtPrimary: bool,      // bme.begin(0x76, &Wire)
    sensorAtSecondary: bool,    // bme.begin(0x77, &Wire)
    autoConnect: bool,          // wifiManager.autoConnect(apName, "password123")
    clock: nat -> bool,         // the k-th getLocalTime call finds the clock set
    mdns: bool)                 // MDNS.begin(hostname)

  /** How `setup` ends: it halts forever, restarts the chip, or returns and `loop` runs. */
  datatype BootOutcome = Halted | Restarted | Ready

  /**
   * The retry count at which `while (!getLocalTime(&timeinfo) && retries < 10)`
   * exits, when it is entered with `retries == k`: the first k' >= k whose
   * clock query succeeds, and 10 if none up to 10 does.
   */
  function NtpRetries(clock: nat -> bool, k: nat): (r: nat)
    requires k <= MaxTimeRetries
    ensures k <= r <= MaxTimeRetries
    ensures clock(r) || r == MaxTimeRetries
    ensures forall j :: k <= j < r ==> !clock(j)
    decreases MaxTimeRetries - k
  {
    if clock(k) || k == MaxTimeRetries then k else NtpRetries(clock, k + 1)
  }

  function BootOutcomeOf(env: BootEnv): BootOutcome {
    if !env.sensorAtPrimary && !env.sensorAtSecondary then Halted
    else if !env.autoConnect then Restarted
    else Ready
  }

  function Probes(env: BootEnv): seq<Event> {
    if env.sensorAtPrimary then [ProbeSensor(PrimarySensorAddress)]
    else [ProbeSensor(PrimarySensorAddress), ProbeSensor(SecondarySensorAddress)]
  }

  /** The calls that look for the sensor: configure it if found, else halt. */
  function SensorPhase(env: BootEnv): seq<Event> {
    Probes(env) + if env.sensorAtPrimary || env.sensorAtSecondary then [ConfigureSampling] else [Halt]
  }

  /** The calls up to and including the connection attempt. */
  function ConnectPhase(id: string): seq<Event> {
    [SetHostname(Hostname(id)),
     ConfigurePortal(PortalTimeoutSeconds, ConnectTimeoutSeconds), AutoConnect(ApName(id), ApPassword)]
  }

  /** The calls after a successful connection. */
  function ServePhase(id: string, env: BootEnv): seq<Event> {
    [ConfigTime, TimeWait(NtpRetries(env.clock, 0)), MdnsBegin(Hostname(id))]
    + (if env.mdns then [MdnsAddService("http", "tcp", 80)] else [])
    + [ServerBegin]
  }

  /** The calls `setup` makes after reading the device id `id`. */
  function BootEvents(id: string, env: BootEnv): seq<Event> {
    match BootOutcomeOf(env)
    case Halted => SensorPhase(env)
    case Restarted => SensorPhase(env) + ConnectPhase(id) + [Restart]
    case Ready => SensorPhase(env) + ConnectPhase(id) + ServePhase(id, env)
  }

  /**
   * The sensor is probed at 0x76 first and at 0x77 only if that fails;
   * if both fail the device halts and makes no further call.
   */
  lemma SensorProbeOrder(id: string, env: BootEnv)
    ensures var ev := BootEvents(id, env);
      && ev[0] == ProbeSensor(PrimarySensorAddress)
      && (ProbeSensor(SecondarySensorAddress) in ev <==> !env.sensorAtPrimary)
      && (!env.sensorAtPrimary ==> ev[1] == ProbeSensor(SecondarySensorAddress))
      && (BootOutcomeOf(env) == Halted <==> !env.sensorAtPrimary && !env.sensorAtSecondary)
      && (BootOutcomeOf(env) == Halted ==>
            ev == [ProbeSensor(PrimarySensorAddress), ProbeSensor(SecondarySensorAddress), Halt])
  {
  }

  /**
   * Every connection attempt uses the AP name "ESP32-Monitor-<id>" and
   * comes after the hostname "esp32-monitor-<id>" has been set.
   */
  lemma {:induction false} HostnameSetBeforeConnect(id: string, env: BootEnv)
    ensures var ev := BootEvents(id, env);
      forall j :: 0 <= j < |ev| && ev[j].AutoConnect? ==>
        ev[j] == AutoConnect(ApName(id), ApPassword) &&
        exists i :: 0 <= i < j && ev[i] == SetHostname(Hostname(id))
  {
    var ev := BootEvents(id, env);
    var p := |SensorPhase(env)|;
    forall j | 0 <= j < |ev| && ev[j].AutoConnect?
      ensures ev[j] == AutoConnect(ApName(id), ApPassword)
      ensures exists i :: 0 <= i < j && ev[i] == SetHostname(Hostname(id))
    {
      assert BootOutcomeOf(env) != Halted;
      assert j == p + 2;
      assert ev[p] == SetHostname(Hostname(id));
    }
  }

  /**
   * A failed `autoConnect` ends in a restart: nothing after it runs, the
   * clock is never configured and the web server is never started.
   */
  lemma RestartNeverServes(id: string, env: BootEnv)
    requires BootOutcomeOf(env) == Restarted
    ensures var ev := BootEvents(id, env);
      ev[|ev| - 1] == Restart && ConfigTime !in ev && ServerBegin !in ev && Restart !in ev[..|ev| - 1]
  {
    var ev := BootEvents(id, env);
    assert ev[..|ev| - 1] == SensorPhase(env) + ConnectPhase(id);
  }

  /**
   * The NTP wait stops at the first successful clock query and after at
   * most 10 retries.
   */
  lemma NtpWaitBounded(id: string, env: BootEnv)
    requires BootOutcomeOf(env) == Ready
    ensures var ev := BootEvents(id, env);
      exists r: nat :: TimeWait(r) in ev && r <= MaxTimeRetries &&
        (env.clock(r) || r == MaxTimeRetries) && forall j :: 0 <= j < r ==> !env.clock(j)
  {
    var r := NtpRetries(env.clock, 0);
    assert TimeWait(r) in ServePhase(id, env);
  }

  /**
   * The NTP wait of `setup`: retry once a second while the clock is not
   * set, at most 10 times. It ends on the first successful query, with
   * `retries` as NtpRetries predicts.
   */
  method WaitForTime(clock: nat -> bool) returns (retries: nat)
    ensures retries <= MaxTimeRetries
    ensures clock(retries) || retries == MaxTimeRetries
    ensures forall j :: 0 <= j < retries ==> !clock(j)
    ensures retries == NtpRetries(clock, 0)
  {
    retries := 0;
    while !clock(retries) && retries < MaxTimeRetries
      invariant retries <= MaxTimeRetries
      invariant NtpRetries(clock, retries) == NtpRetries(clock, 0)
    {
      retries := retries + 1;
    }
  }

  /** The global state of the sketch. */
  class Monitor {
    var deviceId: string
    var lastSensorRead: ULong
    var temperature: Float32
    var humidity: Float32
    var pressure: Float32
    /** The NVS store; it outlives this boot. */
    const preferences: Preferences
    /** The WebServer's registered routes, its not-found handler and whether it was started. */
    var routes: seq<Route>
    var notFound: Option<Handler>
    var serverStarted: bool
    /** Calls made so far into hardware and libraries. */
    var events: seq<Event>

    function Cache(): Snapshot
      reads this
    {
      Snapshot(lastSensorRead, temperature, humidity, pressure)
    }

    /** After power-on, before `setup`: globals at their initial values, nothing registered. */
    predicate PoweredOn()
      reads this
    {
      Cache() == Sampler.Boot && routes == [] && notFound == None && !serverStarted && events == []
    }

    /** After `setup` returned: the routes and the not-found handler are registered and the server runs. */
    predicate Serving()
      reads this
    {
      routes == Routes && notFound == Some(NotFound) && serverStarted
    }

    /** A cold boot with the given NVS contents. */
    constructor PowerOn(nvs: Preferences)
      ensures preferences == nvs && deviceId == "" && PoweredOn()
    {
      preferences := nvs;
      deviceId := "";
      lastSensorRead := 0;
      temperature, humidity, pressure := FloatZero, FloatZero, FloatZero;
      routes, notFound, serverStarted := [], None, false;
      events := [];
    }

    /**
     * `setup`: resolve the device id, find the sensor, set the hostname,
     * connect or provision WiFi, wait for NTP, start mDNS and register
     * the routes. Halting and restarting are the terminal outcomes.
     */
    method Setup(rng: Rng, env: BootEnv) returns (outcome: BootOutcome)
      requires PoweredOn()
      modifies this, preferences
      ensures (deviceId, preferences.namespaces) == GetOrCreate(old(preferences.namespaces), rng)
      ensures preferences.writes == old(preferences.writes) + (if StoredId(old(preferences.namespaces)).Some? then 0 else 1)
      ensures outcome == BootOutcomeOf(env)
      ensures events == BootEvents(deviceId, env)
      ensures Serving() <==> outcome == Ready
      ensures outcome != Ready ==> routes == [] && notFound == None && !serverStarted
      ensures Cache() == Sampler.Boot
    {
      deviceId := GetOrCreateDeviceId(preferences, rng);

      var found := FindSensor(env);
      if !found {
        return Halted;
      }
      var connected := ConnectWifi(env);
      if !connected {
        return Restarted;
      }
      StartServices(env);
      outcome := Ready;
    }

    /** Try both BME280 addresses; halt forever if neither answers. */
    method FindSensor(env: BootEnv) returns (found: bool)
      modifies this`events
      ensures found <==> env.sensorAtPrimary || env.sensorAtSecondary
      ensures events == old(events) + SensorPhase(env)
    {
      events := events + [ProbeSensor(PrimarySensorAddress)];
      if !env.sensorAtPrimary {
        events := events + [ProbeSensor(SecondarySensorAddress)];
        if !env.sensorAtSecondary {
          events := events + [Halt];
          return false;
        }
      }
      events := events + [ConfigureSampling];
      found := true;
    }

    /** Derive the names, set the hostname, then connect or provision; restart on failure. */
    method ConnectWifi(env: BootEnv) returns (connected: bool)
      modifies this`events
      ensures connected == env.autoConnect
      ensures events == old(events) + ConnectPhase(deviceId) + (if connected then [] else [Restart])
    {
      var apName := ApName(deviceId);
      var hostname := Hostname(deviceId);
      events := events + [SetHostname(hostname)];
      events := events + [ConfigurePortal(PortalTimeoutSeconds, ConnectTimeoutSeconds)];
      events := events + [AutoConnect(apName, ApPassword)];
      connected := env.autoConnect;
      if !connected {
        events := events + [Restart];
      }
    }

    /** Wait for NTP, start mDNS, register the routes and start the web server. */
    method StartServices(env: BootEnv)
      requires routes == [] && notFound == None && !serverStarted
      modifies this`events, this`routes, this`notFound, this`serverStarted
      ensures events == old(events) + ServePhase(deviceId, env)
      ensures Serving()
    {
      var retries := WaitForTime(env.clock);
      var hostname := Hostname(deviceId);
      var mdnsCalls := [MdnsBegin(hostname)] + if env.mdns then [MdnsAddService("http", "tcp", 80)] else [];
      events := events + [ConfigTime, TimeWait(retries)] + mdnsCalls;

      routes := routes + [Route(RootPath, Get, RootHandler)];
      routes := routes + [Route(ObservationPath, Get, ObservationHandler)];
      notFound := Some(NotFoundHandler);
      serverStarted := true;
      events := events + [ServerBegin];
    }

    /**
     * One iteration of `loop`: `server.handleClient()` answers at most one
     * pending request from the cache as it stands, then the sensor is read
     * if 5000 ms of `millis()` have passed since the last read.
     */
    method LoopStep(request: Option<Request>, env: RequestEnv, now: ULong, reading: Sample)
      returns (response: Option<Response>)
      requires Serving()
      modifies this
      ensures response == if request.Some? then Some(Serve(Routes, NotFound, request.value, deviceId, old(Cache()), env)) else None
      ensures Cache() == Poll(old(Cache()), now, reading)
      ensures events == old(events) + (if Due(now, old(lastSensorRead)) then [ForcedMeasurement] else [])
      ensures Serving() && deviceId == old(deviceId)
    {
      response := None;
      if request.Some? {
        response := Some(Serve(routes, notFound.value, request.value, deviceId, Cache(), env));
      }

      var currentMillis := now;
      if WrapSub(currentMillis, lastSensorRead) >= DelayTime {
        lastSensorRead := currentMillis;
        events := events + [ForcedMeasurement];
        temperature, humidity, pressure := reading.temperature, reading.humidity, reading.pressure;
      }
    }
  }

  /**
   * A boot, a restart and a second boot on the same NVS store: the second
   * boot finds the id the first one stored, returns it unchanged and
   * writes nothing.
   */
  method RestartKeepsIdentity(nvs: Preferences, rng: Rng, rng': Rng, env: BootEnv, env': BootEnv)
    returns (first: string, second: string)
    modifies nvs
    ensures first == second && StoredId(nvs.namespaces) == Some(first)
    ensures nvs.writes <= old(nvs.writes) + 1
  {
    var m := new Monitor.PowerOn(nvs);
    var _ := m.Setup(rng, env);
    first := m.deviceId;
    var writesAfterFirst := nvs.writes;
    var m' := new Monitor.PowerOn(nvs);
    var _ := m'.Setup(rng', env');
    second := m'.deviceId;
    assert nvs.writes == writesAfterFirst;
  }

  /** Two iterations of `loop` at the same `millis()` read the sensor at most once. */
  method SameTimeReadsOnce(m: Monitor, env: RequestEnv, now: ULong, r1: Sample, r2: Sample)
    requires m.Serving()
    modifies m
    ensures |m.events| <= |old(m.events)| + 1
    ensures m.lastSensorRead == now || m.Cache() == old(m.Cache())
  {
    var _ := m.LoopStep(None, env, now, r1);
    var _ := m.LoopStep(None, env, now, r2);
  }
}
