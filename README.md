# ESP32 indoor monitor — a Dafny model

This project models the firmware of an ESP32 environmental sensor node
(`src/main.cpp`, one Arduino sketch). It covers the four pieces of logic in
the sketch that run in sequence and can fail:

- **Identity store** (`identity.dfy`, module `Identity`). `generateDeviceId`
  spells a six-letter id from `random(0, 26)`. `getOrCreateDeviceId` does
  get-or-create over the Preferences (NVS) store, under key `"id"` in
  namespace `"device"`. A missing key and an empty stored string both count
  as absent. The store is a class holding a `map` of namespaces; it survives
  restarts. The pseudo-random generator after `randomSeed(ESP.getEfuseMac())`
  is an oracle `Rng = nat -> Draw`, where a `Draw` is an int in `[0, 26)`.
- **Names** (`naming.dfy`, module `Naming`). The AP name
  `"ESP32-Monitor-" + id` and the hostname `"esp32-monitor-" + id`.
- **Sampler** (`sampler.dfy`, module `Sampler`). This is the polling step of
  `loop`. `unsigned long` is 32 bits on the ESP32 (`platform.dfy`), so
  `currentMillis - lastSensorRead` is subtraction modulo 2^32. The readings
  are opaque 32-bit float patterns that are only copied.
- **HTTP surface** (`api.dfy`, module `Api`). The routes that `setup`
  registers, the dispatch rule (first registered route whose method and path
  match, otherwise the not-found handler), and the responses of `handleRoot`,
  `handleObservation` and `handleNotFound`. The JSON document is modelled as
  a map from keys to values, not as text.
- **Boot and loop** (`node.dfy`, module `Node`). The sketch's globals are the
  fields of class `Monitor`. `Setup` runs the boot sequence. Its inputs are
  the abstract outcomes of the hardware and library calls (`BootEnv`), and
  the calls it makes are recorded in order in `events`. Halting forever and
  `ESP.restart()` become the terminal outcomes `Halted` and `Restarted`.
  `LoopStep` is one iteration of `loop`: it answers at most one request from
  the cache as it stands, then resamples if due.

Two behaviours of the sketch are modelled as written:

- A sensor read overwrites the cached values unconditionally, and
  `lastSensorRead` moves to `now` whatever the read returns. The sketch
  keeps no validity flag, so a failed read's values are served like any
  other.
- A storage error while reading the id looks the same as "no id stored".
  The sketch has no separate storage-error result, so it then generates and
  writes a new id.

## Model

| member | source | states |
|---|---|---|
| `Identity.CharsetIsAlphabet` | src/main.cpp:105 | The charset holds the 26 letters 'a'..'z' in order, so index k picks the k-th letter. |
| `Identity.Spell` | src/main.cpp:112-115 | Picking charset letters by a sequence of draws gives a word of the same length made only of letters 'a'..'z'. |
| `Identity.SpellAt` | src/main.cpp:114 | Position i of the spelled word is the charset letter at index draw i. |
| `Identity.SpellInjective` | src/main.cpp:112-115 | Spelling can be inverted: decoding an id gives back the draws, so different draws give different ids. |
| `Identity.SpellSurjective` | src/main.cpp:112-115 | Every word of letters 'a'..'z' is the spelling of some draws, so every well-formed id can be generated. |
| `Identity.GenerateDeviceId` | src/main.cpp:103-118 | The generated id is well-formed (exactly 6 characters, each in 'a'..'z') and is the spelling of the generator's first six draws. |
| `Identity.GetOrCreate` | src/main.cpp:120-141 | After get-or-create, the store holds the returned id under "id" in namespace "device", and that id is non-empty. |
| `Identity.ExistingIdKept` | src/main.cpp:127-141 | If "id" holds a non-empty value, that value is returned unchanged and the store is untouched. |
| `Identity.FreshIdCreated` | src/main.cpp:132-137 | If "id" is missing or empty, a well-formed fresh id is written under "id" in namespace "device". The "device" namespace afterwards is the old one with only "id" set, and no other namespace changes. |
| `Identity.GetOrCreateIdempotent` | src/main.cpp:127-137 | A second call on the store the first call left returns the same id and leaves the store as it is, whatever the generator yields then. |
| `Identity.WellFormedIdKept` | src/main.cpp:103-141 | If the store starts with no id or a well-formed one, the returned id is well-formed and the store stays that way. |
| `Identity.Preferences.IsKey` | src/main.cpp:127 | `isKey` is true exactly when the key is present in the namespace. |
| `Identity.Preferences.GetString` | src/main.cpp:129 | `getString` returns the stored string, or the fallback when the key is missing. |
| `Identity.Preferences.PutString` | src/main.cpp:136 | `putString` sets one key of one namespace, changes nothing else, and counts one write. |
| `Identity.GetOrCreateDeviceId` | src/main.cpp:120-141 | The returned id and the new store are those of GetOrCreate. Exactly one store write happens, and only on the create path. |
| `Naming.HostnameRoundTrip` | src/main.cpp:174 | Removing the "esp32-monitor-" prefix from the hostname gives back the device id. |
| `Naming.ApNameLowersToHostname` | src/main.cpp:173-174 | For a well-formed id, the AP name and the hostname differ only in letter case. |
| `Naming.HostnameIsDnsLabel` | src/main.cpp:174 | For a well-formed id, the hostname is a valid host-name label (section 2.1 of RFC 1123) to advertise over mDNS. |
| `Platform.WrapSubIsModular` | src/main.cpp:234 | `unsigned long` subtraction is subtraction modulo 2^32. |
| `Sampler.ElapsedAcrossRollover` | src/main.cpp:233-234 | The wrapped difference of two `millis()` values equals the true elapsed time whenever less than 2^32 ms passed. |
| `Sampler.DueAcrossRollover` | src/main.cpp:233-234 | A step resamples iff at least 5000 ms of true time passed since the last read, across `millis()` rollover. |
| `Sampler.PollEffect` | src/main.cpp:234-239 | A step that resamples stores `now` and the new readings, whatever they are. A step that does not resample changes nothing. |
| `Sampler.NoSecondReadAtSameTime` | src/main.cpp:234-239 | Two steps at the same `now` read at most once: the second step leaves the snapshot as the first left it. |
| `Sampler.ReadsRateLimited` | src/main.cpp:229-239 | Over any run of loop iterations, even across rollovers, there is at most one read per 5000 ms after the last read. Afterwards the snapshot is either unchanged or its `lastSensorRead` is the `millis()` value of one of the run's iterations. |
| `Api.FindRoute` | src/main.cpp:221-222 | The WebServer picks the handler of the first registered route matching the method and path. It finds none iff no route matches. |
| `Api.RouteTable` | src/main.cpp:221-223 | GET / gives 200 text/html. GET /api/v1/observation gives 200 application/json. Every other request gives 404 text/plain with body "Not Found". |
| `Api.StatusPageNamesDevice` | src/main.cpp:81-88 | The status page shows the device id, `<hostname>.local` and the station IP. |
| `Api.ObservationReflectsSnapshot` | src/main.cpp:34-69 | Every observation response is 200 and carries the three CORS headers. Its document has exactly the six fixed keys, plus "timestamp_iso" iff the clock query succeeded. A client reads back the device id, the cached readings, the timestamp and `lastSensorRead` unchanged. |
| `Node.NtpRetries` | src/main.cpp:207-212 | The NTP wait exits at the first retry count whose clock query succeeds, and at 10 if none does. |
| `Node.WaitForTime` | src/main.cpp:206-212 | The retry loop ends after at most 10 retries, on the first successful query, with the count NtpRetries predicts. |
| `Node.SensorProbeOrder` | src/main.cpp:154-163 | The sensor is probed at 0x76 first, and at 0x77 only if 0x76 fails. Boot halts iff both fail, and then makes no further call. |
| `Node.HostnameSetBeforeConnect` | src/main.cpp:172-191 | Every connection attempt uses AP name "ESP32-Monitor-<id>" and comes after hostname "esp32-monitor-<id>" was set. |
| `Node.RestartNeverServes` | src/main.cpp:190-195 | A failed `autoConnect` ends in one restart, which is the last call. The clock is never configured and the server never started. |
| `Node.NtpWaitBounded` | src/main.cpp:205-212 | On a successful boot, the NTP wait records a retry count of at most 10: the first successful query, or 10. |
| `Node.Monitor.PowerOn` | src/main.cpp:25-32 | At power-on the cache is zero, `lastSensorRead` is 0, and no route is registered. |
| `Node.Monitor.Setup` | src/main.cpp:143-227 | Boot resolves the id as GetOrCreate does and makes the calls of BootEvents in order. It ends as BootOutcomeOf says. The routes are registered and the server started iff boot completes. The cache is untouched. |
| `Node.Monitor.FindSensor` | src/main.cpp:154-170 | Probing finds the sensor iff it answers at 0x76 or 0x77. If it does, the sensor is configured; otherwise the device halts. |
| `Node.Monitor.ConnectWifi` | src/main.cpp:172-195 | Sets the hostname, configures the portal and attempts `autoConnect` with the derived AP name. Restarts iff that fails. |
| `Node.Monitor.StartServices` | src/main.cpp:202-225 | Waits for NTP, starts mDNS (and adds the http service iff mDNS starts), registers the two routes and the not-found handler, and starts the server. |
| `Node.Monitor.LoopStep` | src/main.cpp:229-240 | Answers the pending request, if any, from the cache as it was. Then the cache becomes Poll of the old cache. A forced measurement is made iff the step was due. |
| `Node.RestartKeepsIdentity` | src/main.cpp:120-149 | A boot, then a restart and a second boot on the same store, give the same device id. The store holds that id, and at most one write happens in all. |
| `Node.SameTimeReadsOnce` | src/main.cpp:229-240 | Two loop iterations at the same `millis()` make at most one forced measurement. |

## Left out

- WiFi, the WiFiManager captive portal, mDNS and `ESP.restart` are external
  network and hardware calls. Each becomes an abstract success or failure
  outcome in `BootEnv`, or a recorded call. The portal's 20 s and 180 s
  timeouts and its static AP address are enforced inside the library; the
  model records only the configured timeouts.
- Halting forever (`while (1) delay(1000)`) and `ESP.restart()` never
  return. The model returns the terminal outcome `Halted` or `Restarted`
  instead. `loop` can only be stepped after `Ready`.
- The BME280 driver, `Wire.begin` and the float readings are left out. This
  includes the Pa to hPa division in `readSensorValues`. The sensor is an
  oracle returning the three values exactly as the sketch stores them.
- NTP, `configTime`, `time()`, `getLocalTime` and `strftime` are external
  clock and formatting calls. Clock queries are a boolean oracle, `time()`
  is an opaque integer, and the ISO string is opaque text.
- ArduinoJson serialisation, the HTML markup of `handleRoot` and `Serial`
  logging are library or cosmetic output. The document is a key-to-value
  map, and the status page is the three values it embeds.
- The internals of `randomSeed`, `random` and `ESP.getEfuseMac` are left
  out. The generator is an oracle that yields values in `[0, 26)`.
- The WebServer's own request parsing is left out: query strings,
  `HTTP_ANY`, header handling and serving several clients at once. A
  request reaches the model as a method and a path.
- `delay` calls and their durations are left out; they change no state in
  the model.
- Preferences write failures and keys holding non-string types are left out.
  The model's `putString` always succeeds, and the sketch ignores its result
  anyway.
- Time-to-restart bounds (connect timeout plus portal timeout plus the
  3000 ms grace delay) are not modelled. They depend on library timing,
  not on this code.
