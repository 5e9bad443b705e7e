# zephyropen: port discovery and device-server lifecycle in Dafny

This project models two pieces of zephyropen, a framework that reads
sensor devices over serial and Bluetooth links, and proves properties of
them.

**Port discovery (`Find`, module `Beam`).**
- The finder lists the serial-type ports the operating system enumerates.
- It tries them from the last index down.
- On each port it opens and configures the line, then obtains both streams.
- It then drains pending input, sends the id request `'x', 13` and reads up to 32 bytes of reply.
- It widens each signed byte to a `char`, trims the result, and compares it with the target id ignoring case.
- It closes the session after every successful connect.

The class `Beam.Find` keeps the source's fields (`serialPort`, `inputStream`,
`outputStream`, `ports`). Its methods `Connect`, `Close`, `GetProduct`,
`GetAvailableSerialPorts` and `Search` update them in place, with loops where
the source has loops.

The serial library is an oracle, `SerialIo.Library`. It holds:
- the enumeration, in order;
- for each port name, whether `open` and the line configuration succeed;
- whether each stream is handed out, comes back null, or throws;
- what a `read` of the reply finds.

A handle field holds the name of the port it belongs to, or `None` for null.
Every call on a port or stream is appended to a ghost trace. Each method is
proved equal to a pure "effect" function of the old fields:
`CloseEffect`, `ConnectEffect`, `AttemptEffect` (one pass of the search loop)
and `ScanEffect` (the whole loop). The properties of those functions are then
proved as lemmas.

**Java text (module `JavaText`).** This module models:
- the `(char)` cast of a signed `byte` (sign extension, so bytes -128..-1 become U+FF80..U+FFFF);
- `String.trim` (strips every char up to U+0020 at both ends);
- `String.equalsIgnoreCase`: equal lengths, and per char equal, equal upper-cased, or equal lower-cased after upper-casing, with the case mapping restricted to ASCII letters.

**Device server (module `DeviceLifecycle`).** The `DeviceServer` constructor:
- creates a device through the factory;
- connects it;
- if the connection succeeded, starts a watchdog (when `enableWatchDog` is set) and runs the blocking read;
- always ends by logging the device name, closing the device and shutting the framework down.

If the factory returns null, it logs an error and shuts down. `main` does
this only when given exactly one argument, after loading that properties
file.

The framework object, the device, the watchdog and the factory are small
classes that append to the framework's ghost event trace. The constructor is
proved to produce exactly `Lifecycle(device, flag)`. The ordering and
exactly-once properties are lemmas about `Lifecycle`.

`shutdown()` is modelled as terminal: it sets `terminated`, and no
collaborator accepts a call afterwards. In the source, the null-device branch
(zephyropen/src/zephyropen/device/DeviceServer.java:44-47) falls through to
`device.connect()` at line 49. That line would dereference null if `shutdown`
returned. The model therefore ends that branch at the shutdown.

**A session `connect` leaves open.** When a stream comes back null,
`connect` returns false without calling `close()`
(zephyropen/src/zephyropen/device/beam/Find.java:76-79), and `search`
closes only after a successful connect (Find.java:111-122). The port handle
therefore stays set and the port stays open. A later `connect` either
overwrites the handle, when its `open` succeeds (Find.java:59), and the
earlier port is then never closed; or closes it, when its `open` throws
(Find.java:69-71), because `close()` runs on the fields as they were.
`Beam.ConnectOutcome` states the null-stream case and
`Beam.ConnectThrowCloses` the close of the old handle.

## Model

| member | source | states |
|---|---|---|
| JavaText.WidenAll | zephyropen/src/zephyropen/device/beam/Find.java:159-160 | the chars built from the buffer are one per byte, each the sign-extended `(char)` cast of that byte |
| JavaText.WidenBlank | zephyropen/src/zephyropen/device/beam/Find.java:160-162 | a widened byte is stripped by `trim` exactly when the byte is 0..32; negative bytes never are |
| JavaText.WidenInjective | zephyropen/src/zephyropen/device/beam/Find.java:160 | distinct bytes widen to distinct chars |
| JavaText.Trim | zephyropen/src/zephyropen/device/beam/Find.java:162 | `trim` never lengthens the string; `TrimIsTrim` and `TrimCharacterized` prove what it returns |
| JavaText.TrimLeftShape | zephyropen/src/zephyropen/device/beam/Find.java:162 | cutting leading blanks leaves the suffix that starts at the first non-blank char, and only blanks were cut |
| JavaText.TrimRightShape | zephyropen/src/zephyropen/device/beam/Find.java:162 | cutting trailing blanks leaves the prefix that ends at the last non-blank char, and only blanks were cut |
| JavaText.TrimIsTrim | zephyropen/src/zephyropen/device/beam/Find.java:162 | `trim`'s result is a substring with only blanks around it and no blank at either end |
| JavaText.TrimCharacterized | zephyropen/src/zephyropen/device/beam/Find.java:162 | a string is a trim of `s` (defined by that property) if and only if it equals `Trim(s)`: there is exactly one |
| JavaText.TrimIdempotent | zephyropen/src/zephyropen/device/beam/Find.java:162 | trimming twice gives the same as trimming once |
| JavaText.EqualsIgnoreCaseFolds | zephyropen/src/zephyropen/device/beam/Find.java:115 | two ids match ignoring case if and only if their lower-case forms are equal |
| SerialIo.Delivered | zephyropen/src/zephyropen/device/beam/Find.java:132-155 | a read stores at most the buffer's 32 bytes: the front of the reply, and nothing at end of stream or on an exception |
| SerialIo.ReadInto | zephyropen/src/zephyropen/device/beam/Find.java:153-158 | `read(buffer)` returns the count stored, -1 at end of stream, or throws; it fills the front of the buffer and leaves the rest unchanged |
| Beam.SerialNamesConcat | zephyropen/src/zephyropen/device/beam/Find.java:47-51 | the list built over two runs of the enumeration is the two lists one after the other, in order |
| Beam.SerialNamesMembers | zephyropen/src/zephyropen/device/beam/Find.java:44-52 | a name is listed if and only if some serial-type port of the enumeration carries it |
| Beam.Find.GetAvailableSerialPorts | zephyropen/src/zephyropen/device/beam/Find.java:44-52 | the loop appends exactly the serial-type names, in enumeration order |
| Beam.Find.constructor | zephyropen/src/zephyropen/device/beam/Find.java:31-41 | a new finder holds no handle and lists exactly the serial-type ports |
| Beam.CloseReleasesEverything | zephyropen/src/zephyropen/device/beam/Find.java:85-103 | `close` closes each handle that is set, including the output stream whatever happened to the input stream; it clears only `serialPort` and makes only close calls |
| Beam.Find.Close | zephyropen/src/zephyropen/device/beam/Find.java:85-103 | the method's new fields and calls are those of `CloseEffect` on the old fields |
| Beam.ConnectOutcome | zephyropen/src/zephyropen/device/beam/Find.java:55-82 | `connect` returns true if and only if open, configure and both streams succeed, and then holds all three handles on that port; when a call throws, the port handle ends cleared; when a stream is null, it returns false with the port handle still set and nothing closed |
| Beam.ConnectThrowCloses | zephyropen/src/zephyropen/device/beam/Find.java:69-72 | when a call in the `try` block throws, `connect` returns false and what follows the open attempt is exactly one `close()` on the fields the exception left: when `open` itself throws, that close releases the handles held before the call; once the port was opened, it releases that port; the output stream reference is never replaced |
| Beam.ConnectTrace | zephyropen/src/zephyropen/device/beam/Find.java:55-82 | `connect` first opens the given port, and every later call it makes is a close |
| Beam.Find.Connect | zephyropen/src/zephyropen/device/beam/Find.java:55-82 | the try/catch method's result, new fields and calls are those of `ConnectEffect` on the old fields |
| Beam.ProductId | zephyropen/src/zephyropen/device/beam/Find.java:132-162 | the id has at most 32 chars |
| Beam.ProductIdShape | zephyropen/src/zephyropen/device/beam/Find.java:132-162 | the id is the trim of the widened reply bytes, with no blank at either end; it is empty when the read returned -1, threw, or brought no bytes |
| Beam.Find.GetProduct | zephyropen/src/zephyropen/device/beam/Find.java:130-163 | it drains the input, writes exactly `'x', 13`, reads once, and returns `ProductId` of the reply |
| Beam.AttemptSession | zephyropen/src/zephyropen/device/beam/Find.java:111-122 | a port is probed if and only if its connect succeeds; a probed port gets exactly open, drain, write, read, then one close of port, input and output; a port whose connect fails is never drained, written or read; only the first call opens |
| Beam.Find.TryPort | zephyropen/src/zephyropen/device/beam/Find.java:111-122 | one pass of the search loop body has the result, fields and calls of `AttemptEffect` |
| Beam.Winner | zephyropen/src/zephyropen/device/beam/Find.java:110-118 | the winner is the highest index at or below `i` whose port connects and reports the target; with none, no port at or below `i` does |
| Beam.ScanFindsWinner | zephyropen/src/zephyropen/device/beam/Find.java:110-125 | the scan returns the name of the highest accepting port, or null when none accepts, whatever handles were left set |
| Beam.AttemptOpensOnce | zephyropen/src/zephyropen/device/beam/Find.java:111-122 | one attempt opens exactly the attempted port, once |
| Beam.ScanVisitsDownward | zephyropen/src/zephyropen/device/beam/Find.java:110-123 | the ports opened are `ports[i]`, `ports[i-1]`, ... in that order, stopping at the winner; lower indices are never tried |
| Beam.SearchNotFound | zephyropen/src/zephyropen/device/beam/Find.java:110-125 | `search` returns null if and only if no port accepts, and then it has opened every port from the last down to index 0 |
| Beam.Find.Search | zephyropen/src/zephyropen/device/beam/Find.java:108-127 | the descending loop returns what `ScanEffect` finds and leaves its fields and calls; the port list is unchanged |
| DeviceLifecycle.CreateDevice | zephyropen/src/zephyropen/device/DeviceServer.java:42 | the factory returns null exactly when the configuration names no device, otherwise a new device bound to the framework |
| DeviceLifecycle.DeviceServer.constructor | zephyropen/src/zephyropen/device/DeviceServer.java:39-67 | the constructor makes exactly the calls `Lifecycle(device, enableWatchDog)`, keeps a null device exactly when the factory returned null, and ends shut down |
| DeviceLifecycle.Launch | zephyropen/src/zephyropen/device/DeviceServer.java:138-147 | with exactly one argument, `init` on it installs the loaded configuration and then the whole lifecycle runs for it; with any other count, no call, no shutdown and the configuration unchanged |
| DeviceLifecycle.NullDeviceShutsDown | zephyropen/src/zephyropen/device/DeviceServer.java:42-47 | with no device, the error is logged first and shutdown is last, and no device method, watchdog or read runs |
| DeviceLifecycle.ConnectAndCloseOnce | zephyropen/src/zephyropen/device/DeviceServer.java:49-65 | `connect`, `getDeviceName` and `close` each run exactly once when a device was created, and never otherwise |
| DeviceLifecycle.ReadIffConnected | zephyropen/src/zephyropen/device/DeviceServer.java:49-62 | `readDevice` runs exactly once if `connect` returned true, and never otherwise |
| DeviceLifecycle.WatchDogIffEnabled | zephyropen/src/zephyropen/device/DeviceServer.java:49-53 | the watchdog starts exactly once if `connect` returned true and `enableWatchDog` is set, and never otherwise |
| DeviceLifecycle.WatchDogBeforeRead | zephyropen/src/zephyropen/device/DeviceServer.java:52-56 | the watchdog is started before `readDevice` |
| DeviceLifecycle.CantConnectLogged | zephyropen/src/zephyropen/device/DeviceServer.java:58-62 | "can't connect" is logged if and only if a device exists and `connect` returned false |
| DeviceLifecycle.ShutdownLast | zephyropen/src/zephyropen/device/DeviceServer.java:64-66 | shutdown runs exactly once and last; with a device, the run starts with `connect` and ends with get-name, the name log line, close, shutdown, on both paths |

## Left out

- Timing: `Utils.delay` before the probe and before the read, the 2000 ms open timeout, and the stopwatch of the `Find` test driver. They are waits with no logical effect.
- The serial line parameters (baud rate, data bits, stop bits, parity, flow control). They are passed to the library unchanged; the model keeps only whether configuring succeeds.
- `skip(available())` and `write` failures in `getProduct`. Both are caught and only printed, so the model records the call and goes on.
- Beam.ProductIdShape: the reply is whatever a single `read` returns. A reply split over several reads is not modelled, because the source reads once.
- JavaText.EqualsIgnoreCaseFolds and `EqualsIgnoreCase`: case folding covers ASCII letters only, not the full Unicode case tables of `Character.toUpperCase` and `toLowerCase`.
- A null `target` passed to `search`. It is not modelled, because `equalsIgnoreCase(null)` simply returns false.
- Printing and logging text (`System.out`, `System.err`, `printStackTrace`). Only the log calls the server makes appear, as trace events.
- The `Find` test driver `main`. It only calls `search` with a fixed id and prints the result.
- `ZephyrOpen`'s configuration loading and `getBoolean`. The properties a file yields are passed to `Launch` as a parameter. The `ZephyrOpen` source is not part of this model.
- `DeviceFactory`, the device drivers and `WatchDog`. Their code is not part of this model: a device's connect result and name come from the configuration, and `readDevice` is assumed to return normally.
- The watchdog thread and its `SPIN_TIME` polling, which may end the process on a stale device. This is concurrency; only the start of the watchdog is recorded.
- The commented-out two-argument constructor and `main` (DeviceServer.java:78-110 and 118-129). They are not compiled.
