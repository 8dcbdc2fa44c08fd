# WPUnit chromedriver lifecycle, modelled in Dafny

This project models the `Chrome` driver of WPUnit, from the namespace `Snap\WPUnit\Drivers`. The driver keeps an ordered map of chromedriver switches seeded with defaults. On its first `start()` it launches one chromedriver process, which all instances share through the class's `static $process`. It then passes the serialised switches to a `ChromeOptions` object, requests a WebDriver session at `http://localhost:9515` and caches it. `stop()` quits the session and stops the shared process. The platform predicates `is_windows` and `is_mac` of `AbstractDriver` choose one of three bundled binaries.

Files and modules:

- `wrappers.dfy` (`Wrappers`): `Option`, `Result` and `Outcome`. These stand in for PHP's `null`/`false` results and for exceptions.
- `abstract_driver.dfy` (`AbstractDriver`): `Strpos`, `IsWindows` and `IsMac`. They are pure functions of the OS name (`PHP_OS`) and the uname string (`php_uname()`), passed in as parameters. PHP's `strpos` counts bytes; here one `char` of a `string` stands for one byte of the PHP string.
- `argument_map.dfy` (`ArgumentMap`): the argument map is `ArgMap`, a sequence of `Arg(name, value)` with unique names, in PHP array order. `Put` models PHP's `$a[$k] = $v` and `Get` models lookup. `Flags` serialises the map. The constant `DEFAULTS` is the map declared at src/Drivers/Chrome.php:28-32; the `DefaultKeys` and `DefaultFlags` rows below state what it holds.
- `chrome.dfy` (`Drivers`):
  - `Host` is the environment: OS name, uname, `__DIR__`, the filesystem as seen by `realpath`, and whether the endpoint grants a session.
  - `LocateBinary` picks the bundled binary.
  - `ProcessSlot` is the shared process slot. It is one object passed to every `Chrome` constructor.
  - `Session` stands in for `RemoteWebDriver`.
  - `Chrome` is the driver class: its fields `driver`, `chromeOptions` and `arguments`, and its methods.
- `scenarios.dfy` (`ChromeScenarios`): client programs proved only from `Chrome`'s contracts. They cover two instances sharing one process, stop followed by start, configuration before and after start, a missing binary, and a retry after a refused session.

`ProcessSlot.Valid()` holds the invariant that at most one process is ever created for a slot. A ghost counter of the processes created is 1 exactly when the slot is filled. Every `Chrome` method preserves it. `Chrome.Valid()` adds that an instance holding a session always sees the slot filled.

Behaviours of the code that the model keeps:

- `stop()` clears neither `driver` nor the slot. A later `start()` on the same instance returns the quit session. A later `start()` on any instance spawns nothing, even though the process is stopped (`RestartAfterStop`).
- `start()` appends the switches to the options object before it requests the session. If the endpoint refuses, the switches stay appended and the process stays running, so a retry appends them a second time (`RetryAfterRefusal`).
- On Windows the binary path is not checked. PHP's coercion converts a `false` from `realpath` into the empty string on return from the `string`-typed `locateBinary`, and the model returns `""` in that case.
- The Mac path is written with a doubled slash (`/../bin//mac/chromedriver`), and the model keeps that exact string.
- `stop()` on an instance without a session raises PHP's error for calling a method on `null`. The model returns `Fail(NoSession)` and changes nothing.

## Model

| member | source | states |
|---|---|---|
| AbstractDriver.StrposFrom | src/Drivers/AbstractDriver.php:26 | the search behind `strpos`: scanning from `from`, the first offset at or after it where the needle occurs, or none when it occurs at no offset from there on |
| AbstractDriver.Strpos | src/Drivers/AbstractDriver.php:26 | `strpos` returns the first offset where the needle occurs, and `None` (PHP `false`) exactly when it occurs nowhere |
| AbstractDriver.IsWindows | src/Drivers/AbstractDriver.php:24-27 | Windows if and only if the OS name is exactly "WINNT" or the uname string contains "Microsoft" at some offset |
| AbstractDriver.IsMac | src/Drivers/AbstractDriver.php:34-37 | Mac if and only if the OS name is exactly "Darwin" |
| AbstractDriver.MacIgnoresUname | src/Drivers/AbstractDriver.php:36 | the Mac test gives the same answer for every uname string |
| AbstractDriver.WinntIsWindows | src/Drivers/AbstractDriver.php:26 | an OS name of "WINNT" is Windows for any uname |
| AbstractDriver.MicrosoftUnameIsWindows | src/Drivers/AbstractDriver.php:26 | a uname containing "Microsoft" is Windows for any OS name |
| AbstractDriver.OtherIsNotWindows | src/Drivers/AbstractDriver.php:26 | neither "WINNT" nor "Microsoft": not Windows |
| ArgumentMap.Get | src/Drivers/Chrome.php:57 | the key lookup that gives the assignment its meaning through `GetPut` (the source itself never reads the map by key): absent exactly when no entry has the key, otherwise the value of an entry with that key |
| ArgumentMap.Put | src/Drivers/Chrome.php:57 | assigning an existing key keeps the length and position, replaces that entry's value and leaves every other entry alone; a new key is appended at the end; key uniqueness is preserved |
| ArgumentMap.FlagOf | src/Drivers/Chrome.php:157-162 | the definition the `Flags`, `BareFlag` and `ParseArguments` rows rely on: a switch is `--` and the name, followed, when the value is not null, by `=` and exactly the value |
| ArgumentMap.Flags | src/Drivers/Chrome.php:152-166 | one switch per entry, the i-th switch being that of the i-th entry |
| ArgumentMap.GetPut | src/Drivers/Chrome.php:57 | after assigning k, reading k gives the new value and reading any other key gives what it gave before |
| ArgumentMap.PutFlag | src/Drivers/Chrome.php:54-58 | the switch of an assigned argument is among the serialised switches |
| ArgumentMap.PutNewKeyFlags | src/Drivers/Chrome.php:57 | a new key's switch comes after all existing switches |
| ArgumentMap.BareFlag | src/Drivers/Chrome.php:157-162 | an entry serialises to the bare `--name` exactly when its value is null; otherwise it is `--name=value` |
| ArgumentMap.DefaultKeys | src/Drivers/Chrome.php:28-32 | the default map has exactly the keys disable-gpu, headless and window-size |
| ArgumentMap.DefaultFlags | src/Drivers/Chrome.php:28-32 | the defaults serialise to exactly `--disable-gpu`, `--headless`, `--window-size=1920,1080`, in that order |
| Drivers.RealPath | src/Drivers/Chrome.php:133-138 | the `realpath` oracle: a path resolves exactly when the filesystem knows it, and then to one of the filesystem's canonical paths |
| Drivers.LocateBinary | src/Drivers/Chrome.php:130-145 | never fails on Windows; the only failure is the "could not locate" exception; a non-Windows success is a canonical path that the filesystem resolves to |
| Drivers.LocateWindows | src/Drivers/Chrome.php:132-134 | Windows takes priority and yields the resolved `windows/chromedriver.exe` path unchecked |
| Drivers.LocateMac | src/Drivers/Chrome.php:136-144 | on a non-Windows Mac the `mac/chromedriver` path is used and must resolve |
| Drivers.LocateLinux | src/Drivers/Chrome.php:136-144 | every other platform uses the `linux/chromedriver` path, which must resolve |
| Drivers.ProcessSlot.constructor | src/Drivers/Chrome.php:37 | the shared slot starts empty, with no process spawned |
| Drivers.Session.Create | src/Drivers/Chrome.php:76-82 | a session records its endpoint and the switches of its capabilities, and is open |
| Drivers.Session.Quit | src/Drivers/Chrome.php:92 | quitting closes the session |
| Drivers.Chrome.constructor | src/Drivers/Chrome.php:42-45 | a new instance has no session, an empty options object and the default arguments |
| Drivers.Chrome.AddArgument | src/Drivers/Chrome.php:54-59 | without a session the map becomes `Put` of the old map; with a session the map is unchanged; nothing else changes |
| Drivers.Chrome.Start | src/Drivers/Chrome.php:66-85 | with a session: returns it and changes nothing. Off Windows, with an empty slot and an unresolvable binary: throws and changes nothing. Otherwise: spawns `[binary, ""]` only into an empty slot, appends the serialised arguments once, and caches a fresh session at `http://localhost:9515` carrying the options (or fails with the session refused, leaving `driver` null). The slot invariant is preserved |
| Drivers.Chrome.Stop | src/Drivers/Chrome.php:90-94 | with a session: quits it and marks the shared process stopped, keeping it in the slot; `driver` stays set; without a session it fails and changes nothing |
| Drivers.Chrome.GetProcess | src/Drivers/Chrome.php:96-99 | returns the shared slot's content |
| Drivers.Chrome.StartProcess | src/Drivers/Chrome.php:104-112 | a filled slot is left as is; an empty slot gets a running process with command `[binary, ""]`, or stays empty when the binary lookup throws |
| Drivers.Chrome.StopProcess | src/Drivers/Chrome.php:117-122 | a process in the slot is marked stopped and stays in the slot; an empty slot stays empty |
| Drivers.Chrome.ParseArguments | src/Drivers/Chrome.php:152-166 | the loop returns exactly `Flags` of the argument map |
| ChromeScenarios.SharedProcess | src/Drivers/Chrome.php:104-112 | two instances on one slot get distinct sessions while only the first spawns; the second needs no binary on its host |
| ChromeScenarios.RestartAfterStop | src/Drivers/Chrome.php:66-94 | start, stop, start returns the same quit session, and the process stays stopped in the slot |
| ChromeScenarios.ConfigureThenStart | src/Drivers/Chrome.php:54-84 | an argument added before start reaches the session's switches, after the defaults when it is new; adding after start changes nothing |
| ChromeScenarios.OverrideDefault | src/Drivers/Chrome.php:54-58 | overriding `window-size` keeps it the third switch |
| ChromeScenarios.OverrideWindowSize | src/Drivers/Chrome.php:28-32 | the default map with `window-size` reassigned serialises to `--disable-gpu`, `--headless`, `--window-size=<size>` |
| ChromeScenarios.MissingBinary | src/Drivers/Chrome.php:72-74 | with no binary and an empty slot, `start()` throws the "could not locate" exception and leaves no process, no options and no session |
| ChromeScenarios.RetryAfterRefusal | src/Drivers/Chrome.php:72-84 | after a refused session, a successful retry carries the default switches twice, and the single process keeps running |

## Left out

- The WebDriver client (`RemoteWebDriver::create`, `quit`, `DesiredCapabilities`, `ChromeOptions`) is a foreign library. A session is reduced to its endpoint, its switches and a closed flag. The options object is reduced to the list of switches appended to it. Whether the endpoint grants a session is an input (`Host.grantsSession`).
- Symfony `Process` is OS I/O. A process is a record of its command and whether it runs. A failed spawn is not modelled: the source would leave the slot filled with a process that never ran.
- Filesystem access by `realpath` is a finite map from path to canonical path in `Host.files`.
- The `PHP_OS` constant, `php_uname()` and `__DIR__` are read from `Host` instead of process globals.
- Getting a session is not tied to the process running: `Host.grantsSession` is an input of its own. After one instance's `stop()`, a second instance's `start()` gets a fresh, open session from a chromedriver that has been stopped; the real client would fail to connect there.
- Concurrent first starts racing on the shared slot are not modelled. Calls are taken to be sequential.
- The abstract `start()`/`stop()` of `AbstractDriver` (src/Drivers/AbstractDriver.php:12-17) has no trait here. `Chrome` is its only implementation, and its methods carry that contract.
- `addArgument`'s default `$value = null` has no counterpart, because Dafny has no default parameters: callers pass `None`.
- PHP turns integer-like string keys into integer keys. This does not change order or serialisation, so strings are used throughout.
- Drivers.Chrome.Stop: the model does not show that it quits before it stops. Both happen in one call, and the state does not record which came first.
