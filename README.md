# NEEO SDK toolkit: device controller lifecycle model

This project models the lifecycle orchestrator of the NEEO SDK toolkit
command line (`cli/lib/devicecontroller.js`). The orchestrator has four jobs:

- It decides where the NEEO Brain is. The options' `brainHost` comes first. The
  `BRAINIP` environment variable comes next. When neither is set, the SDK's
  network discovery is used.
- It loads the device list and refuses an empty one.
- It assembles the SDK server configuration, with server port 6336 and name
  `"default"` as defaults, and keeps it in one module-level slot.
- It starts the server with that configuration and later stops it. Every
  failure ends the process with exit status 1.

Files:

- `wrappers.dfy` (module `Wrappers`): `Option` (JavaScript `undefined` is `None`), the error kinds, and a `Result` for settled promises.
- `devicecontroller.dfy` (module `DeviceController`):
  - value types, and the JavaScript `||` defaults written out as truthiness predicates;
  - the pure policy functions (`GetBrainFrom`, `GetBrain`, `ResolveBrain`, `LoadDevices`, `SdkServerConfiguration`);
  - the specifications `StartStep` and `StopStep` of one call of `startDevices` and `stopDevices`;
  - a class `Controller` whose field `serverConfiguration` is the module-level slot. Its methods follow the source step by step and are proved against `StartStep` and `StopStep`.
- `session.dfy` (module `Session`): a run is a sequence of start and stop calls that stops at the first exit. Its lemmas are proved by induction over the run: the slot is never cleared; it is written exactly when the first start resolves both its devices and its brain; stop uses only configurations that were started; repeated stops re-issue the stop.
- `scenarios.dfy` (module `Scenarios`): concrete start and stop sequences.

SDK and device-loader results are parameters. `discovered` says how
`discoverOneBrain` would settle, `started` and `stopped` how `startServer` and
`stopServer` settle, and `loaded` is the device loader's list. A ghost log
`sdkCalls` records each SDK call (`DiscoverOneBrain`, `StartServer(config)`,
`StopServer(config)`), so contracts can say which calls were made and with
which value.

`startDevices` writes the slot (line 36) before it calls `startServer`
(line 37), and a rejected start does not undo the write. So the slot can hold
a configuration whose server never started. `StartStep` and
`Scenarios.RejectedStartKeepsConfiguration` state this.

Discovery is requested whenever no brain is configured, even when the device
list is empty. Both `loadDevices()` and `getBrain()` are evaluated to build
the array given to `Promise.all` (lines 26-29), so `getBrain` has already run
when `Promise.all`'s rejection reaches the `catch` at line 42.

## Model

| member | source | states |
|---|---|---|
| DeviceController.IsBrainDefinedIn | cli/lib/devicecontroller.js:79-82 | a brain is defined exactly when `brainHost` or `BRAINIP` is truthy (neither undefined nor empty); when it is not, BRAINIP is unset or empty |
| DeviceController.GetBrainFrom | cli/lib/devicecontroller.js:84-90 | the host is `brainHost` when that is a non-empty string, otherwise `BRAINIP`; the port is `brainPort` when non-zero, otherwise 3000; the host is never empty and the brain has no name |
| DeviceController.GetBrain | cli/lib/devicecontroller.js:75-82 | discovery is chosen exactly when both `brainHost` and `BRAINIP` are falsy (undefined or empty); otherwise a direct brain whose host follows the priority `brainHost`, then `BRAINIP`, and whose port defaults to 3000 (also for port 0) |
| DeviceController.ResolveBrain | cli/lib/devicecontroller.js:75-98 | with a configured brain the result is exactly the brain built by `getBrainFrom`, whatever discovery would give; without one the result is exactly what discovery settles with, success or failure |
| DeviceController.LoadDevices | cli/lib/devicecontroller.js:58-73 | the load succeeds exactly when the list is non-empty, and then returns the loader's list unchanged; an empty list is the `NoDevicesFound` rejection |
| DeviceController.SdkServerConfiguration | cli/lib/devicecontroller.js:48-56 | brain and devices pass through unchanged; the port is `serverPort` when non-zero, else 6336; the name is `serverName` when non-empty, else "default" |
| DeviceController.DiscoveryCalls | cli/lib/devicecontroller.js:75-94 | `getBrain` asks the SDK for discovery at most once, and exactly when no brain is configured |
| DeviceController.StartStep | cli/lib/devicecontroller.js:25-46 | discovery is asked for exactly once when no brain is configured, also when the device list is empty; the process carries on if and only if devices are non-empty, the brain resolves and the start is fulfilled; any failure gives exit status 1; an empty list or a failed discovery leaves the slot untouched and never calls startServer; after both resolve, the slot holds the assembled configuration, with no rollback when the start is rejected; the SDK calls are the discovery call (when made) followed by exactly one startServer with the stored value, made only when both resolve; start never calls stopServer |
| DeviceController.StopStep | cli/lib/devicecontroller.js:14-23 | the slot never changes; with an empty slot there is no SDK call and no exit; with a stored value, stopServer gets exactly that value; exit status 1 exactly when a stored configuration's stop is rejected |
| DeviceController.Controller.constructor | cli/lib/devicecontroller.js:7 | the slot starts empty and no SDK call has been made |
| DeviceController.Controller.StoreSdkServerConfiguration | cli/lib/devicecontroller.js:48-56 | overwrites the slot with the assembled configuration and makes no SDK call |
| DeviceController.Controller.StartDevices | cli/lib/devicecontroller.js:25-46 | the new slot, the SDK calls appended to the log, and the outcome are exactly those of `StartStep` from the old slot |
| DeviceController.Controller.StopDevices | cli/lib/devicecontroller.js:14-23 | the new slot, the SDK calls appended to the log, and the outcome are exactly those of `StopStep` from the old slot |
| Session.Run | cli/lib/devicecontroller.js:14-45 | calls run one after another from the given slot; an empty run changes nothing, and each call makes at most two SDK calls |
| Session.ExitEndsRun | cli/lib/devicecontroller.js:19-45 | `process.exit` ends the run: once a run has exited (a rejected start or stop, or a failed resolution), any calls appended after it change neither the slot nor the SDK calls, so no stop ever follows a failed start |
| Session.Step | cli/lib/devicecontroller.js:14-56 | one call never empties a filled slot; a call that changes the slot also calls startServer with the new value; every stopServer uses the slot's value from before the call; every exit has status 1 |
| Session.SlotNeverCleared | cli/lib/devicecontroller.js:14-56 | once the slot holds a configuration, it holds one after any sequence of start and stop calls |
| Session.StopsBeforeStartAreNoops | cli/lib/devicecontroller.js:14-17 | any number of stops before any start make no SDK call, do not exit and leave the slot empty |
| Session.SlotWrittenIffFirstStartResolves | cli/lib/devicecontroller.js:25-56 | from process start, the slot ends up filled if and only if the first start call (after any stops) resolves both its devices and its brain, whether or not the server start itself succeeds |
| Session.StopsUseStartedConfigurations | cli/lib/devicecontroller.js:14-45 | every stopServer in a run uses either the slot's value at the beginning of the run or a configuration that an earlier startServer of the same run received |
| Session.NoStopWithoutStart | cli/lib/devicecontroller.js:14-45 | from process start, every stopServer is preceded by a startServer with the same configuration |
| Session.RepeatedStopsReissue | cli/lib/devicecontroller.js:14-23 | with a stored configuration, n fulfilled stops issue stopServer n times with exactly that value, keep it stored and do not exit |
| Scenarios.ExplicitHostAndServerPort | cli/lib/devicecontroller.js:25-56 | `brainHost` "10.0.0.5" and server port 1234 with one device give a brain at 10.0.0.5:3000 and a server named "default" on 1234, without discovery, whatever BRAINIP is |
| Scenarios.NoDevicesNoBrain | cli/lib/devicecontroller.js:25-73 | no options, no BRAINIP and no devices: discovery is asked for, startServer is never called, the slot stays empty, exit 1 |
| Scenarios.BrainFromEnvironment | cli/lib/devicecontroller.js:79-89 | BRAINIP 192.168.1.1 with one device: no discovery, brain at 192.168.1.1:3000, server on 6336 named "default", process carries on |
| Scenarios.EmptyBrainIpDiscovers | cli/lib/devicecontroller.js:76-98 | an empty `brainHost`, an empty BRAINIP and `brainPort` 0 all count as unset: discovery runs and its brain is used as found |
| Scenarios.RejectedStartKeepsConfiguration | cli/lib/devicecontroller.js:36-45 | a rejected server start leaves the configuration stored and exits, so a later stop is never reached |
| Scenarios.StartThenStopTwice | cli/lib/devicecontroller.js:14-45 | a successful start followed by two stops calls stopServer twice with exactly the started configuration |

## Left out

- The SDK calls `discoverOneBrain`, `startServer` and `stopServer`: their internals are external. Only how their promises settle is modelled, as parameters.
- The device loader (`./deviceloader`) is not part of this model. Its result is a parameter list, and only whether it is empty matters.
- Concurrency of `Promise.all`: both branches are run and the join succeeds only when both succeed. Which rejection is reported when both fail is not modelled, because the outcome is exit 1 either way.
- Calls made while a start is still pending are not modelled; each call is treated as completing before the next one. In the source, a stop during a pending start sees the slot as it is at that moment: the previous configuration (or none) until line 36 runs, and the new configuration afterwards, even while `startServer` is still pending.
- `stopDevices` does not return its promise, so its rejection exits the process later. The model treats that exit as the end of the call.
- Console output is I/O and is not modelled. This covers the diagnostic message text and the brain label `brain.name || 'unknown'`. `process.exit(1)` is the outcome value `Exit(1)`.
- `process.env.BRAINIP` is an explicit optional-string parameter.
- JavaScript truthiness is modelled for the values the command line passes: `undefined` and `""` for strings, `undefined` and `0` for numbers. `NaN` and option values of other JavaScript types are not modelled.
