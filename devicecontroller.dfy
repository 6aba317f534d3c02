/**
 The lifecycle orchestrator of the NEEO SDK toolkit command line: it resolves
 where the NEEO Brain is (explicit option, the BRAINIP environment variable, or
 network discovery), loads the device list, assembles the SDK server
 configuration, keeps it in one process-wide slot, and drives the SDK's start
 and stop calls with it.

 The SDK (`discoverOneBrain`, `startServer`, `stopServer`) and the device
 loader are outside this model: their results are parameters, and each SDK
 call the orchestrator makes is recorded in a log so that contracts can say
 which calls were made and with which configuration.
 */
module DeviceController {
  import opened Wrappers

  /** A NEEO Brain as the SDK needs it. A brain built from options has no name. */
  datatype Brain = Brain(host: string, port: int, name: Option<string>)

  /** One device definition supplied by the device loader; only the number of them matters here. */
  datatype Device = Device(definition: string)

  /** The options the command line passes to `startDevices`; `None` is `undefined`. */
  datatype SdkOptions = SdkOptions(
    serverPort: Option<int>,
    serverName: Option<string>,
    brainHost: Option<string>,
    brainPort: Option<int>)

  /** The object handed to the SDK's `startServer` and `stopServer`. */
  datatype ServerConfiguration = ServerConfiguration(
    brain: Brain,
    port: int,
    name: string,
    devices: seq<Device>)

  /** Where the brain comes from: built directly, or to be asked of the SDK's discovery. */
  datatype BrainSource = Direct(brain: Brain) | Discover

  /** How an SDK start or stop promise settles. */
  datatype Reply = Fulfilled | Rejected

  /** A call into the SDK, as the orchestrator issues it. */
  datatype SdkCall =
    | DiscoverOneBrain
    | StartServer(config: ServerConfiguration)
    | StopServer(config: ServerConfiguration)

  /** Whether the process carries on, or ends through `process.exit(status)`. */
  datatype Outcome = Continues | Exit(status: int)

  /** The slot after one operation, the SDK calls it made, and how it ended. */
  datatype StepResult = StepResult(slot: Option<ServerConfiguration>, log: seq<SdkCall>, outcome: Outcome)

  const DefaultBrainPort := 3000
  const DefaultServerPort := 6336
  const DefaultServerName := "default"

  /** JavaScript truthiness of an optional string: `undefined` and `""` are falsy. */
  predicate TruthyString(s: Option<string>) {
    s.Some? && s.value != ""
  }

  /** JavaScript truthiness of an optional number: `undefined` and `0` are falsy. */
  predicate TruthyNumber(n: Option<int>) {
    n.Some? && n.value != 0
  }

  /**
   `isBrainDefinedIn`: an explicit, non-empty brain host, or a truthy BRAINIP.
   The explicit `!== ''` test on the host adds nothing to its truthiness.
   */
  function IsBrainDefinedIn(options: SdkOptions, brainIp: Option<string>): (defined: bool)
    ensures defined <==> TruthyString(options.brainHost) || TruthyString(brainIp)
    ensures !defined ==> brainIp.None? || brainIp.value == ""
  {
    (options.brainHost.Some? && options.brainHost.value != "") || TruthyString(brainIp)
  }

  /** `getBrainFrom`: host is `brainHost || BRAINIP`, port is `brainPort || 3000`. */
  function GetBrainFrom(options: SdkOptions, brainIp: Option<string>): (b: Brain)
    requires IsBrainDefinedIn(options, brainIp)
    ensures b.host != "" && b.port != 0 && b.name.None?
    ensures TruthyString(options.brainHost) ==> b.host == options.brainHost.value
    ensures !TruthyString(options.brainHost) ==> b.host == brainIp.value
    ensures TruthyNumber(options.brainPort) ==> b.port == options.brainPort.value
    ensures !TruthyNumber(options.brainPort) ==> b.port == DefaultBrainPort
  {
    var host := if TruthyString(options.brainHost) then options.brainHost.value else brainIp.value;
    var port := if TruthyNumber(options.brainPort) then options.brainPort.value else DefaultBrainPort;
    Brain(host, port, None)
  }

  /** `getBrain`: build the brain from the options when one is defined, otherwise discover. */
  function GetBrain(options: SdkOptions, brainIp: Option<string>): (s: BrainSource)
    ensures s.Discover? <==> !TruthyString(options.brainHost) && !TruthyString(brainIp)
    ensures s.Direct? ==> s.brain.host != "" && s.brain.name.None?
    ensures s.Direct? && TruthyString(options.brainHost) ==> s.brain.host == options.brainHost.value
    ensures s.Direct? && !TruthyString(options.brainHost) ==> s.brain.host == brainIp.value
    ensures s.Direct? ==> s.brain.port == if TruthyNumber(options.brainPort) then options.brainPort.value else DefaultBrainPort
  {
    if IsBrainDefinedIn(options, brainIp) then Direct(GetBrainFrom(options, brainIp)) else Discover
  }

  /**
   The brain `getBrain`'s promise settles with, given how discovery would settle
   (`discovered` is only consulted when discovery is chosen).
   */
  function ResolveBrain(options: SdkOptions, brainIp: Option<string>, discovered: Result<Brain>): (r: Result<Brain>)
    ensures IsBrainDefinedIn(options, brainIp) ==> r == Ok(GetBrainFrom(options, brainIp))
    ensures !IsBrainDefinedIn(options, brainIp) ==> r == discovered
  {
    match GetBrain(options, brainIp)
    case Direct(brain) => Ok(brain)
    case Discover => discovered
  }

  /** `loadDevices`: the loader's list, or the "No devices found!" rejection when it is empty. */
  function LoadDevices(loaded: seq<Device>): (r: Result<seq<Device>>)
    ensures r.Ok? <==> |loaded| > 0
    ensures r.Ok? ==> r.value == loaded
    ensures r.Err? ==> r.error == NoDevicesFound
  {
    if |loaded| == 0 then Err(NoDevicesFound) else Ok(loaded)
  }

  /** The value `storeSdkServerConfiguration` stores: defaults applied, brain and devices passed through. */
  function SdkServerConfiguration(brain: Brain, options: SdkOptions, devices: seq<Device>): (c: ServerConfiguration)
    ensures c.brain == brain && c.devices == devices
    ensures c.port != 0 && c.name != ""
    ensures TruthyNumber(options.serverPort) ==> c.port == options.serverPort.value
    ensures !TruthyNumber(options.serverPort) ==> c.port == DefaultServerPort
    ensures TruthyString(options.serverName) ==> c.name == options.serverName.value
    ensures !TruthyString(options.serverName) ==> c.name == DefaultServerName
  {
    ServerConfiguration(
      brain,
      if TruthyNumber(options.serverPort) then options.serverPort.value else DefaultServerPort,
      if TruthyString(options.serverName) then options.serverName.value else DefaultServerName,
      devices)
  }

  /** Both branches of a start's join succeed: devices were found and the brain resolves. */
  predicate StartResolves(options: SdkOptions, brainIp: Option<string>, loaded: seq<Device>, discovered: Result<Brain>) {
    |loaded| > 0 && (IsBrainDefinedIn(options, brainIp) || discovered.Ok?)
  }

  /** The SDK calls `getBrain` makes: one discovery when no brain is defined, none otherwise. */
  function DiscoveryCalls(options: SdkOptions, brainIp: Option<string>): (calls: seq<SdkCall>)
    ensures (DiscoverOneBrain in calls) <==> !IsBrainDefinedIn(options, brainIp)
    ensures forall call | call in calls :: call == DiscoverOneBrain
    ensures |calls| <= 1
  {
    if GetBrain(options, brainIp).Discover? then [DiscoverOneBrain] else []
  }

  /**
   `startDevices` from the slot `slot`: load the devices and resolve the brain
   (both must succeed), store the configuration, then start the server with it.
   Every failure ends in exit status 1.
   */
  function StartStep(
    slot: Option<ServerConfiguration>, options: SdkOptions, brainIp: Option<string>,
    loaded: seq<Device>, discovered: Result<Brain>, started: Reply): (r: StepResult)
    // discovery is asked for exactly once when no brain is configured, never otherwise,
    // even when the device list turns out to be empty
    ensures multiset(r.log)[DiscoverOneBrain] == if IsBrainDefinedIn(options, brainIp) then 0 else 1
    // the process carries on only when every step succeeded; any failure exits with 1
    ensures r.outcome.Continues? <==>
      StartResolves(options, brainIp, loaded, discovered) && started == Fulfilled
    ensures r.outcome.Exit? ==> r.outcome.status == 1
    // an empty device list leaves the slot alone and never reaches startServer
    ensures |loaded| == 0 ==> r.slot == slot && forall call | call in r.log :: !call.StartServer?
    // so does a failed discovery
    ensures !IsBrainDefinedIn(options, brainIp) && discovered.Err? ==>
      r.slot == slot && forall call | call in r.log :: !call.StartServer?
    // once both succeed the slot is written, and startServer, the last call, gets exactly
    // the stored value; a rejected start does not undo the write
    ensures StartResolves(options, brainIp, loaded, discovered) ==>
      r.slot == Some(SdkServerConfiguration(ResolveBrain(options, brainIp, discovered).value, options, loaded))
    // startServer is called once, after any discovery, and only when both resolve
    ensures r.log == DiscoveryCalls(options, brainIp)
      + (if StartResolves(options, brainIp, loaded, discovered) then [StartServer(r.slot.value)] else [])
    ensures forall call | call in r.log :: !call.StopServer?
  {
    var devices := LoadDevices(loaded);
    var asked := DiscoveryCalls(options, brainIp);
    var brain := ResolveBrain(options, brainIp, discovered);
    if devices.Err? || brain.Err? then
      StepResult(slot, asked, Exit(1))
    else
      var config := SdkServerConfiguration(brain.value, options, devices.value);
      StepResult(Some(config), asked + [StartServer(config)], if started == Fulfilled then Continues else Exit(1))
  }

  /**
   `stopDevices` from the slot `slot`: nothing when it is empty, otherwise stop
   the server with the stored value, which stays stored; a rejection exits with 1.
   */
  function StopStep(slot: Option<ServerConfiguration>, stopped: Reply): (r: StepResult)
    ensures r.slot == slot
    ensures slot.None? ==> r.log == [] && r.outcome == Continues
    ensures slot.Some? ==> r.log == [StopServer(slot.value)]
    ensures r.outcome.Exit? <==> slot.Some? && stopped == Rejected
    ensures r.outcome.Exit? ==> r.outcome.status == 1
  {
    match slot
    case None => StepResult(slot, [], Continues)
    case Some(config) => StepResult(slot, [StopServer(config)], if stopped == Rejected then Exit(1) else Continues)
  }

  /**
   The module itself: `serverConfiguration` is the module-level slot, and
   `sdkCalls` records every call made into the SDK.
   */
  class Controller {
    var serverConfiguration: Option<ServerConfiguration>
    ghost var sdkCalls: seq<SdkCall>

    /** The state when the module is loaded: no configuration, no SDK call yet. */
    constructor ()
      ensures serverConfiguration.None? && sdkCalls == []
    {
      serverConfiguration := None;
      sdkCalls := [];
    }

    /** `storeSdkServerConfiguration`: overwrite the slot with the assembled configuration. */
    method StoreSdkServerConfiguration(brain: Brain, options: SdkOptions, devices: seq<Device>)
      modifies this
      ensures serverConfiguration == Some(SdkServerConfiguration(brain, options, devices))
      ensures sdkCalls == old(sdkCalls)
    {
      serverConfiguration := Some(SdkServerConfiguration(brain, options, devices));
    }

    /**
     `startDevices`. `loaded` is what the device loader returns, `discovered`
     how the SDK's discovery would settle, `started` how `startServer` settles.
     */
    method StartDevices(options: SdkOptions, brainIp: Option<string>, loaded: seq<Device>,
                        discovered: Result<Brain>, started: Reply) returns (outcome: Outcome)
      modifies this
      ensures var r := StartStep(old(serverConfiguration), options, brainIp, loaded, discovered, started);
        serverConfiguration == r.slot && sdkCalls == old(sdkCalls) + r.log && outcome == r.outcome
    {
      ghost var before := sdkCalls;
      // Promise.all: both branches are started before either result is looked at
      var devices := LoadDevices(loaded);
      var source := GetBrain(options, brainIp);
      var brain: Result<Brain>;
      if source.Discover? {
        sdkCalls := sdkCalls + [DiscoverOneBrain];
        brain := discovered;
      } else {
        brain := Ok(source.brain);
      }
      assert sdkCalls == before + DiscoveryCalls(options, brainIp);
      assert brain == ResolveBrain(options, brainIp, discovered);
      if devices.Err? || brain.Err? {
        return Exit(1);
      }
      StoreSdkServerConfiguration(brain.value, options, devices.value);
      sdkCalls := sdkCalls + [StartServer(serverConfiguration.value)];
      assert sdkCalls == before + (DiscoveryCalls(options, brainIp) + [StartServer(serverConfiguration.value)]);
      if started == Rejected {
        return Exit(1);
      }
      outcome := Continues;
    }

    /** `stopDevices`. `stopped` is how `stopServer` settles. */
    method StopDevices(stopped: Reply) returns (outcome: Outcome)
      modifies this
      ensures var r := StopStep(old(serverConfiguration), stopped);
        serverConfiguration == r.slot && sdkCalls == old(sdkCalls) + r.log && outcome == r.outcome
    {
      if serverConfiguration.None? {
        return Continues;
      }
      sdkCalls := sdkCalls + [StopServer(serverConfiguration.value)];
      outcome := if stopped == Rejected then Exit(1) else Continues;
    }
  }
}
