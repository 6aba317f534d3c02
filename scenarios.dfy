/** Concrete start and stop sequences worked through against the model. */
module Scenarios {
  import opened Wrappers
  import opened DeviceController
  import opened Session

  const NoOptions := SdkOptions(None, None, None, None)

  /**
   An explicit host and server port with one device: no discovery, the brain
   port defaults to 3000, the name to "default", and startServer receives that
   configuration, whatever BRAINIP says.
   */
  lemma ExplicitHostAndServerPort(device: Device, brainIp: Option<string>, discovered: Result<Brain>)
    ensures var options := SdkOptions(Some(1234), None, Some("10.0.0.5"), None);
      var config := ServerConfiguration(Brain("10.0.0.5", 3000, None), 1234, "default", [device]);
      StartStep(None, options, brainIp, [device], discovered, Fulfilled)
        == StepResult(Some(config), [StartServer(config)], Continues)
  {
  }

  /** No options, no BRAINIP, no devices: discovery is still asked for, the server is never started, exit 1. */
  lemma NoDevicesNoBrain(discovered: Result<Brain>, started: Reply)
    ensures StartStep(None, NoOptions, None, [], discovered, started)
      == StepResult(None, [DiscoverOneBrain], Exit(1))
  {
  }

  /** BRAINIP set and one device: the brain is taken from BRAINIP without discovery and start succeeds. */
  lemma BrainFromEnvironment(device: Device, discovered: Result<Brain>)
    ensures var config := ServerConfiguration(Brain("192.168.1.1", 3000, None), 6336, "default", [device]);
      StartStep(None, NoOptions, Some("192.168.1.1"), [device], discovered, Fulfilled)
        == StepResult(Some(config), [StartServer(config)], Continues)
  {
  }

  /** An empty BRAINIP counts as unset: the discovered brain is used, with its own port. */
  lemma EmptyBrainIpDiscovers(device: Device, found: Brain)
    ensures var config := ServerConfiguration(found, 6336, "default", [device]);
      StartStep(None, SdkOptions(None, None, Some(""), Some(0)), Some(""), [device], Ok(found), Fulfilled)
        == StepResult(Some(config), [DiscoverOneBrain, StartServer(config)], Continues)
  {
  }

  /** A start whose server start is rejected keeps its configuration stored, then exits. */
  lemma RejectedStartKeepsConfiguration(device: Device)
    ensures var config := ServerConfiguration(Brain("192.168.1.1", 3000, None), 6336, "default", [device]);
      Run(None, [Start(NoOptions, Some("192.168.1.1"), [device], Err(BrainDiscoveryFailed), Rejected), Stop(Fulfilled)])
        == Trace(Some(config), [StartServer(config)], true)
  {
  }

  /** Start then stop twice: stop is issued twice, with exactly the started configuration. */
  lemma StartThenStopTwice(device: Device)
    ensures var config := ServerConfiguration(Brain("10.0.0.5", 3000, None), 6336, "default", [device]);
      Run(None, [Start(SdkOptions(None, None, Some("10.0.0.5"), None), None, [device], Err(BrainDiscoveryFailed), Fulfilled),
                 Stop(Fulfilled), Stop(Fulfilled)])
        == Trace(Some(config), [StartServer(config), StopServer(config), StopServer(config)], false)
  {
    var config := ServerConfiguration(Brain("10.0.0.5", 3000, None), 6336, "default", [device]);
    var start := Start(SdkOptions(None, None, Some("10.0.0.5"), None), None, [device], Err(BrainDiscoveryFailed), Fulfilled);
    assert [start, Stop(Fulfilled), Stop(Fulfilled)][1..] == Stops(2);
    RepeatedStopsReissue(config, 2);
  }
}
