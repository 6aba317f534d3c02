/**
 What a run of the command line does with the configuration slot: a sequence
 of `startDevices` and `stopDevices` calls, made one after another as callers
 must, from the moment the module is loaded until the process exits.
 */
module Session {
  import opened Wrappers
  import opened DeviceController

  /** One call into the module, with the way its collaborators settle. */
  datatype Call =
    | Start(options: SdkOptions, brainIp: Option<string>, loaded: seq<Device>,
            discovered: Result<Brain>, started: Reply)
    | Stop(stopped: Reply)

  /** The slot at the end, every SDK call made, and whether the process exited. */
  datatype Trace = Trace(slot: Option<ServerConfiguration>, log: seq<SdkCall>, exited: bool)

  /** The effect of one call on the slot. */
  function Step(slot: Option<ServerConfiguration>, call: Call): (r: StepResult)
    ensures slot.Some? ==> r.slot.Some?
    ensures r.slot != slot ==> r.slot.Some? && StartServer(r.slot.value) in r.log
    ensures forall c | StopServer(c) in r.log :: slot == Some(c)
    ensures r.outcome.Exit? ==> r.outcome.status == 1
    ensures |r.log| <= 2
  {
    match call
    case Start(options, brainIp, loaded, discovered, started) =>
      StartStep(slot, options, brainIp, loaded, discovered, started)
    case Stop(stopped) =>
      StopStep(slot, stopped)
  }

  /**
   Run `calls` in order from `slot`; `process.exit` ends the run, so nothing
   runs after a call that exits. Each call makes at most two SDK calls.
   */
  function Run(slot: Option<ServerConfiguration>, calls: seq<Call>): (t: Trace)
    ensures calls == [] ==> t == Trace(slot, [], false)
    ensures |t.log| <= 2 * |calls|
    decreases |calls|
  {
    if calls == [] then Trace(slot, [], false)
    else
      var r := Step(slot, calls[0]);
      if r.outcome.Exit? then Trace(r.slot, r.log, true)
      else
        var rest := Run(r.slot, calls[1..]);
        Trace(rest.slot, r.log + rest.log, rest.exited)
  }

  /** A start whose device loading and brain resolution both succeed. */
  predicate Resolves(call: Call) {
    call.Start? && StartResolves(call.options, call.brainIp, call.loaded, call.discovered)
  }

  /** Some start resolves, and every call before it is a stop. */
  ghost predicate FirstStartResolves(calls: seq<Call>) {
    exists i | 0 <= i < |calls| :: Resolves(calls[i]) && forall j | 0 <= j < i :: calls[j].Stop?
  }

  /** `count` successful stops in a row. */
  function Stops(count: nat): (calls: seq<Call>)
    ensures |calls| == count
  {
    seq(count, _ => Stop(Fulfilled))
  }

  /** Every stop in `log` uses the first slot value, or a value started earlier in `log`. */
  ghost predicate StopsAreCovered(initial: Option<ServerConfiguration>, log: seq<SdkCall>) {
    forall k | 0 <= k < |log| && log[k].StopServer? ::
      initial == Some(log[k].config) || StartServer(log[k].config) in log[..k]
  }

  /**
   `process.exit` ends the process: once a run has exited, any calls that
   would follow change nothing and make no SDK call.
   */
  lemma {:induction false} ExitEndsRun(slot: Option<ServerConfiguration>, calls: seq<Call>, more: seq<Call>)
    requires Run(slot, calls).exited
    ensures Run(slot, calls + more) == Run(slot, calls)
    decreases |calls|
  {
    var r := Step(slot, calls[0]);
    assert (calls + more)[0] == calls[0];
    if r.outcome.Continues? {
      assert (calls + more)[1..] == calls[1..] + more;
      ExitEndsRun(r.slot, calls[1..], more);
    }
  }

  /** Nothing ever clears the slot: once written, it stays written whatever follows. */
  lemma {:induction false} SlotNeverCleared(config: ServerConfiguration, calls: seq<Call>)
    ensures Run(Some(config), calls).slot.Some?
    decreases |calls|
  {
    if calls != [] {
      var r := Step(Some(config), calls[0]);
      if r.outcome.Continues? {
        SlotNeverCleared(r.slot.value, calls[1..]);
      }
    }
  }

  /** Stops made before any start are no-ops: no SDK call, no exit, slot still empty. */
  lemma {:induction false} StopsBeforeStartAreNoops(calls: seq<Call>)
    requires forall i | 0 <= i < |calls| :: calls[i].Stop?
    ensures Run(None, calls) == Trace(None, [], false)
    decreases |calls|
  {
    if calls != [] {
      StopsBeforeStartAreNoops(calls[1..]);
    }
  }

  /** A leading stop does not change which start comes first. */
  lemma FirstStartResolvesAfterStop(calls: seq<Call>)
    requires calls != [] && calls[0].Stop?
    ensures FirstStartResolves(calls) <==> FirstStartResolves(calls[1..])
  {
    if FirstStartResolves(calls[1..]) {
      var i :| 0 <= i < |calls[1..]| && Resolves(calls[1..][i]) && forall j | 0 <= j < i :: calls[1..][j].Stop?;
      assert Resolves(calls[i + 1]) && forall j | 0 <= j < i + 1 :: calls[j].Stop?;
    }
    if FirstStartResolves(calls) {
      var i :| 0 <= i < |calls| && Resolves(calls[i]) && forall j | 0 <= j < i :: calls[j].Stop?;
      assert Resolves(calls[1..][i - 1]) && forall j | 0 <= j < i - 1 :: calls[1..][j].Stop?;
    }
  }

  /**
   The slot is written exactly when the first start, after any number of
   stops, gets both its devices and its brain; it does not matter whether the
   server start itself then succeeds.
   */
  lemma {:induction false} SlotWrittenIffFirstStartResolves(calls: seq<Call>)
    ensures Run(None, calls).slot.Some? <==> FirstStartResolves(calls)
    decreases |calls|
  {
    if calls == [] {
      return;
    }
    var r := Step(None, calls[0]);
    if calls[0].Stop? {
      assert r == StepResult(None, [], Continues);
      SlotWrittenIffFirstStartResolves(calls[1..]);
      FirstStartResolvesAfterStop(calls);
    } else if Resolves(calls[0]) {
      if r.outcome.Continues? {
        SlotNeverCleared(r.slot.value, calls[1..]);
      }
    } else {
      assert r.slot.None? && r.outcome.Exit?;
    }
  }

  /** The stops of one call all use the slot's value from before the call. */
  lemma StepStopsCovered(slot: Option<ServerConfiguration>, call: Call)
    ensures StopsAreCovered(slot, Step(slot, call).log)
  {
  }

  /**
   Covered logs compose: when the slot value `middle` between two pieces is the
   first one's starting value or was started in the first piece, the whole log
   is covered from the first piece's starting value.
   */
  lemma CoveredConcat(initial: Option<ServerConfiguration>, middle: Option<ServerConfiguration>,
                      first: seq<SdkCall>, second: seq<SdkCall>)
    requires StopsAreCovered(initial, first)
    requires StopsAreCovered(middle, second)
    requires middle == initial || (middle.Some? && StartServer(middle.value) in first)
    ensures StopsAreCovered(initial, first + second)
  {
    var log := first + second;
    forall k | 0 <= k < |log| && log[k].StopServer?
      ensures initial == Some(log[k].config) || StartServer(log[k].config) in log[..k]
    {
      var c := log[k].config;
      if k < |first| {
        assert log[k] == first[k];
        assert log[..k] == first[..k];
      } else {
        var k' := k - |first|;
        assert second[k'] == StopServer(c);
        assert log[..k] == first + second[..k'];
      }
    }
  }

  /**
   Stop is issued only with the slot's value: every `stopServer` in a run uses
   either the value the run started with or one that an earlier `startServer`
   of the same run received.
   */
  lemma {:induction false} StopsUseStartedConfigurations(slot: Option<ServerConfiguration>, calls: seq<Call>)
    ensures StopsAreCovered(slot, Run(slot, calls).log)
    decreases |calls|
  {
    if calls == [] {
      return;
    }
    var r := Step(slot, calls[0]);
    StepStopsCovered(slot, calls[0]);
    if r.outcome.Continues? {
      StopsUseStartedConfigurations(r.slot, calls[1..]);
      CoveredConcat(slot, r.slot, r.log, Run(r.slot, calls[1..]).log);
    }
  }

  /** No server is ever stopped in a run that did not start it first. */
  lemma NoStopWithoutStart(calls: seq<Call>)
    ensures forall k | 0 <= k < |Run(None, calls).log| && Run(None, calls).log[k].StopServer? ::
      StartServer(Run(None, calls).log[k].config) in Run(None, calls).log[..k]
  {
    StopsUseStartedConfigurations(None, calls);
  }

  /**
   Stop does not clear the slot: `count` successful stops issue `stopServer`
   `count` times, always with the stored value, and the slot keeps it.
   */
  lemma {:induction false} RepeatedStopsReissue(config: ServerConfiguration, count: nat)
    ensures Run(Some(config), Stops(count)) == Trace(Some(config), seq(count, _ => StopServer(config)), false)
    decreases count
  {
    if count > 0 {
      assert Stops(count)[0] == Stop(Fulfilled);
      assert Stops(count)[1..] == Stops(count - 1);
      RepeatedStopsReissue(config, count - 1);
      assert [StopServer(config)] + seq(count - 1, _ => StopServer(config)) == seq(count, _ => StopServer(config));
    }
  }
}
