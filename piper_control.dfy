/** The single-arm end-effector robot of
    src/deploy/robots/piper/piper_end_effector.py: an action is turned into
    a new end-effector state by standardising a reference state, applying
    the replay transform, and de-standardising the result. The arm itself
    is a device seen only through its connection flag and the end-effector
    state it reports and accepts. */
module PiperControl {
  import opened Wrappers
  import opened Geometry
  import opened Standardizations
  import Replay = ReplayTransforms
  import Visualization

  /** `PiperEndEffector.name`, also the key it asks the standardisation
      registry for. */
  const Name: string := "piper_end_effector"

  /** The configuration fields the robot reads. */
  datatype PiperEndEffectorConfig = PiperEndEffectorConfig(
    controlMode: string,
    baseEuler: Option<Vec3>,
    deltaWithPrevious: bool,
    visualize: bool,
    initEeState: seq<real>)

  /** The standardisation and the transform `__init__` looks up. */
  datatype Setup = Setup(standardization: Standardization, transform: Replay.ReplayTransform)

  /** The two registry lookups of `__init__`, with the standardisation
      looked up under `standardizationKey`. */
  function Lookup(standardizationKey: string, config: PiperEndEffectorConfig): (r: Result<Setup>)
    ensures r.Ok? <==> GetStandardization(standardizationKey).Ok? &&
                       Replay.GetTransform(config.controlMode, config.baseEuler).Ok?
    ensures GetStandardization(standardizationKey).Err? ==> r == Err(GetStandardization(standardizationKey).error)
  {
    var standardization :- GetStandardization(standardizationKey);
    var transform :- Replay.GetTransform(config.controlMode, config.baseEuler);
    Ok(Setup(standardization, transform))
  }

  /** `__init__` as written: the standardisation is looked up under the
      robot's name, which the registry (it knows only "dummy" and "piper")
      rejects, so construction fails for every configuration. */
  function SetupAsWritten(config: PiperEndEffectorConfig): (r: Result<Setup>)
    ensures r == Err(ValueError("Unknown standardization type: " + Name))
  {
    Lookup(Name, config)
  }

  /** The lookups with the standardisation the arm's units call for:
      construction succeeds exactly for the three replay control modes,
      with the Piper standardisation, and otherwise fails with the
      transform registry's error. */
  function SetupCorrected(config: PiperEndEffectorConfig): (r: Result<Setup>)
    ensures r.Ok? <==>
      config.controlMode in {"ee_absolute", "ee_delta_base_to_absolute", "ee_delta_gripper_to_absolute"}
    ensures r.Ok? ==>
      r.value.standardization == Piper &&
      Replay.GetTransform(config.controlMode, config.baseEuler) == Ok(r.value.transform)
    ensures r.Err? ==> r.error == Replay.GetTransform(config.controlMode, config.baseEuler).error
  {
    Lookup("piper", config)
  }

  // ---------------------------------------------------------------------------
  // The control pipeline

  /** The end-effector state `send_action` writes for `action`, starting
      from the reference state `reference` (both seven channels). */
  function Command(s: Standardization, t: Replay.ReplayTransform, conv: EulerConvention,
                   reference: seq<real>, action: seq<real>): (r: seq<real>)
    requires |reference| == 7 && |action| == 7
    ensures |r| == 7
    ensures s.Piper? ==> forall i :: 0 <= i < 7 ==> IsIntegral(r[i])
  {
    Output(s, Replay.Call(conv, t, Input(s, reference), action))
  }

  /** With the absolute control mode the reference state plays no part. */
  lemma AbsoluteIgnoresReference(s: Standardization, conv: EulerConvention,
                                 ref1: seq<real>, ref2: seq<real>, action: seq<real>)
    requires |ref1| == |ref2| == 7 && |action| == 7
    ensures Command(s, Replay.Absolute, conv, ref1, action) == Command(s, Replay.Absolute, conv, ref2, action)
    ensures s.Dummy? ==> Command(s, Replay.Absolute, conv, ref1, action) == action
  {
  }

  /** The state the arm ends up in, read back in canonical units, is the
      transform's target: exactly with the identity standardisation, and to
      within one Piper unit per channel, rounded toward zero, with the
      Piper standardisation. */
  lemma {:induction false} CommandTracksTarget(s: Standardization, t: Replay.ReplayTransform, conv: EulerConvention,
                                               reference: seq<real>, action: seq<real>)
    requires |reference| == 7 && |action| == 7
    ensures var target := Replay.Call(conv, t, Input(s, reference), action);
      var reached := Input(s, Command(s, t, conv, reference, action));
      (s.Dummy? ==> reached == target) &&
      (s.Piper? ==> forall i :: 0 <= i < 7 ==>
        -Step(i) < reached[i] - target[i] < Step(i) &&
        (0.0 <= target[i] ==> 0.0 <= reached[i] <= target[i]) &&
        (target[i] < 0.0 ==> target[i] <= reached[i] <= 0.0))
  {
    if s.Piper? {
      InputOutputWithinStep(Replay.Call(conv, t, Input(s, reference), action));
    }
  }

  /** A zero base-frame delta from a reference in whole Piper units holds
      the pose: the six pose channels are written back unchanged. */
  lemma {:induction false} ZeroDeltaHoldsPose(conv: EulerConvention, reference: seq<real>, action: seq<real>)
    requires |reference| == 7 && |action| == 7
    requires forall i :: 0 <= i < 7 ==> IsIntegral(reference[i])
    requires forall i :: 0 <= i < 6 ==> action[i] == 0.0
    ensures var r := Command(Piper, Replay.DeltaBaseToAbsolute, conv, reference, action);
      forall i :: 0 <= i < 6 ==> r[i] == reference[i]
  {
    var c := PiperInput(reference);
    var target := Replay.DeltaBaseToAbsoluteCall(c, action);
    var held := c[..6] + [action[6]];
    assert forall i :: 0 <= i < 7 ==> target[i] == held[i];
    assert target == held;
    OutputInvertsInput(reference);
    var back := PiperOutput(c);
    var r := PiperOutput(held);
    forall i | 0 <= i < 6 ensures r[i] == reference[i] {
      SameChannelSameOutput(held, c, i);
    }
  }

  /** Each output channel depends only on the same input channel. */
  lemma SameChannelSameOutput(x: seq<real>, y: seq<real>, i: nat)
    requires |x| >= 7 && |y| >= 7 && i < 7 && x[i] == y[i]
    ensures PiperOutput(x)[i] == PiperOutput(y)[i]
  {
  }

  // ---------------------------------------------------------------------------
  // The device and the robot

  /** The Piper arm behind the SDK interface: a connection flag and the
      end-effector state in Piper units. */
  class PiperArm {
    var connected: bool
    var eeState: seq<real>

    constructor(eeState: seq<real>)
      ensures !connected && this.eeState == eeState
    {
      connected := false;
      this.eeState := eeState;
    }

    /** `connect`: open the port and enable the arm. */
    method Connect()
      modifies this
      ensures connected && eeState == old(eeState)
    {
      connected := true;
    }

    /** `_get_ee_state`. */
    method GetEeState() returns (s: seq<real>)
      ensures s == eeState
    {
      s := eeState;
    }

    /** `_set_ee_state`. */
    method SetEeState(s: seq<real>)
      modifies this
      ensures eeState == s && connected == old(connected)
    {
      eeState := s;
    }
  }

  class PiperEndEffector {
    const device: PiperArm
    const conv: EulerConvention
    const standardization: Standardization
    const transform: Replay.ReplayTransform
    const deltaWithPrevious: bool
    const visualizer: Option<Visualization.TrajectoryVisualizer>
    var baseState: Option<seq<real>>

    function Repr(): set<object>
      reads this
    {
      {device} + if visualizer.Some? then {visualizer.value} else {}
    }

    /** The arm reports seven channels; once connected a base state has
        been captured; a visualizer plots absolute states. */
    predicate Valid()
      reads this, Repr()
    {
      |device.eeState| == 7 &&
      (baseState.Some? ==> |baseState.value| == 7) &&
      (device.connected ==> baseState.Some?) &&
      (visualizer.Some? ==> visualizer.value.Valid() && visualizer.value.mode.AbsoluteMode?)
    }

    /** The state the next action is applied to: the live state when
        deltas are taken from the previous state, the base state captured
        at connection otherwise. */
    function Reference(): (r: seq<real>)
      requires Valid() && device.connected
      reads this, Repr()
      ensures |r| == 7
      ensures deltaWithPrevious ==> r == device.eeState
      ensures !deltaWithPrevious ==> r == baseState.value
    {
      if deltaWithPrevious then device.eeState else baseState.value
    }

    /** `__init__` with the lookups resolved by `SetupCorrected`; the
        visualizer starts from the configured initial state. */
    constructor(config: PiperEndEffectorConfig, conv: EulerConvention, setup: Setup, device: PiperArm)
      requires SetupCorrected(config) == Ok(setup)
      requires |config.initEeState| >= 7
      requires !device.connected && |device.eeState| == 7
      ensures Valid()
      ensures this.device == device && this.conv == conv
      ensures standardization == setup.standardization && transform == setup.transform
      ensures deltaWithPrevious == config.deltaWithPrevious
      ensures baseState == None
      ensures visualizer.Some? <==> config.visualize
      ensures visualizer.Some? ==>
        (fresh(visualizer.value) &&
         visualizer.value.Snapshot() == Visualization.InitialTrack(Visualization.AbsoluteMode, conv, config.initEeState))
    {
      var vis: Option<Visualization.TrajectoryVisualizer> := None;
      if config.visualize {
        var made := Visualization.GetVisualizer(conv, config.initEeState, "ee_absolute");
        vis := Some(made.value.v);
      }
      this.device := device;
      this.conv := conv;
      standardization := setup.standardization;
      transform := setup.transform;
      deltaWithPrevious := config.deltaWithPrevious;
      visualizer := vis;
      baseState := None;
    }

    /** `connect`: connect the arm, then capture its state as the base
        state. */
    method Connect()
      requires Valid()
      modifies this, device
      ensures Valid()
      ensures device.connected && device.eeState == old(device.eeState)
      ensures baseState == Some(device.eeState)
    {
      device.Connect();
      var s := device.GetEeState();
      baseState := Some(s);
    }

    /** `send_action`: raises when not connected; otherwise writes the
        commanded state to the arm and, when visualising, records the state
        read back in canonical units. Returns nothing. */
    method SendAction(action: seq<real>) returns (failure: Option<Error>)
      requires Valid() && |action| == 7
      modifies device, if visualizer.Some? then {visualizer.value} else {}
      ensures Valid()
      ensures !old(device.connected) ==>
        failure == Some(DeviceNotConnected) && unchanged(device) &&
        (visualizer.Some? ==> unchanged(visualizer.value))
      ensures old(device.connected) ==>
        (failure.None? && device.connected &&
         device.eeState == Command(standardization, transform, conv, old(Reference()), action))
      ensures old(device.connected) && visualizer.Some? ==>
        visualizer.value.Snapshot() ==
          Visualization.Added(Visualization.AbsoluteMode, conv, old(visualizer.value.Snapshot()),
                              Input(standardization, device.eeState))
    {
      if !device.connected {
        return Some(DeviceNotConnected);
      }
      var state: seq<real>;
      if deltaWithPrevious {
        state := device.GetEeState();
      } else {
        state := baseState.value;
      }
      state := Input(standardization, state);
      var next := Replay.Call(conv, transform, state, action);
      next := Output(standardization, next);
      device.SetEeState(next);
      if visualizer.Some? {
        var reached := device.GetEeState();
        visualizer.value.Add(Input(standardization, reached));
      }
      failure := None;
    }
  }
}
