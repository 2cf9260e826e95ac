/** Trajectory bookkeeping of src/deploy/robots/misc/visualization.py: the
    visualizer records every commanded pose (directly in absolute mode, by
    integrating a 4x4 running transform in gripper-delta mode), a
    multi-arm wrapper routes one pose per arm, and `plot` samples the poses
    at which it draws orientation arrows. Drawing itself is not modelled. */
module Visualization {
  import opened Wrappers
  import opened Geometry
  import Recording = RecordingTransforms

  /** The two visualizers `get_visualizer` can build. */
  datatype Mode = AbsoluteMode | DeltaGripperMode

  /** The recorded trajectory (the four lists of the `trajectory` dict),
      the step counter, and the running world transform `T_world_current`,
      which only the gripper-delta visualizer has. */
  datatype Track = Track(timesteps: seq<nat>, positions: seq<seq<real>>, eulerAngles: seq<seq<real>>,
                         grips: seq<real>, timestep: nat, world: Option<RigidTransform>)
  {
    /** The four lists run in step with the counter, entry `k` was recorded
        at step `k`, and the world transform exists exactly in
        gripper-delta mode. */
    predicate WellFormed(mode: Mode) {
      |timesteps| == timestep && |positions| == timestep &&
      |eulerAngles| == timestep && |grips| == timestep &&
      (forall k :: 0 <= k < timestep ==> timesteps[k] == k) &&
      (mode.DeltaGripperMode? <==> world.Some?)
    }
  }

  /** The initial world transform: rotation from the initial Euler angles,
      translation at the initial position. */
  function InitialWorld(conv: EulerConvention, state: seq<real>): (w: RigidTransform)
    requires |state| >= 6
    ensures ToSeq(w.translation) == state[..3]
    ensures w.rotation == conv.fromEuler(Orientation(state))
  {
    RigidTransform(conv.fromEuler(Orientation(state)), Position(state))
  }

  /** A fresh visualizer's track. */
  function InitialTrack(mode: Mode, conv: EulerConvention, state: seq<real>): (tr: Track)
    requires |state| >= 7
    ensures tr.WellFormed(mode) && tr.timestep == 0
    ensures tr.positions == [] && tr.eulerAngles == [] && tr.grips == []
  {
    Track([], [], [], [], 0, if mode.DeltaGripperMode? then Some(InitialWorld(conv, state)) else None)
  }

  /** `T_rel`: the pose `state` read as a relative motion, its rotation
      block `R_rel @ I` and its translation the position delta. */
  function Relative(conv: EulerConvention, state: seq<real>): RigidTransform
    requires |state| >= 6
  {
    RigidTransform(Mul(conv.fromEuler(Orientation(state)), Identity), Position(state))
  }

  /** What `add(state)` does to the track. */
  function Added(mode: Mode, conv: EulerConvention, tr: Track, state: seq<real>): (r: Track)
    requires tr.WellFormed(mode) && |state| >= 7
    ensures r.WellFormed(mode) && r.timestep == tr.timestep + 1
    ensures r.timesteps[..tr.timestep] == tr.timesteps && r.positions[..tr.timestep] == tr.positions
    ensures r.eulerAngles[..tr.timestep] == tr.eulerAngles && r.grips[..tr.timestep] == tr.grips
    ensures r.grips[tr.timestep] == state[6]
    ensures mode.AbsoluteMode? ==>
      r.positions[tr.timestep] == state[..3] && r.eulerAngles[tr.timestep] == state[3..6]
    ensures mode.DeltaGripperMode? ==>
      r.world == Some(Compose(tr.world.value, Relative(conv, state))) &&
      r.positions[tr.timestep] == ToSeq(r.world.value.translation) &&
      r.eulerAngles[tr.timestep] == ToSeq(conv.toEuler(r.world.value.rotation))
  {
    match mode
    case AbsoluteMode =>
      Track(tr.timesteps + [tr.timestep], tr.positions + [state[..3]], tr.eulerAngles + [state[3..6]],
            tr.grips + [state[6]], tr.timestep + 1, tr.world)
    case DeltaGripperMode =>
      var world := Compose(tr.world.value, Relative(conv, state));
      Track(tr.timesteps + [tr.timestep], tr.positions + [ToSeq(world.translation)],
            tr.eulerAngles + [ToSeq(conv.toEuler(world.rotation))],
            tr.grips + [state[6]], tr.timestep + 1, Some(world))
  }

  /** The relative transform of a gripper-frame delta moves the world
      position by the delta rotated into the world frame. */
  lemma IntegratedPosition(conv: EulerConvention, world: RigidTransform, delta: seq<real>)
    requires |delta| >= 6
    ensures Compose(world, Relative(conv, delta)).translation
         == Add(world.translation, Apply(world.rotation, Position(delta)))
    ensures Compose(world, Relative(conv, delta)).rotation
         == Mul(world.rotation, conv.fromEuler(Orientation(delta)))
  {
    MulIdentity(conv.fromEuler(Orientation(delta)));
  }

  /** Integrating a recorded gripper-frame delta from a world transform that
      sits at the recorded state lands on the next recorded position: the
      visualizer inverts the recording's position delta. */
  lemma IntegrationRecoversRecordedPosition(conv: EulerConvention, state: seq<real>, next: seq<real>)
    requires |state| >= 7 && |next| >= 7
    requires Orthonormal(conv.fromEuler(Orientation(state)))
    ensures var delta := Recording.DeltaGripperCall(conv, state, next);
      Compose(InitialWorld(conv, state), Relative(conv, delta)).translation == Position(next)
  {
    var current := conv.fromEuler(Orientation(state));
    var delta := Recording.DeltaGripperCall(conv, state, next);
    var move := Sub(Position(next), Position(state));
    assert Position(delta) == Apply(Transpose(current), move) by {
      assert delta[..3] == ToSeq(Apply(Transpose(current), move));
    }
    IntegratedPosition(conv, InitialWorld(conv, state), delta);
    ApplyThenTranspose(current, move);
  }

  /** Integrating a delta that neither moves nor turns from the initial
      world transform stays at the initial position and rotation: the first
      pose a fresh gripper-delta visualizer records for it is where it
      started. */
  lemma ZeroDeltaHoldsInitialPose(conv: EulerConvention, state: seq<real>, delta: seq<real>)
    requires |state| >= 7 && |delta| >= 7
    requires Position(delta) == Zero && conv.fromEuler(Orientation(delta)) == Identity
    ensures var w := Compose(InitialWorld(conv, state), Relative(conv, delta));
      ToSeq(w.translation) == state[..3] && w.rotation == conv.fromEuler(Orientation(state))
  {
    StillDelta(conv, InitialWorld(conv, state), delta);
  }

  /** Composing with the relative transform of a still delta changes nothing. */
  lemma StillDelta(conv: EulerConvention, world: RigidTransform, delta: seq<real>)
    requires |delta| >= 7
    requires Position(delta) == Zero && conv.fromEuler(Orientation(delta)) == Identity
    ensures Compose(world, Relative(conv, delta)) == world
  {
    StillRelative(conv, delta);
    ComposeUnit(world);
  }

  /** A still delta is read as the identity motion. */
  lemma StillRelative(conv: EulerConvention, delta: seq<real>)
    requires |delta| >= 7
    requires Position(delta) == Zero && conv.fromEuler(Orientation(delta)) == Identity
    ensures Relative(conv, delta) == RigidTransform(Identity, Zero)
  {
    MulIdentity(Identity);
  }

  /** The identity motion is a right unit of `Compose`. */
  lemma ComposeUnit(world: RigidTransform)
    ensures Compose(world, RigidTransform(Identity, Zero)) == world
  {
    MulIdentity(world.rotation);
    assert Apply(world.rotation, Zero) == Zero;
  }

  /** A visualizer (`AbsoluteTrajectoryVisualizer` or
      `DeltaGripperTrajectoryVisualizer`). */
  class TrajectoryVisualizer {
    const mode: Mode
    const conv: EulerConvention
    const initPosition: seq<real>
    const initEuler: seq<real>
    const initGrip: real
    var timesteps: seq<nat>
    var positions: seq<seq<real>>
    var eulerAngles: seq<seq<real>>
    var grips: seq<real>
    var timestep: nat
    var world: Option<RigidTransform>

    function Snapshot(): Track
      reads this
    {
      Track(timesteps, positions, eulerAngles, grips, timestep, world)
    }

    predicate Valid()
      reads this
    {
      Snapshot().WellFormed(mode)
    }

    constructor(mode: Mode, conv: EulerConvention, state: seq<real>)
      requires |state| >= 7
      ensures Valid() && this.mode == mode && this.conv == conv
      ensures initPosition == state[..3] && initEuler == state[3..6] && initGrip == state[6]
      ensures Snapshot() == InitialTrack(mode, conv, state)
    {
      this.mode := mode;
      this.conv := conv;
      initPosition := state[..3];
      initEuler := state[3..6];
      initGrip := state[6];
      timesteps := [];
      positions := [];
      eulerAngles := [];
      grips := [];
      timestep := 0;
      world := if mode.DeltaGripperMode? then Some(InitialWorld(conv, state)) else None;
    }

    /** `add(state)`. */
    method Add(state: seq<real>)
      requires Valid() && |state| >= 7
      modifies this
      ensures Valid()
      ensures Snapshot() == Added(mode, conv, old(Snapshot()), state)
    {
      var position, euler, grip := state[..3], state[3..6], state[6];
      if mode.DeltaGripperMode? {
        var rel := Relative(conv, state);
        world := Some(Compose(world.value, rel));
        position := ToSeq(world.value.translation);
        euler := ToSeq(conv.toEuler(world.value.rotation));
      }
      timesteps := timesteps + [timestep];
      positions := positions + [position];
      eulerAngles := eulerAngles + [euler];
      grips := grips + [grip];
      timestep := timestep + 1;
    }
  }

  /** `MultiTrajectoriesVisualizer`: named visualizers, one per arm. */
  class MultiTrajectoriesVisualizer {
    const names: seq<string>
    const visualizers: seq<TrajectoryVisualizer>

    /** The visualizers are distinct objects (`deepcopy`) and each is valid. */
    predicate Valid()
      reads visualizers
    {
      Distinct() && forall i :: 0 <= i < |visualizers| ==> visualizers[i].Valid()
    }

    predicate Distinct() {
      forall i, j :: 0 <= i < j < |visualizers| ==> visualizers[i] != visualizers[j]
    }

    constructor(names: seq<string>, visualizers: seq<TrajectoryVisualizer>)
      ensures this.names == names && this.visualizers == visualizers
    {
      this.names := names;
      this.visualizers := visualizers;
    }

    /** `add(states)`: the `zip` of names, states and visualizers hands
        state `k` to visualizer `k`, for as many as all three have. */
    method Add(states: seq<seq<real>>)
      requires Valid()
      requires forall k :: 0 <= k < |states| && k < |names| && k < |visualizers| ==> |states[k]| >= 7
      modifies set v | v in visualizers
      ensures Valid()
      ensures forall k :: 0 <= k < |visualizers| ==>
        visualizers[k].Snapshot() ==
          if k < |states| && k < |names|
          then Added(visualizers[k].mode, visualizers[k].conv, old(visualizers[k].Snapshot()), states[k])
          else old(visualizers[k].Snapshot())
    {
      var n := |names|;
      if |states| < n { n := |states|; }
      if |visualizers| < n { n := |visualizers|; }
      var k := 0;
      while k < n
        invariant 0 <= k <= n
        invariant forall j :: 0 <= j < |visualizers| ==> visualizers[j].Valid()
        invariant forall j :: 0 <= j < k ==>
          visualizers[j].Snapshot() ==
            Added(visualizers[j].mode, visualizers[j].conv, old(visualizers[j].Snapshot()), states[j])
        invariant forall j :: k <= j < |visualizers| ==> visualizers[j].Snapshot() == old(visualizers[j].Snapshot())
      {
        var v := visualizers[k];
        assert forall j :: 0 <= j < |visualizers| && j != k ==> visualizers[j] != v;
        assert v.Snapshot() == old(v.Snapshot());
        v.Add(states[k]);
        assert v.Snapshot() == Added(v.mode, v.conv, old(v.Snapshot()), states[k]);
        k := k + 1;
      }
    }
  }

  /** `control_mode` to visualizer kind; anything else is unsupported. */
  function ParseControlMode(controlMode: string): (r: Result<Mode>)
    ensures r.Ok? <==> controlMode in {"ee_absolute", "ee_delta_gripper"}
    ensures r.Ok? ==> (r.value.AbsoluteMode? <==> controlMode == "ee_absolute")
    ensures r.Err? ==> r.error.ValueError?
  {
    if controlMode == "ee_absolute" then Ok(AbsoluteMode)
    else if controlMode == "ee_delta_gripper" then Ok(DeltaGripperMode)
    else Err(ValueError("Unsupported control mode: " + controlMode))
  }

  /** What `get_visualizer` returns: one visualizer, or a pair for two arms. */
  datatype Visualizer = One(v: TrajectoryVisualizer) | Pair(m: MultiTrajectoriesVisualizer)

  /** `get_visualizer(ee_state, control_mode, multi_arm=False)`: with
      `multi_arm`, two independent fresh copies named `arm_left` and
      `arm_right`. */
  method GetVisualizer(conv: EulerConvention, eeState: seq<real>, controlMode: string, multiArm: bool := false)
    returns (r: Result<Visualizer>)
    requires |eeState| >= 7
    ensures r.Ok? <==> ParseControlMode(controlMode).Ok?
    ensures r.Err? ==> r == Err(ParseControlMode(controlMode).error)
    ensures r.Ok? ==> (r.value.Pair? <==> multiArm)
    ensures r.Ok? && r.value.One? ==>
      fresh(r.value.v) && r.value.v.Valid() && r.value.v.mode == ParseControlMode(controlMode).value &&
      r.value.v.Snapshot() == InitialTrack(r.value.v.mode, conv, eeState)
    ensures r.Ok? && r.value.Pair? ==>
      var m := r.value.m;
      fresh(m) && m.names == ["arm_left", "arm_right"] && |m.visualizers| == 2 &&
      fresh(m.visualizers[0]) && fresh(m.visualizers[1]) && m.Valid() &&
      forall k :: 0 <= k < 2 ==>
        m.visualizers[k].mode == ParseControlMode(controlMode).value &&
        m.visualizers[k].Snapshot() == InitialTrack(m.visualizers[k].mode, conv, eeState)
  {
    var mode := ParseControlMode(controlMode);
    if mode.Err? {
      return Err(mode.error);
    }
    if multiArm {
      var left := new TrajectoryVisualizer(mode.value, conv, eeState);
      var right := new TrajectoryVisualizer(mode.value, conv, eeState);
      var m := new MultiTrajectoriesVisualizer(["arm_left", "arm_right"], [left, right]);
      return Ok(Pair(m));
    }
    var v := new TrajectoryVisualizer(mode.value, conv, eeState);
    return Ok(One(v));
  }

  /** The spacing of orientation arrows in `plot`: every `n // 20`-th
      point, and every point when there are fewer than 40. */
  function ArrowStep(n: nat): (step: nat)
    ensures step >= 1
  {
    if n / 20 < 1 then 1 else n / 20
  }

  /** `(m + 1) * step == m * step + step`. */
  lemma NextMultiple(m: nat, step: nat)
    ensures (m + 1) * step == m * step + step
  {
  }

  /** A list of the successive multiples of `step` that reaches `n`
      holds every multiple of `step` below `n`. */
  lemma MultipleListed(indices: seq<nat>, step: nat, n: nat, i: nat)
    requires step >= 1 && |indices| * step >= n
    requires forall k :: 0 <= k < |indices| ==> indices[k] == k * step
    requires i < n && i % step == 0
    ensures i in indices
  {
    var q := i / step;
    assert i == q * step;
    assert q < |indices|;
    assert indices[q] == i;
  }

  /** The indices `plot` draws arrows at: `range(0, n, step)`. */
  method ArrowIndices(n: nat) returns (indices: seq<nat>)
    ensures forall k :: 0 <= k < |indices| ==> indices[k] == k * ArrowStep(n) && indices[k] < n
    ensures |indices| * ArrowStep(n) >= n
    ensures forall i :: 0 <= i < n && i % ArrowStep(n) == 0 ==> i in indices
  {
    var step := ArrowStep(n);
    indices := [];
    var i := 0;
    while i < n
      invariant i == |indices| * step
      invariant forall k :: 0 <= k < |indices| ==> indices[k] == k * step && indices[k] < n
      decreases n - i
    {
      NextMultiple(|indices|, step);
      indices := indices + [i];
      i := i + step;
    }
    forall i | 0 <= i < n && i % step == 0
      ensures i in indices
    {
      MultipleListed(indices, step, n, i);
    }
  }
}
