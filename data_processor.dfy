/** The recording pipeline of src/data/dummy_data_processor.py: the no-op
    motion filter `_check_nonoop_actions`, the transform chosen from the
    configuration, and the keep/skip/advance loop of `_add_episode` that
    appends frames to the dataset. */
module DataProcessor {
  import opened Wrappers
  import opened Geometry
  import opened DataConfig
  import Recording = RecordingTransforms

  // ---------------------------------------------------------------------------
  // The no-op filter

  function Abs(x: real): (r: real)
    ensures 0.0 <= r && (r == x || r == -x)
  {
    if x < 0.0 then -x else x
  }

  /** `norm > t` for the norm whose square is `sq`, without a square root. */
  predicate Exceeds(sq: real, t: real) {
    t < 0.0 || sq > t * t
  }

  /** `Exceeds` is the norm comparison: for a non-negative `norm`,
      `norm > t` exactly when `Exceeds(norm * norm, t)`. */
  lemma NormComparison(norm: real, t: real)
    requires 0.0 <= norm
    ensures norm > t <==> Exceeds(norm * norm, t)
  {
    if 0.0 <= t {
      if norm > t {
        assert norm * norm > t * norm >= t * t;
      } else {
        assert norm * norm <= t * norm <= t * t;
      }
    }
  }

  /** The three differences of the arm block starting at channel `j`:
      squared position distance, squared Euler-angle distance, and the
      absolute gripper difference. */
  function PositionGap(s: seq<real>, a: seq<real>, j: nat): real
    requires j + 3 <= |s| && j + 3 <= |a|
  {
    SqNorm(Diff3(s, a, j))
  }

  function RotationGap(s: seq<real>, a: seq<real>, j: nat): real
    requires j + 6 <= |s| && j + 6 <= |a|
  {
    SqNorm(Diff3(s, a, j + 3))
  }

  /** `s[k:k+3] - a[k:k+3]` as a vector. */
  function Diff3(s: seq<real>, a: seq<real>, k: nat): Vec3
    requires k + 3 <= |s| && k + 3 <= |a|
  {
    Vec3(s[k] - a[k], s[k + 1] - a[k + 1], s[k + 2] - a[k + 2])
  }

  /** The arm block starting at channel `j` moves past some threshold. */
  predicate BlockMoves(s: seq<real>, a: seq<real>, th: Thresholds, j: nat)
    requires j + 7 <= |s| && j + 7 <= |a|
  {
    Exceeds(PositionGap(s, a, j), th.position) ||
    Exceeds(RotationGap(s, a, j), th.rotation) ||
    Abs(s[j + 6] - a[j + 6]) > th.gripper
  }

  /** Arm block number `b` (channels `7b .. 7b+6`) is whole and moves. */
  predicate MovingBlock(s: seq<real>, a: seq<real>, th: Thresholds, b: nat) {
    |s| == |a| && 7 * b + 7 <= |s| && BlockMoves(s, a, th, 7 * b)
  }

  /** The loop of `_check_nonoop_actions` from block `b` on: true at the
      first moving block, false once the vector is used up, and an
      IndexError when a partial trailing block is reached (its gripper
      channel `i + 6` does not exist). */
  function NonoopFrom(s: seq<real>, a: seq<real>, th: Thresholds, b: nat): Result<bool>
    requires |s| == |a|
    decreases |s| - 7 * b
  {
    if |s| <= 7 * b then Ok(false)
    else if |s| < 7 * b + 7 then Err(IndexError)
    else if BlockMoves(s, a, th, 7 * b) then Ok(true)
    else NonoopFrom(s, a, th, b + 1)
  }

  const LengthMismatch := "States and actions must have the same length."

  /** `_check_nonoop_actions(states, actions)`. */
  function CheckNonoop(states: seq<real>, actions: seq<real>, th: Thresholds): Result<bool> {
    if |states| != |actions| then Err(AssertionError(LengthMismatch))
    else NonoopFrom(states, actions, th, 0)
  }

  lemma {:induction false} NonoopFromCharacterised(s: seq<real>, a: seq<real>, th: Thresholds, b: nat)
    requires |s| == |a| && 7 * b <= |s|
    ensures NonoopFrom(s, a, th, b) == Ok(true) <==> exists k :: b <= k && MovingBlock(s, a, th, k)
    ensures NonoopFrom(s, a, th, b) == Ok(false) <==>
      |s| % 7 == 0 && !exists k :: b <= k && MovingBlock(s, a, th, k)
    ensures NonoopFrom(s, a, th, b) == Err(IndexError) <==>
      |s| % 7 != 0 && !exists k :: b <= k && MovingBlock(s, a, th, k)
    decreases |s| - 7 * b
  {
    if |s| < 7 * b + 7 {
      forall k | b <= k
        ensures !MovingBlock(s, a, th, k)
      {
        assert 7 * b <= 7 * k;
      }
      LastBlockRemainder(|s|, b);
    } else if BlockMoves(s, a, th, 7 * b) {
      assert MovingBlock(s, a, th, b);
    } else {
      NonoopFromCharacterised(s, a, th, b + 1);
      if exists k :: b <= k && MovingBlock(s, a, th, k) {
        var k :| b <= k && MovingBlock(s, a, th, k);
        assert k != b;
        assert b + 1 <= k;
      }
    }
  }

  /** A length within the last block is a multiple of 7 exactly when it
      ends on the block boundary. */
  lemma LastBlockRemainder(n: nat, b: nat)
    requires 7 * b <= n < 7 * b + 7
    ensures n == 7 * b <==> n % 7 == 0
  {
    assert n == 7 * b + (n - 7 * b);
    assert n % 7 == n - 7 * b;
  }

  /** The whole filter: an AssertionError on unequal lengths; otherwise true
      exactly when some whole arm block moves past one of its thresholds,
      false when none does and the length is a multiple of 7, and an
      IndexError when none does and a partial block is left over. */
  lemma CheckNonoopCharacterised(s: seq<real>, a: seq<real>, th: Thresholds)
    ensures |s| != |a| ==> CheckNonoop(s, a, th) == Err(AssertionError(LengthMismatch))
    ensures |s| == |a| ==>
      (CheckNonoop(s, a, th) == Ok(true) <==> exists b :: MovingBlock(s, a, th, b)) &&
      (CheckNonoop(s, a, th) == Ok(false) <==> |s| % 7 == 0 && !exists b :: MovingBlock(s, a, th, b)) &&
      (CheckNonoop(s, a, th) == Err(IndexError) <==> |s| % 7 != 0 && !exists b :: MovingBlock(s, a, th, b))
  {
    if |s| == |a| {
      NonoopFromCharacterised(s, a, th, 0);
    }
  }

  /** A pose compared with itself never counts as motion when no threshold
      is negative (zero thresholds included). */
  lemma IdenticalIsNotMotion(s: seq<real>, th: Thresholds)
    requires 0.0 <= th.position && 0.0 <= th.rotation && 0.0 <= th.gripper
    ensures CheckNonoop(s, s, th) == if |s| % 7 == 0 then Ok(false) else Err(IndexError)
  {
    forall b: nat
      ensures !MovingBlock(s, s, th, b)
    {
      if 7 * b + 7 <= |s| {
        StillBlock(s, th, 7 * b);
      }
    }
    assert !exists b :: MovingBlock(s, s, th, b);
    CheckNonoopCharacterised(s, s, th);
  }

  /** An arm block compared with itself does not move. */
  lemma StillBlock(s: seq<real>, th: Thresholds, j: nat)
    requires 0.0 <= th.position && 0.0 <= th.rotation && 0.0 <= th.gripper
    requires j + 7 <= |s|
    ensures !BlockMoves(s, s, th, j)
  {
    StillThresholds(s, th.position, th.rotation, th.gripper, j);
    assert th == Thresholds(th.position, th.rotation, th.gripper);
  }

  /** `StillBlock` for thresholds given channel by channel. */
  lemma StillThresholds(s: seq<real>, position: real, rotation: real, gripper: real, j: nat)
    requires 0.0 <= position && 0.0 <= rotation && 0.0 <= gripper
    requires j + 7 <= |s|
    ensures !BlockMoves(s, s, Thresholds(position, rotation, gripper), j)
  {
    StillPosition(s, position, j);
    StillRotation(s, rotation, j);
    StillGripper(s, gripper, j);
  }

  lemma StillGripper(s: seq<real>, t: real, j: nat)
    requires 0.0 <= t && j + 7 <= |s|
    ensures !(Abs(s[j + 6] - s[j + 6]) > t)
  {
    assert Abs(s[j + 6] - s[j + 6]) == 0.0;
  }

  lemma StillPosition(s: seq<real>, t: real, j: nat)
    requires 0.0 <= t && j + 7 <= |s|
    ensures !Exceeds(PositionGap(s, s, j), t)
  {
    assert PositionGap(s, s, j) == 0.0;
    ZeroNeverExceeds(t);
  }

  lemma StillRotation(s: seq<real>, t: real, j: nat)
    requires 0.0 <= t && j + 7 <= |s|
    ensures !Exceeds(RotationGap(s, s, j), t)
  {
    assert RotationGap(s, s, j) == 0.0;
    ZeroNeverExceeds(t);
  }

  /** A zero distance never exceeds a non-negative threshold. */
  lemma ZeroNeverExceeds(t: real)
    requires 0.0 <= t
    ensures !Exceeds(0.0, t)
  {
    assert t * t >= 0.0;
  }

  lemma Diff3Symmetric(s: seq<real>, a: seq<real>, k: nat)
    requires k + 3 <= |s| && k + 3 <= |a|
    ensures SqNorm(Diff3(s, a, k)) == SqNorm(Diff3(a, s, k))
  {
    var d := Diff3(s, a, k);
    var e := Diff3(a, s, k);
    assert e.x == -d.x && e.y == -d.y && e.z == -d.z;
    assert e.x * e.x == d.x * d.x && e.y * e.y == d.y * d.y && e.z * e.z == d.z * d.z;
  }

  /** The filter does not care which of the two vectors is the earlier one. */
  lemma CheckNonoopSymmetric(s: seq<real>, a: seq<real>, th: Thresholds)
    ensures CheckNonoop(s, a, th) == CheckNonoop(a, s, th)
  {
    if |s| == |a| {
      forall b: nat | 7 * b + 7 <= |s|
        ensures MovingBlock(s, a, th, b) <==> MovingBlock(a, s, th, b)
      {
        var j := 7 * b;
        Diff3Symmetric(s, a, j);
        Diff3Symmetric(s, a, j + 3);
        assert Abs(s[j + 6] - a[j + 6]) == Abs(a[j + 6] - s[j + 6]);
      }
      CheckNonoopCharacterised(s, a, th);
      CheckNonoopCharacterised(a, s, th);
    }
  }

  /** One whole arm block whose gripper alone moves past its threshold makes
      the pair motion, whatever the other channels and blocks do. */
  lemma GripperMotionAloneKeeps(s: seq<real>, a: seq<real>, th: Thresholds, b: nat)
    requires |s| == |a| && 7 * b + 7 <= |s|
    requires Abs(s[7 * b + 6] - a[7 * b + 6]) > th.gripper
    ensures CheckNonoop(s, a, th) == Ok(true)
  {
    assert MovingBlock(s, a, th, b);
    CheckNonoopCharacterised(s, a, th);
  }

  /** One whole arm block whose position alone moves more than the position
      threshold makes the pair motion. */
  lemma PositionMotionAloneKeeps(s: seq<real>, a: seq<real>, th: Thresholds, b: nat)
    requires |s| == |a| && 7 * b + 7 <= |s|
    requires Exceeds(PositionGap(s, a, 7 * b), th.position)
    ensures CheckNonoop(s, a, th) == Ok(true)
  {
    assert MovingBlock(s, a, th, b);
    CheckNonoopCharacterised(s, a, th);
  }

  /** One whole arm block whose Euler angles alone move more than the
      rotation threshold makes the pair motion. */
  lemma RotationMotionAloneKeeps(s: seq<real>, a: seq<real>, th: Thresholds, b: nat)
    requires |s| == |a| && 7 * b + 7 <= |s|
    requires Exceeds(RotationGap(s, a, 7 * b), th.rotation)
    ensures CheckNonoop(s, a, th) == Ok(true)
  {
    assert MovingBlock(s, a, th, b);
    CheckNonoopCharacterised(s, a, th);
  }

  /** Two arms, the left one moved 5 cm along x, the right one still, and a
      1 cm position threshold: the pair is kept. */
  lemma LeftArmMoveScenario(s: seq<real>, th: Thresholds)
    requires |s| == 14 && th.position == 0.01
    ensures CheckNonoop(s, s[0 := s[0] + 0.05], th) == Ok(true)
  {
    var a := s[0 := s[0] + 0.05];
    assert Diff3(s, a, 0) == Vec3(-0.05, 0.0, 0.0);
    assert PositionGap(s, a, 0) == 0.0025;
    PositionMotionAloneKeeps(s, a, th, 0);
  }

  // ---------------------------------------------------------------------------
  // The transform of the processor

  /** `get_transform(config.transform_type, config.action_len > 7)`. */
  function ProcessorTransform(config: DataProcessorConfig): (r: Result<Recording.Transform>)
    ensures r.Ok? <==> config.transformType in {"ee_absolute", "ee_delta_base", "ee_delta_gripper"}
    ensures r.Ok? ==> (r.value.Bi? <==> config.ActionLen() > 7)
  {
    Recording.GetTransform(config.transformType, config.ActionLen() > 7)
  }

  /** The default arm configurations record gripper-frame deltas, wrapped
      for two arms exactly in the multi-arm configuration. */
  lemma DefaultProcessorTransforms()
    ensures ProcessorTransform(BaseConfig()) == Ok(Recording.Single(Recording.Absolute))
    ensures ProcessorTransform(SingleArmConfig()) == Ok(Recording.Single(Recording.AbsoluteToDeltaGripper))
    ensures ProcessorTransform(MultiArmConfig()) == Ok(Recording.Bi(Recording.AbsoluteToDeltaGripper))
  {
    DefaultActionLens();
  }

  // ---------------------------------------------------------------------------
  // The emission loop

  /** One dataset frame: the raw frame index it was taken at (its images
      are that frame's), the action and, when `use_state` is set, the state
      the action was computed from. */
  datatype Frame = Frame(index: nat, action: seq<real>, state: Option<seq<real>>)

  /** The dataset, seen as a buffer of frames of the episode being added
      and the list of saved episodes. */
  class Dataset {
    var buffer: seq<Frame>
    var episodes: seq<seq<Frame>>

    constructor()
      ensures buffer == [] && episodes == []
    {
      buffer := [];
      episodes := [];
    }

    /** `add_frame`: the frame joins the current episode. */
    method AddFrame(f: Frame)
      modifies this
      ensures buffer == old(buffer) + [f] && episodes == old(episodes)
    {
      buffer := buffer + [f];
    }

    /** `save_episode`: the buffered frames become a saved episode. */
    method SaveEpisode()
      modifies this
      ensures episodes == old(episodes) + [old(buffer)] && buffer == []
    {
      episodes := episodes + [buffer];
      buffer := [];
    }
  }

  /** The concatenated action rows of one episode all have the same width,
      and the transform can be applied at that width. */
  predicate Shaped(t: Recording.Transform, rows: seq<seq<real>>) {
    Rectangular(rows) && Recording.Compatible(t, |rows[0]|)
  }

  /** At least one row, and all rows of the same width. */
  predicate Rectangular(rows: seq<seq<real>>) {
    |rows| >= 1 && forall i :: 0 <= i < |rows| ==> |rows[i]| == |rows[0]|
  }

  /** A frame filter: whether the second vector moved away from the first,
      or the error that stops the loop. */
  type Filter = (seq<real>, seq<real>) -> Result<bool>

  /** The filter the processor uses. */
  function NonoopFilter(th: Thresholds): Filter {
    (s: seq<real>, a: seq<real>) => CheckNonoop(s, a, th)
  }

  /** How the action of a kept frame is computed from its reference state
      and its own state. */
  type ActionOf = (seq<real>, seq<real>) -> seq<real>

  /** The action the processor records: the configured transform, applied
      to vectors it accepts (rows of a shaped episode always are). */
  function RecordedAction(conv: EulerConvention, t: Recording.Transform): ActionOf {
    (s: seq<real>, a: seq<real>) => if Recording.Accepts(t, s, a) then Recording.Call(conv, t, s, a) else []
  }

  /** What the loop does from frame `i` on with reference state `ref`: the
      frames it writes and the error, if any, that stops it. */
  datatype Emission = Emission(frames: seq<Frame>, failure: Option<Error>)

  function Emit(act: ActionOf, check: Filter, useState: bool,
                rows: seq<seq<real>>, i: nat, ref: seq<real>): Emission
    decreases |rows| - i
  {
    if |rows| <= i then Emission([], None)
    else match check(ref, rows[i])
      case Err(e) => Emission([], Some(e))
      case Ok(keep) =>
        if !keep then Emit(act, check, useState, rows, i + 1, ref)
        else
          var f := Frame(i, act(ref, rows[i]), if useState then Some(ref) else None);
          var rest := Emit(act, check, useState, rows, i + 1, rows[i]);
          Emission([f] + rest.frames, rest.failure)
  }

  /** One iteration of the loop: an error stops it, a skipped frame keeps
      the reference, a kept frame is written and becomes the reference. */
  lemma EmitStep(act: ActionOf, check: Filter, useState: bool, rows: seq<seq<real>>, i: nat, ref: seq<real>)
    requires i < |rows|
    ensures check(ref, rows[i]).Err? ==>
      Emit(act, check, useState, rows, i, ref) == Emission([], Some(check(ref, rows[i]).error))
    ensures check(ref, rows[i]) == Ok(false) ==>
      Emit(act, check, useState, rows, i, ref) == Emit(act, check, useState, rows, i + 1, ref)
    ensures check(ref, rows[i]) == Ok(true) ==>
      var rest := Emit(act, check, useState, rows, i + 1, rows[i]);
      Emit(act, check, useState, rows, i, ref)
        == Emission([Frame(i, act(ref, rows[i]), if useState then Some(ref) else None)] + rest.frames, rest.failure)
  {
  }

  /** The reference an independent reading of the loop gives frame `j`
      (1 <= j): the last kept frame before `j`, or frame 0 when none was
      kept. */
  function RefIndex(check: Filter, rows: seq<seq<real>>, j: nat): (k: nat)
    requires 1 <= j <= |rows|
    ensures k < j
    decreases j, 0
  {
    if j == 1 then 0
    else if Kept(check, rows, j - 1) then j - 1
    else RefIndex(check, rows, j - 1)
  }

  /** Frame `j` is kept: it moves away from its reference. */
  predicate Kept(check: Filter, rows: seq<seq<real>>, j: nat)
    requires 1 <= j < |rows|
    decreases j, 1
  {
    check(rows[RefIndex(check, rows, j)], rows[j]) == Ok(true)
  }

  function FrameAt(act: ActionOf, check: Filter, useState: bool,
                   rows: seq<seq<real>>, j: nat): Frame
    requires 1 <= j < |rows|
  {
    var ref := rows[RefIndex(check, rows, j)];
    Frame(j, act(ref, rows[j]), if useState then Some(ref) else None)
  }

  /** The kept frames from `i` on, in order. */
  function KeptFrames(act: ActionOf, check: Filter, useState: bool,
                      rows: seq<seq<real>>, i: nat): (r: seq<Frame>)
    requires 1 <= i <= |rows|
    ensures |r| <= |rows| - i
    ensures forall k :: 0 <= k < |r| ==>
      i <= r[k].index < |rows| && Kept(check, rows, r[k].index) &&
      r[k] == FrameAt(act, check, useState, rows, r[k].index)
    ensures forall k, l :: 0 <= k < l < |r| ==> r[k].index < r[l].index
    decreases |rows| - i
  {
    if i == |rows| then []
    else
      var head := if Kept(check, rows, i) then [FrameAt(act, check, useState, rows, i)] else [];
      head + KeptFrames(act, check, useState, rows, i + 1)
  }

  /** Every kept frame from `i` on is among the kept frames. */
  lemma {:induction false} KeptFramesComplete(act: ActionOf, check: Filter,
                                              useState: bool, rows: seq<seq<real>>, i: nat)
    requires 1 <= i <= |rows|
    ensures forall j :: i <= j < |rows| && Kept(check, rows, j) ==>
      FrameAt(act, check, useState, rows, j) in KeptFrames(act, check, useState, rows, i)
    decreases |rows| - i
  {
    if i < |rows| {
      KeptFramesComplete(act, check, useState, rows, i + 1);
      var rest := KeptFrames(act, check, useState, rows, i + 1);
      var head := if Kept(check, rows, i) then [FrameAt(act, check, useState, rows, i)] else [];
      assert KeptFrames(act, check, useState, rows, i) == head + rest;
    }
  }

  /** The reference of frame `j` is frame 0 or a kept frame, and no frame
      strictly between the reference and `j` was kept: the reference
      advances on kept frames only. */
  lemma {:induction false} RefIndexIsLastKept(check: Filter, rows: seq<seq<real>>, j: nat)
    requires 1 <= j <= |rows|
    ensures RefIndex(check, rows, j) == 0 || Kept(check, rows, RefIndex(check, rows, j))
    ensures forall k :: RefIndex(check, rows, j) < k < j ==> !Kept(check, rows, k)
    decreases j
  {
    if j > 1 && !Kept(check, rows, j - 1) {
      RefIndexIsLastKept(check, rows, j - 1);
    }
  }

  /** When the loop runs to the end, it writes exactly the kept frames,
      each with the action computed against its reference. */
  lemma {:induction false} EmitMatchesReference(act: ActionOf, check: Filter,
                                                useState: bool, rows: seq<seq<real>>, i: nat)
    requires 1 <= i <= |rows|
    requires Emit(act, check, useState, rows, i, rows[RefIndex(check, rows, i)]).failure.None?
    ensures Emit(act, check, useState, rows, i, rows[RefIndex(check, rows, i)]).frames
         == KeptFrames(act, check, useState, rows, i)
    decreases |rows| - i
  {
    if i < |rows| {
      EmitMatchesReference(act, check, useState, rows, i + 1);
    }
  }

  /** With whole arm blocks the filter never fails, so neither does the loop. */
  lemma {:induction false} WholeBlocksNeverFail(act: ActionOf, th: Thresholds,
                                                useState: bool, rows: seq<seq<real>>, i: nat, ref: seq<real>)
    requires Rectangular(rows) && |ref| == |rows[0]| && |rows[0]| % 7 == 0
    ensures Emit(act, NonoopFilter(th), useState, rows, i, ref).failure.None?
    decreases |rows| - i
  {
    if i < |rows| {
      CheckNonoopCharacterised(ref, rows[i], th);
      WholeBlocksNeverFail(act, th, useState, rows, i + 1, ref);
      WholeBlocksNeverFail(act, th, useState, rows, i + 1, rows[i]);
    }
  }

  /** The loop from frame `i` on writes at most one frame per remaining
      raw frame, whatever the filter decides or raises; from `i = 1`, an
      episode of `n` raw frames writes at most `n - 1` frames, since frame 0
      is only ever a reference. */
  lemma {:induction false} EpisodeFrameBound(act: ActionOf, check: Filter, useState: bool,
                                             rows: seq<seq<real>>, i: nat, ref: seq<real>)
    requires i <= |rows|
    ensures |Emit(act, check, useState, rows, i, ref).frames| <= |rows| - i
    decreases |rows| - i
  {
    if i < |rows| {
      EpisodeFrameBound(act, check, useState, rows, i + 1, ref);
      EpisodeFrameBound(act, check, useState, rows, i + 1, rows[i]);
    }
  }

  /** The processor: its configuration, the transform built from it, and
      the dataset it fills. scipy's Euler conversion is the parameter `conv`. */
  class Processor {
    const config: DataProcessorConfig
    const conv: EulerConvention
    const transform: Recording.Transform
    const dataset: Dataset

    constructor(config: DataProcessorConfig, conv: EulerConvention, dataset: Dataset)
      requires ProcessorTransform(config).Ok?
      ensures this.config == config && this.conv == conv && this.dataset == dataset
      ensures transform == ProcessorTransform(config).value
    {
      this.config := config;
      this.conv := conv;
      this.transform := ProcessorTransform(config).value;
      this.dataset := dataset;
    }

    /** `_check_nonoop_actions`: walks the arm blocks and returns at the
        first that moves. */
    method CheckNonoopActions(states: seq<real>, actions: seq<real>) returns (r: Result<bool>)
      ensures r == CheckNonoop(states, actions, config.NonoopThresholds())
    {
      var th := config.NonoopThresholds();
      if |states| != |actions| {
        return Err(AssertionError(LengthMismatch));
      }
      var i := 0;
      ghost var b := 0;
      while i < |states|
        invariant i == 7 * b && i <= |states|
        invariant CheckNonoop(states, actions, th) == NonoopFrom(states, actions, th, b)
        decreases |states| - i
      {
        if |states| < i + 7 {
          return Err(IndexError);
        }
        var positionDiff := SqNorm(Sub(ToVec3(states[i..i + 3]), ToVec3(actions[i..i + 3])));
        var rotationDiff := SqNorm(Sub(ToVec3(states[i + 3..i + 6]), ToVec3(actions[i + 3..i + 6])));
        var gripperDiff := Abs(states[i + 6] - actions[i + 6]);
        if Exceeds(positionDiff, th.position) || Exceeds(rotationDiff, th.rotation) || gripperDiff > th.gripper {
          return Ok(true);
        }
        i := i + 7;
        b := b + 1;
      }
      return Ok(false);
    }

    /** The action recorded for a kept frame: the transform applied to the
        reference state and the frame's state. */
    method ActionFor(state: seq<real>, next: seq<real>) returns (action: seq<real>)
      requires |state| == |next| && Recording.Compatible(transform, |state|)
      ensures action == RecordedAction(conv, transform)(state, next)
    {
      Recording.CompatibleAccepts(transform, state, next);
      action := Recording.Call(conv, transform, state, next);
    }

    /** `_add_episode` on the concatenated action rows of one episode: each
        frame after the first is compared with the reference state; kept
        frames are written with the transformed action and become the new
        reference; the episode is saved at the end. An error of the filter
        stops the loop with the frames written so far left unsaved. */
    method AddEpisode(rows: seq<seq<real>>) returns (failure: Option<Error>)
      requires Shaped(transform, rows)
      modifies dataset
      ensures config.checkOnly ==>
        failure.None? && dataset.buffer == old(dataset.buffer) && dataset.episodes == old(dataset.episodes)
      ensures !config.checkOnly ==>
        var e := Emit(RecordedAction(conv, transform), NonoopFilter(config.NonoopThresholds()), config.useState, rows, 1, rows[0]);
        failure == e.failure &&
        (e.failure.None? ==> dataset.episodes == old(dataset.episodes) + [old(dataset.buffer) + e.frames] &&
                             dataset.buffer == []) &&
        (e.failure.Some? ==> dataset.episodes == old(dataset.episodes) &&
                             dataset.buffer == old(dataset.buffer) + e.frames)
    {
      if config.checkOnly {
        return None;
      }
      failure := AddFrames(rows);
      if failure.None? {
        dataset.SaveEpisode();
      }
    }

    /** The frame loop of `_add_episode`: every frame after the first is
        compared with the reference state and, when kept, written to the
        episode buffer with its transformed action. */
    method AddFrames(rows: seq<seq<real>>) returns (failure: Option<Error>)
      requires Shaped(transform, rows)
      modifies dataset
      ensures var e := Emit(RecordedAction(conv, transform), NonoopFilter(config.NonoopThresholds()), config.useState, rows, 1, rows[0]);
        failure == e.failure &&
        dataset.episodes == old(dataset.episodes) &&
        dataset.buffer == old(dataset.buffer) + e.frames
    {
      ghost var check := NonoopFilter(config.NonoopThresholds());
      ghost var act := RecordedAction(conv, transform);
      ghost var whole := Emit(act, check, config.useState, rows, 1, rows[0]);
      ghost var added: seq<Frame> := [];
      var state := rows[0];
      var i := 1;
      while i < |rows|
        invariant 1 <= i <= |rows| && |state| == |rows[0]|
        invariant dataset.episodes == old(dataset.episodes)
        invariant dataset.buffer == old(dataset.buffer) + added
        invariant whole.failure == Emit(act, check, config.useState, rows, i, state).failure
        invariant whole.frames == added + Emit(act, check, config.useState, rows, i, state).frames
        decreases |rows| - i
      {
        var nextState := rows[i];
        var keep := CheckNonoopActions(state, nextState);
        assert check(state, nextState) == keep;
        EmitStep(act, check, config.useState, rows, i, state);
        if keep.Err? {
          assert added + [] == added;
          return Some(keep.error);
        }
        if !keep.value {
          i := i + 1;
          continue;
        }
        var action := ActionFor(state, nextState);
        var frame := Frame(i, action, if config.useState then Some(state) else None);
        ghost var rest := Emit(act, check, config.useState, rows, i + 1, nextState);
        assert added + ([frame] + rest.frames) == (added + [frame]) + rest.frames;
        dataset.AddFrame(frame);
        added := added + [frame];
        state := nextState;
        i := i + 1;
      }
      assert added == whole.frames && whole.failure.None?;
      return None;
    }
  }
}
