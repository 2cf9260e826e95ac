/** The recording-side pose transforms of src/data/misc/transforms.py: they
    turn a pair (current absolute pose, next absolute pose) into the action
    stored in the dataset. */
module RecordingTransforms {
  import opened Wrappers
  import opened Geometry

  /** The three per-arm transforms (the source's BaseTransform subclasses). */
  datatype ArmTransform = Absolute | AbsoluteToDeltaBase | AbsoluteToDeltaGripper

  /** What `get_transform` returns: an arm transform, or a BiTransform around it. */
  datatype Transform = Single(arm: ArmTransform) | Bi(arm: ArmTransform)

  /** The shapes an arm transform can be called on without an IndexError:
      the delta transforms read `state[:6]` and `next[:7]`. */
  predicate Fits(t: ArmTransform, state: seq<real>, next: seq<real>) {
    t.Absolute? || (|state| >= 6 && |next| >= 7)
  }

  /** AbsoluteTransform: the next pose is the action; the state is ignored. */
  function AbsoluteCall(state: seq<real>, next: seq<real>): (r: seq<real>)
    ensures r == next
  {
    next
  }

  /** AbsoluteToDeltaBaseTransform: positions and Euler angles are subtracted
      channel by channel; the gripper channel is copied from `next`. */
  function DeltaBaseCall(state: seq<real>, next: seq<real>): (r: seq<real>)
    requires |state| >= 6 && |next| >= 7
    ensures |r| == 7
    ensures forall i :: 0 <= i < 6 ==> r[i] == next[i] - state[i]
    ensures r[6] == next[6]
  {
    ToSeq(Sub(Position(next), Position(state)))
      + ToSeq(Sub(Orientation(next), Orientation(state)))
      + [next[6]]
  }

  /** AbsoluteToDeltaGripperTransform: the position difference expressed in
      the current gripper frame (`R_cur.T @ (next_pos - cur_pos)`), the Euler
      angles of `R_next @ R_cur.T`, and the gripper channel of `next`. */
  function DeltaGripperCall(conv: EulerConvention, state: seq<real>, next: seq<real>): (r: seq<real>)
    requires |state| >= 6 && |next| >= 7
    ensures |r| == 7 && r[6] == next[6]
  {
    var current := conv.fromEuler(Orientation(state));
    var nextRotation := conv.fromEuler(Orientation(next));
    var deltaRotation := Mul(nextRotation, Transpose(current));
    ToSeq(Apply(Transpose(current), Sub(Position(next), Position(state))))
      + ToSeq(conv.toEuler(deltaRotation))
      + [next[6]]
  }

  /** Recording-side correction of AbsoluteToDeltaGripperTransform: the delta
      rotation is taken in the current gripper's local frame,
      `R_cur.T @ R_next`; position and gripper channel as before. */
  function DeltaGripperLocalCall(conv: EulerConvention, state: seq<real>, next: seq<real>): (r: seq<real>)
    requires |state| >= 6 && |next| >= 7
    ensures |r| == 7 && r[6] == next[6]
    ensures r[..3] == DeltaGripperCall(conv, state, next)[..3]
  {
    var current := conv.fromEuler(Orientation(state));
    var nextRotation := conv.fromEuler(Orientation(next));
    ToSeq(Apply(Transpose(current), Sub(Position(next), Position(state))))
      + ToSeq(conv.toEuler(Mul(Transpose(current), nextRotation)))
      + [next[6]]
  }

  function ArmCall(conv: EulerConvention, t: ArmTransform, state: seq<real>, next: seq<real>): (r: seq<real>)
    requires Fits(t, state, next)
    ensures !t.Absolute? ==> |r| == 7 && r[6] == next[6]
  {
    match t
    case Absolute => AbsoluteCall(state, next)
    case AbsoluteToDeltaBase => DeltaBaseCall(state, next)
    case AbsoluteToDeltaGripper => DeltaGripperCall(conv, state, next)
  }

  /** Python's `v[:7]` and `v[7:]`, which clamp instead of failing. */
  function Left(v: seq<real>): (r: seq<real>)
    ensures r == if |v| >= 7 then v[..7] else v
  {
    if |v| >= 7 then v[..7] else v
  }

  function Right(v: seq<real>): (r: seq<real>)
    ensures r == if |v| >= 7 then v[7..] else []
  {
    if |v| >= 7 then v[7..] else []
  }

  predicate Accepts(t: Transform, state: seq<real>, next: seq<real>) {
    match t
    case Single(a) => Fits(a, state, next)
    case Bi(a) => Fits(a, Left(state), Left(next)) && Fits(a, Right(state), Right(next))
  }

  /** The vector widths a transform can be applied to: the delta transforms
      need a whole arm block, and twice that when wrapped in BiTransform. */
  predicate Compatible(t: Transform, width: nat) {
    t.arm.Absolute? || (t.Single? && width >= 7) || (t.Bi? && width >= 14)
  }

  /** Any two vectors of a compatible width can be transformed. */
  lemma CompatibleAccepts(t: Transform, state: seq<real>, next: seq<real>)
    requires |state| == |next| && Compatible(t, |state|)
    ensures Accepts(t, state, next)
  {
  }

  /** Calling the transform; BiTransform applies the arm transform to the
      left block `[:7]` and the right block `[7:]` and concatenates. */
  function Call(conv: EulerConvention, t: Transform, state: seq<real>, next: seq<real>): (r: seq<real>)
    requires Accepts(t, state, next)
  {
    match t
    case Single(a) => ArmCall(conv, a, state, next)
    case Bi(a) => ArmCall(conv, a, Left(state), Left(next)) + ArmCall(conv, a, Right(state), Right(next))
  }

  /** `get_transform(transform_type, multi_arm=True)`. */
  function GetTransform(transformType: string, multiArm: bool := true): (r: Result<Transform>)
    ensures r.Ok? <==> transformType in {"ee_absolute", "ee_delta_base", "ee_delta_gripper"}
    ensures r.Ok? ==> (r.value.Bi? <==> multiArm)
    ensures r.Ok? ==> (r.value.arm.Absolute? <==> transformType == "ee_absolute")
    ensures r.Ok? ==> (r.value.arm.AbsoluteToDeltaBase? <==> transformType == "ee_delta_base")
    ensures r.Err? ==> r.error.ValueError?
  {
    var arm :-
      if transformType == "ee_absolute" then Ok(Absolute)
      else if transformType == "ee_delta_base" then Ok(AbsoluteToDeltaBase)
      else if transformType == "ee_delta_gripper" then Ok(AbsoluteToDeltaGripper)
      else Err(ValueError("Unknown transform type: " + transformType));
    Ok(if multiArm then Bi(arm) else Single(arm))
  }

  // ---------------------------------------------------------------------------
  // Properties

  /** The absolute transform ignores the current state. */
  lemma AbsoluteIgnoresState(conv: EulerConvention, multiArm: bool, s1: seq<real>, s2: seq<real>, next: seq<real>)
    requires GetTransform("ee_absolute", multiArm).Ok?
    ensures var t := GetTransform("ee_absolute", multiArm).value;
      Accepts(t, s1, next) && Accepts(t, s2, next) && Call(conv, t, s1, next) == Call(conv, t, s2, next) &&
      Call(conv, t, s1, next) == next
  {
    var t := GetTransform("ee_absolute", multiArm).value;
    if multiArm {
      assert Left(next) + Right(next) == next;
    }
  }

  /** A base-frame delta of a pose against itself is zero in all six motion
      channels and keeps the gripper. */
  lemma DeltaBaseOfSamePose(pose: seq<real>)
    requires |pose| >= 7
    ensures DeltaBaseCall(pose, pose) == [0.0, 0.0, 0.0, 0.0, 0.0, 0.0, pose[6]]
  {
  }

  /** Gripper-frame delta between two poses with the same orientation: the
      rotation argument of `as_euler` is `R @ R.T`, which is the identity for
      a rotation matrix. */
  lemma DeltaGripperSameOrientation(conv: EulerConvention, state: seq<real>, next: seq<real>)
    requires |state| >= 6 && |next| >= 7
    requires Orientation(state) == Orientation(next)
    requires Orthonormal(conv.fromEuler(Orientation(state)))
    ensures DeltaGripperCall(conv, state, next)[3..6] == ToSeq(conv.toEuler(Identity))
  {
  }

  /** The scenario of a pure forward motion with zero rotation: when the zero
      Euler angles give the identity matrix and back, the gripper-frame delta
      equals the base-frame displacement. */
  lemma DeltaGripperZeroRotationScenario(conv: EulerConvention)
    requires conv.fromEuler(Zero) == Identity
    requires conv.toEuler(Identity) == Zero
    ensures DeltaGripperCall(conv, [0.0, 0.0, 0.0, 0.0, 0.0, 0.0, 0.5], [0.1, 0.0, 0.0, 0.0, 0.0, 0.0, 0.5])
         == [0.1, 0.0, 0.0, 0.0, 0.0, 0.0, 0.5]
  {
    var s := [0.0, 0.0, 0.0, 0.0, 0.0, 0.0, 0.5];
    var n := [0.1, 0.0, 0.0, 0.0, 0.0, 0.0, 0.5];
    var move := Vec3(0.1, 0.0, 0.0);
    assert s[..3] == [0.0, 0.0, 0.0] && s[3..6] == [0.0, 0.0, 0.0];
    assert n[..3] == [0.1, 0.0, 0.0] && n[3..6] == [0.0, 0.0, 0.0];
    assert Orientation(s) == Zero && Orientation(n) == Zero;
    assert Position(s) == Zero;
    assert Position(n) == move;
    var r := conv.fromEuler(Zero);
    assert DeltaGripperCall(conv, s, n)
        == ToSeq(Apply(Transpose(r), Sub(move, Zero))) + ToSeq(conv.toEuler(Mul(r, Transpose(r)))) + [0.5];
    assert Apply(Transpose(Identity), Sub(move, Zero)) == move;
    assert Mul(Identity, Transpose(Identity)) == Identity;
  }

  /** BiTransform's output is the left block's transform followed by the
      right block's. */
  lemma BiSplits(conv: EulerConvention, a: ArmTransform, state: seq<real>, next: seq<real>)
    requires |state| == 14 && |next| == 14
    ensures Accepts(Bi(a), state, next)
    ensures var r := Call(conv, Bi(a), state, next);
      |r| == 14 &&
      r[..7] == ArmCall(conv, a, state[..7], next[..7]) &&
      r[7..] == ArmCall(conv, a, state[7..], next[7..])
  {
  }

  /** Per-block independence: changing only the right block of the inputs
      never changes the left block of the output, and vice versa. */
  lemma BiBlocksIndependent(conv: EulerConvention, a: ArmTransform,
                            s1: seq<real>, n1: seq<real>, s2: seq<real>, n2: seq<real>)
    requires |s1| == |n1| == |s2| == |n2| == 14
    ensures Accepts(Bi(a), s1, n1) && Accepts(Bi(a), s2, n2)
    ensures s1[..7] == s2[..7] && n1[..7] == n2[..7] ==>
      Call(conv, Bi(a), s1, n1)[..7] == Call(conv, Bi(a), s2, n2)[..7]
    ensures s1[7..] == s2[7..] && n1[7..] == n2[7..] ==>
      Call(conv, Bi(a), s1, n1)[7..] == Call(conv, Bi(a), s2, n2)[7..]
  {
    BiSplits(conv, a, s1, n1);
    BiSplits(conv, a, s2, n2);
  }

  /** `multi_arm` defaults to true. */
  lemma MultiArmByDefault(transformType: string)
    ensures GetTransform(transformType) == GetTransform(transformType, true)
  {
  }
}
