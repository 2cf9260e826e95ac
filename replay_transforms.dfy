/** The replay/control-side transforms of src/deploy/robots/misc/transforms.py:
    they turn (current absolute pose, action) back into an absolute target pose.
    The round-trip lemmas at the end relate them to the recording side. */
module ReplayTransforms {
  import opened Wrappers
  import opened Geometry
  import Recording = RecordingTransforms

  /** The three transforms; the gripper-frame one carries its read-only
      `base_euler` alignment. */
  datatype ReplayTransform = Absolute | DeltaBaseToAbsolute | DeltaGripperToAbsolute(baseEuler: Option<Vec3>)

  /** The delta transforms read `state[:6]` and `action[:7]`. */
  predicate Fits(t: ReplayTransform, state: seq<real>, action: seq<real>) {
    t.Absolute? || (|state| >= 6 && |action| >= 7)
  }

  /** AbsoluteTransform: the action is already the absolute target. */
  function AbsoluteCall(state: seq<real>, action: seq<real>): (r: seq<real>)
    ensures r == action
  {
    action
  }

  /** DeltaBaseToAbsoluteTransform: positions and Euler angles are added
      channel by channel; the gripper channel comes from the action. */
  function DeltaBaseToAbsoluteCall(state: seq<real>, action: seq<real>): (r: seq<real>)
    requires |state| >= 6 && |action| >= 7
    ensures |r| == 7
    ensures forall i :: 0 <= i < 6 ==> r[i] == state[i] + action[i]
    ensures r[6] == action[6]
  {
    ToSeq(Add(Position(state), Position(action)))
      + ToSeq(Add(Orientation(state), Orientation(action)))
      + [action[6]]
  }

  /** The current rotation as DeltaGripperToAbsoluteTransform uses it:
      `R_cur`, or `R_cur @ A.T` when `base_euler` gives the alignment `A`. */
  function CurrentRotation(conv: EulerConvention, baseEuler: Option<Vec3>, state: seq<real>): Mat3
    requires |state| >= 6
  {
    var current := conv.fromEuler(Orientation(state));
    match baseEuler
    case None => current
    case Some(e) => Mul(current, Transpose(conv.fromEuler(e)))
  }

  /** The matrix handed to `as_euler`: `current @ R_delta`, post-multiplied by
      `A` when an alignment is configured. */
  function TargetRotation(conv: EulerConvention, baseEuler: Option<Vec3>, state: seq<real>, action: seq<real>): Mat3
    requires |state| >= 6 && |action| >= 6
  {
    var absolute := Mul(CurrentRotation(conv, baseEuler, state), conv.fromEuler(Orientation(action)));
    match baseEuler
    case None => absolute
    case Some(e) => Mul(absolute, conv.fromEuler(e))
  }

  /** DeltaGripperToAbsoluteTransform, as written: the position is
      `cur_pos + current.T @ delta_pos`. */
  function DeltaGripperToAbsoluteCall(conv: EulerConvention, baseEuler: Option<Vec3>,
                                      state: seq<real>, action: seq<real>): (r: seq<real>)
    requires |state| >= 6 && |action| >= 7
    ensures |r| == 7 && r[6] == action[6]
    ensures r[3..6] == ToSeq(conv.toEuler(TargetRotation(conv, baseEuler, state, action)))
  {
    var current := CurrentRotation(conv, baseEuler, state);
    ToSeq(Add(Position(state), Apply(Transpose(current), Position(action))))
      + ToSeq(conv.toEuler(TargetRotation(conv, baseEuler, state, action)))
      + [action[6]]
  }

  function Call(conv: EulerConvention, t: ReplayTransform, state: seq<real>, action: seq<real>): (r: seq<real>)
    requires Fits(t, state, action)
    ensures !t.Absolute? ==> |r| == 7 && r[6] == action[6]
  {
    match t
    case Absolute => AbsoluteCall(state, action)
    case DeltaBaseToAbsolute => DeltaBaseToAbsoluteCall(state, action)
    case DeltaGripperToAbsolute(baseEuler) => DeltaGripperToAbsoluteCall(conv, baseEuler, state, action)
  }

  /** `get_transform(transform_type, base_euler=None)`. */
  function GetTransform(transformType: string, baseEuler: Option<Vec3> := None): (r: Result<ReplayTransform>)
    ensures r.Ok? <==> transformType in {"ee_absolute", "ee_delta_base_to_absolute", "ee_delta_gripper_to_absolute"}
    ensures r.Ok? ==> (r.value.Absolute? <==> transformType == "ee_absolute")
    ensures r.Ok? ==> (r.value.DeltaBaseToAbsolute? <==> transformType == "ee_delta_base_to_absolute")
    ensures r.Ok? && r.value.DeltaGripperToAbsolute? ==> r.value.baseEuler == baseEuler
    ensures r.Err? ==> r.error.ValueError?
  {
    if transformType == "ee_absolute" then Ok(Absolute)
    else if transformType == "ee_delta_base_to_absolute" then Ok(DeltaBaseToAbsolute)
    else if transformType == "ee_delta_gripper_to_absolute" then Ok(DeltaGripperToAbsolute(baseEuler))
    else Err(ValueError("Unknown transform type: " + transformType))
  }

  // ---------------------------------------------------------------------------
  // Properties of the replay side

  /** With an alignment `A = R(base_euler)`, the position offset is
      `A @ R_cur.T @ delta_pos` and the target rotation is
      `R_cur @ A.T @ R_delta @ A`. */
  lemma AlignedGripperReplay(conv: EulerConvention, e: Vec3, state: seq<real>, action: seq<real>)
    requires |state| >= 6 && |action| >= 7
    ensures var r := DeltaGripperToAbsoluteCall(conv, Some(e), state, action);
      var a := conv.fromEuler(e);
      var current := conv.fromEuler(Orientation(state));
      Position(r) == Add(Position(state), Apply(a, Apply(Transpose(current), Position(action)))) &&
      TargetRotation(conv, Some(e), state, action)
        == Mul(current, Mul(Transpose(a), Mul(conv.fromEuler(Orientation(action)), a)))
  {
    var r := DeltaGripperToAbsoluteCall(conv, Some(e), state, action);
    var a := conv.fromEuler(e);
    var current := conv.fromEuler(Orientation(state));
    var delta := conv.fromEuler(Orientation(action));
    TransposeMul(current, Transpose(a));
    TransposeTranspose(a);
    ApplyMul(a, Transpose(current));
    assert r[..3] == ToSeq(Add(Position(state), Apply(Transpose(Mul(current, Transpose(a))), Position(action))));
    MulAssoc(Mul(current, Transpose(a)), delta, a);
    MulAssoc(current, Transpose(a), Mul(delta, a));
  }

  /** An alignment whose matrix is the identity changes nothing. */
  lemma IdentityAlignmentIsNoAlignment(conv: EulerConvention, e: Vec3, state: seq<real>, action: seq<real>)
    requires |state| >= 6 && |action| >= 7
    requires conv.fromEuler(e) == Identity
    ensures DeltaGripperToAbsoluteCall(conv, Some(e), state, action)
         == DeltaGripperToAbsoluteCall(conv, None, state, action)
  {
    var current := conv.fromEuler(Orientation(state));
    assert Transpose(Identity) == Identity;
    MulIdentity(current);
    MulIdentity(Mul(current, conv.fromEuler(Orientation(action))));
  }

  // ---------------------------------------------------------------------------
  // Recording and replay together

  /** Base-frame deltas round-trip exactly over the reals, in both directions. */
  lemma DeltaBaseRoundTrip(state: seq<real>, next: seq<real>)
    requires |state| >= 6 && |next| == 7
    ensures DeltaBaseToAbsoluteCall(state, Recording.DeltaBaseCall(state, next)) == next
    ensures Recording.DeltaBaseCall(state, DeltaBaseToAbsoluteCall(state, next)) == next
  {
    var r := DeltaBaseToAbsoluteCall(state, Recording.DeltaBaseCall(state, next));
    assert forall i :: 0 <= i < 7 ==> r[i] == next[i];
    var q := Recording.DeltaBaseCall(state, DeltaBaseToAbsoluteCall(state, next));
    assert forall i :: 0 <= i < 7 ==> q[i] == next[i];
  }

  /** The absolute transforms of the two sides are inverse: both are the identity on the action. */
  lemma AbsoluteRoundTrip(conv: EulerConvention, state: seq<real>, next: seq<real>)
    ensures Call(conv, Absolute, state, Recording.ArmCall(conv, Recording.Absolute, state, next)) == next
  {
  }

  /** The only key both factories accept is "ee_absolute": the recording
      side's "ee_delta_base" and "ee_delta_gripper" are rejected on replay, and
      the replay keys are rejected by the recording factory. */
  lemma FactoryKeysDisagree(transformType: string, multiArm: bool, baseEuler: Option<Vec3>)
    ensures Recording.GetTransform(transformType, multiArm).Ok? && GetTransform(transformType, baseEuler).Ok?
        <==> transformType == "ee_absolute"
    ensures GetTransform("ee_delta_gripper", baseEuler).Err?
    ensures Recording.GetTransform("ee_delta_gripper_to_absolute", multiArm).Err?
  {
  }

  // ---------------------------------------------------------------------------
  // Finding: the gripper-frame replay does not invert the gripper-frame recording.

  /** A rotation by a quarter turn about z. */
  const QuarterTurnZ := Mat3(Vec3(0.0, -1.0, 0.0), Vec3(1.0, 0.0, 0.0), Vec3(0.0, 0.0, 1.0))

  /** The transpose of `QuarterTurnZ`: a quarter turn the other way. */
  const QuarterTurnBack := Mat3(Vec3(0.0, 1.0, 0.0), Vec3(-1.0, 0.0, 0.0), Vec3(0.0, 0.0, 1.0))

  lemma QuarterTurnTranspose()
    ensures Transpose(QuarterTurnZ) == QuarterTurnBack
    ensures Transpose(QuarterTurnBack) == QuarterTurnZ
  { }

  lemma QuarterTurnLeftInverse()
    ensures Mul(QuarterTurnBack, QuarterTurnZ) == Identity
  { }

  lemma QuarterTurnRightInverse()
    ensures Mul(QuarterTurnZ, QuarterTurnBack) == Identity
  { }

  lemma QuarterTurnIsRotation()
    ensures Orthonormal(QuarterTurnZ)
  {
    QuarterTurnTranspose();
    QuarterTurnLeftInverse();
    QuarterTurnRightInverse();
  }

  /** Turning back by a quarter turn maps +x to -y and -y to -x. */
  lemma QuarterTurnBackOnAxes()
    ensures Apply(QuarterTurnBack, Vec3(1.0, 0.0, 0.0)) == Vec3(0.0, -1.0, 0.0)
    ensures Apply(QuarterTurnBack, Vec3(0.0, -1.0, 0.0)) == Vec3(-1.0, 0.0, 0.0)
  {
    QuarterTurnBackOnX();
    QuarterTurnBackOnMinusY();
  }

  lemma QuarterTurnBackOnX()
    ensures Apply(QuarterTurnBack, Vec3(1.0, 0.0, 0.0)) == Vec3(0.0, -1.0, 0.0)
  { }

  lemma QuarterTurnBackOnMinusY()
    ensures Apply(QuarterTurnBack, Vec3(0.0, -1.0, 0.0)) == Vec3(-1.0, 0.0, 0.0)
  { }

  /** As written, replaying a recorded gripper-frame delta rotates the
      position offset by `R_cur.T` twice: the recording already expressed it
      in the gripper frame with `R_cur.T`, and the replay applies `R_cur.T`
      again where `R_cur` would undo it. */
  lemma {:induction false} GripperReplayPosition(conv: EulerConvention, state: seq<real>, next: seq<real>)
    requires |state| >= 6 && |next| >= 7
    ensures var back := Transpose(conv.fromEuler(Orientation(state)));
      var r := DeltaGripperToAbsoluteCall(conv, None, state, Recording.DeltaGripperCall(conv, state, next));
      Position(r) == Add(Position(state), Apply(back, Apply(back, Sub(Position(next), Position(state)))))
  {
    var back := Transpose(conv.fromEuler(Orientation(state)));
    var delta := Recording.DeltaGripperCall(conv, state, next);
    assert Position(delta) == Apply(back, Sub(Position(next), Position(state))) by {
      assert delta[..3] == ToSeq(Apply(back, Sub(Position(next), Position(state))));
    }
    var r := DeltaGripperToAbsoluteCall(conv, None, state, delta);
    assert r[..3] == ToSeq(Add(Position(state), Apply(back, Position(delta))));
  }

  lemma TwiceBackOnX(c: Vec3, d: Vec3)
    requires d == Vec3(1.0, 0.0, 0.0)
    ensures Add(c, Apply(QuarterTurnBack, Apply(QuarterTurnBack, d))) == Add(c, Vec3(-1.0, 0.0, 0.0))
  {
    QuarterTurnBackOnAxes();
  }

  /** As written: for a state whose orientation is a quarter turn about z,
      recording a move of +1 m along x and replaying it lands 1 m BEHIND the
      start along x. */
  lemma GripperReplayMissesRecordedPosition(conv: EulerConvention, state: seq<real>)
    requires |state| == 7
    requires conv.fromEuler(Orientation(state)) == QuarterTurnZ
    ensures var next := state[0 := state[0] + 1.0];
      var replayed := DeltaGripperToAbsoluteCall(conv, None, state, Recording.DeltaGripperCall(conv, state, next));
      replayed[0] == state[0] - 1.0 && replayed[0] != next[0]
  {
    var next := state[0 := state[0] + 1.0];
    var step := Sub(Position(next), Position(state));
    assert step == Vec3(1.0, 0.0, 0.0);
    GripperReplayPosition(conv, state, next);
    QuarterTurnTranspose();
    TwiceBackOnX(Position(state), step);
    var replayed := DeltaGripperToAbsoluteCall(conv, None, state, Recording.DeltaGripperCall(conv, state, next));
    assert Position(replayed) == Add(Position(state), Vec3(-1.0, 0.0, 0.0));
    assert Position(replayed).x == replayed[0];
  }

  /** `as_euler` followed by `from_euler` gives back this matrix. */
  ghost predicate ExactOn(conv: EulerConvention, m: Mat3) {
    conv.fromEuler(conv.toEuler(m)) == m
  }

  /** Corrected gripper-frame replay: the position offset is rotated back with
      `R_cur` (not `R_cur.T`) and the delta rotation is applied on the left
      (`R_delta @ R_cur`), matching the recording as written. The rotation
      mismatch can be fixed on the recording side instead: see
      `GripperLocalRecordingRotationRoundTrip`. */
  function DeltaGripperToAbsoluteCorrected(conv: EulerConvention, state: seq<real>, action: seq<real>): (r: seq<real>)
    requires |state| >= 6 && |action| >= 7
    ensures |r| == 7 && r[6] == action[6]
  {
    var current := conv.fromEuler(Orientation(state));
    ToSeq(Add(Position(state), Apply(current, Position(action))))
      + ToSeq(conv.toEuler(Mul(conv.fromEuler(Orientation(action)), current)))
      + [action[6]]
  }

  /** The corrected replay inverts the recording: position and gripper are
      recovered exactly, and the orientation is the Euler decomposition of the
      next pose's own rotation matrix (so exactly the next pose's angles when
      those are the ones `as_euler` reports). */
  lemma CorrectedGripperRoundTrip(conv: EulerConvention, state: seq<real>, next: seq<real>)
    requires |state| >= 6 && |next| == 7
    requires Orthonormal(conv.fromEuler(Orientation(state)))
    requires ExactOn(conv, Mul(conv.fromEuler(Orientation(next)), Transpose(conv.fromEuler(Orientation(state)))))
    ensures var r := DeltaGripperToAbsoluteCorrected(conv, state, Recording.DeltaGripperCall(conv, state, next));
      Position(r) == Position(next) && r[6] == next[6] &&
      Orientation(r) == conv.toEuler(conv.fromEuler(Orientation(next))) &&
      (conv.toEuler(conv.fromEuler(Orientation(next))) == Orientation(next) ==> r == next)
  {
    var current := conv.fromEuler(Orientation(state));
    var target := conv.fromEuler(Orientation(next));
    var delta := Recording.DeltaGripperCall(conv, state, next);
    var r := DeltaGripperToAbsoluteCorrected(conv, state, delta);
    // position
    var offset := Sub(Position(next), Position(state));
    assert Position(delta) == Apply(Transpose(current), offset);
    ApplyThenTranspose(current, offset);
    assert Position(r) == Add(Position(state), offset);
    // rotation
    assert Orientation(delta) == conv.toEuler(Mul(target, Transpose(current)));
    MulAssoc(target, Transpose(current), current);
    MulIdentity(target);
    assert Orientation(r) == conv.toEuler(target);
    if conv.toEuler(target) == Orientation(next) {
      assert r[..3] == next[..3] && r[3..6] == next[3..6];
      assert r == r[..3] + r[3..6] + [r[6]];
      assert next == next[..3] + next[3..6] + [next[6]];
    }
  }

  /** With the recording taking the delta rotation in the gripper's local frame
      (`R_cur.T @ R_next`), the replay rotation as written (`R_cur @ R_delta`)
      already recovers the next pose's rotation: the orientation replayed is
      the Euler decomposition of `R_next`, and exactly the next pose's angles
      when those are the ones `as_euler` reports. */
  lemma GripperLocalRecordingRotationRoundTrip(conv: EulerConvention, state: seq<real>, next: seq<real>)
    requires |state| >= 6 && |next| == 7
    requires Orthonormal(conv.fromEuler(Orientation(state)))
    requires ExactOn(conv, Mul(Transpose(conv.fromEuler(Orientation(state))), conv.fromEuler(Orientation(next))))
    ensures var r := DeltaGripperToAbsoluteCall(conv, None, state, Recording.DeltaGripperLocalCall(conv, state, next));
      Orientation(r) == conv.toEuler(conv.fromEuler(Orientation(next))) && r[6] == next[6] &&
      (conv.toEuler(conv.fromEuler(Orientation(next))) == Orientation(next) ==> r[3..6] == next[3..6])
  {
    var current := conv.fromEuler(Orientation(state));
    var target := conv.fromEuler(Orientation(next));
    var delta := Recording.DeltaGripperLocalCall(conv, state, next);
    var r := DeltaGripperToAbsoluteCall(conv, None, state, delta);
    assert Orientation(delta) == conv.toEuler(Mul(Transpose(current), target));
    assert TargetRotation(conv, None, state, delta) == Mul(current, Mul(Transpose(current), target));
    MulAssoc(current, Transpose(current), target);
    MulIdentity(target);
    assert Orientation(r) == conv.toEuler(target);
  }
}
