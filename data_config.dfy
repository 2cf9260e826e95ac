/** The dataset-generation configuration of
    src/data/configuration_data_processor.py: the fields the pose pipeline
    reads, the derived `action_len`, and the defaults of the base class and
    of the single-arm and multi-arm subclasses. */
module DataConfig {
  import opened Geometry

  /** The three no-op thresholds: metres, radians, normalised gripper. */
  datatype Thresholds = Thresholds(position: real, rotation: real, gripper: real)

  datatype DataProcessorConfig = DataProcessorConfig(
    checkOnly: bool,
    rgbDirs: seq<string>,
    rgbNames: seq<string>,
    actionDirs: seq<string>,
    actionKeysList: seq<seq<string>>,
    positionNonoopThreshold: real,
    rotationNonoopThreshold: real,
    gripperNonoopThreshold: real,
    transformType: string,
    useState: bool)
  {
    /** `action_len`, fixed in `__post_init__`. */
    function ActionLen(): nat {
      SumOfLengths(actionKeysList)
    }

    function NonoopThresholds(): Thresholds {
      Thresholds(positionNonoopThreshold, rotationNonoopThreshold, gripperNonoopThreshold)
    }
  }

  /** `itertools.chain.from_iterable`: the key lists one after another. */
  function Flatten(lists: seq<seq<string>>): seq<string> {
    if |lists| == 0 then [] else lists[0] + Flatten(lists[1..])
  }

  /** `sum(len(keys) for keys in action_keys_list)`: the number of action
      channels, which is the number of flattened action names. */
  function SumOfLengths(lists: seq<seq<string>>): (n: nat)
    ensures n == |Flatten(lists)|
  {
    if |lists| == 0 then 0 else |lists[0]| + SumOfLengths(lists[1..])
  }

  /** Adding the key lists of another action stream adds their channels. */
  lemma {:induction false} SumOfLengthsAppend(a: seq<seq<string>>, b: seq<seq<string>>)
    ensures SumOfLengths(a + b) == SumOfLengths(a) + SumOfLengths(b)
    decreases |a|
  {
    if |a| == 0 {
      assert a + b == b;
    } else {
      assert (a + b)[1..] == a[1..] + b;
      SumOfLengthsAppend(a[1..], b);
    }
  }

  /** `math.radians(1.0)`. */
  const OneDegree: real := Pi / 180.0

  const PoseKeys := ["x", "y", "z", "roll", "pitch", "yaw"]
  const GripperKeys := ["angle"]

  /** `DataProcessorConfig()`. */
  function BaseConfig(): DataProcessorConfig {
    DataProcessorConfig(
      checkOnly := false,
      rgbDirs := [], rgbNames := [],
      actionDirs := [], actionKeysList := [[]],
      positionNonoopThreshold := 0.001,
      rotationNonoopThreshold := OneDegree,
      gripperNonoopThreshold := 0.01,
      transformType := "ee_absolute",
      useState := false)
  }

  /** `RGBSingleArmDataProcessorConfig()`: one pose stream and one gripper
      stream of the left tracker. */
  function SingleArmConfig(): DataProcessorConfig {
    BaseConfig().(
      rgbDirs := ["camera/color/camera_realsense_c", "camera/color/pikaDepthCamera_l",
                  "camera/color/pikaFisheyeCamera_l"],
      rgbNames := ["observation.images.front", "observation.images.left_wrist",
                   "observation.images.left_wrist_fisheye"],
      actionDirs := ["localization/pose/pika_l", "gripper/encoder/pika_l"],
      actionKeysList := [PoseKeys, GripperKeys],
      transformType := "ee_delta_gripper")
  }

  /** `RGBMultiArmDataProcessorConfig()`: pose and gripper streams of the
      left tracker, then of the right. */
  function MultiArmConfig(): DataProcessorConfig {
    BaseConfig().(
      rgbDirs := ["camera/color/camera_realsense_c", "camera/color/pikaDepthCamera_l",
                  "camera/color/pikaFisheyeCamera_l", "camera/color/pikaDepthCamera_r",
                  "camera/color/pikaFisheyeCamera_r"],
      rgbNames := ["observation.images.front", "observation.images.left_wrist",
                   "observation.images.left_wrist_fisheye", "observation.images.right_wrist",
                   "observation.images.right_wrist_fisheye"],
      actionDirs := ["localization/pose/pika_l", "gripper/encoder/pika_l",
                     "localization/pose/pika_r", "gripper/encoder/pika_r"],
      actionKeysList := [PoseKeys, GripperKeys, PoseKeys, GripperKeys],
      transformType := "ee_delta_gripper")
  }

  /** `RGBSingleArmDeltaGripperDataProcessorConfig()` and
      `RGBMultiArmDeltaGripperDataProcessorConfig()` only restate the
      transform type their parents already default to. */
  function SingleArmDeltaGripperConfig(): DataProcessorConfig {
    SingleArmConfig().(transformType := "ee_delta_gripper")
  }

  function MultiArmDeltaGripperConfig(): DataProcessorConfig {
    MultiArmConfig().(transformType := "ee_delta_gripper")
  }

  // ---------------------------------------------------------------------------
  // Properties of the defaults

  /** The base default has no action channels; a single arm has 7 (six pose
      channels and the gripper), two arms have 14. */
  lemma DefaultActionLens()
    ensures BaseConfig().ActionLen() == 0
    ensures SingleArmConfig().ActionLen() == 7
    ensures SingleArmDeltaGripperConfig().ActionLen() == 7
    ensures MultiArmConfig().ActionLen() == 14
    ensures MultiArmDeltaGripperConfig().ActionLen() == 14
  {
    assert SumOfLengths([[]]) == 0;
    var single := [PoseKeys, GripperKeys];
    assert SumOfLengths(single) == 7 by {
      assert single[1..] == [GripperKeys] && [GripperKeys][1..] == [];
    }
    SumOfLengthsAppend(single, single);
    assert single + single == MultiArmConfig().actionKeysList;
  }

  /** In the multi-arm default, action stream k is read from directory k:
      the two pose directories carry the six pose keys and the two encoder
      directories the gripper angle, left arm first. */
  lemma MultiArmStreamsPaired()
    ensures var c := MultiArmConfig();
      |c.actionDirs| == |c.actionKeysList| == 4 &&
      forall k :: 0 <= k < 4 ==>
        (c.actionKeysList[k] == PoseKeys <==> k % 2 == 0) &&
        (c.actionKeysList[k] == GripperKeys <==> k % 2 == 1)
  {
    var c := MultiArmConfig();
    assert PoseKeys != GripperKeys by { assert |PoseKeys| != |GripperKeys|; }
    forall k | 0 <= k < 4
      ensures (c.actionKeysList[k] == PoseKeys <==> k % 2 == 0) &&
              (c.actionKeysList[k] == GripperKeys <==> k % 2 == 1)
    {
      assert k == 0 || k == 1 || k == 2 || k == 3;
    }
  }

  /** The base default records absolute poses; every arm configuration
      records gripper-frame deltas. */
  lemma DefaultTransformTypes()
    ensures BaseConfig().transformType == "ee_absolute"
    ensures SingleArmConfig().transformType == "ee_delta_gripper"
    ensures MultiArmConfig().transformType == "ee_delta_gripper"
    ensures SingleArmDeltaGripperConfig().transformType == "ee_delta_gripper"
    ensures MultiArmDeltaGripperConfig().transformType == "ee_delta_gripper"
  {
  }

  /** All three default no-op thresholds are positive, in every default
      configuration. */
  lemma DefaultThresholdsPositive(c: DataProcessorConfig)
    requires c in {BaseConfig(), SingleArmConfig(), MultiArmConfig(),
                   SingleArmDeltaGripperConfig(), MultiArmDeltaGripperConfig()}
    ensures var th := c.NonoopThresholds();
      th.position > 0.0 && th.rotation > 0.0 && th.gripper > 0.0
  {
  }
}
