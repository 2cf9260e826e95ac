# End-effector pose pipeline of lerobot-for-pika, in Dafny

This project models the end-effector pose pipeline of lerobot-for-pika, a fork of LeRobot. Pika hand-held trackers record demonstrations, and a Piper arm replays them. Every modelled vector is a 7-channel pose `[x, y, z, roll, pitch, yaw, gripper]`, or two of them side by side for two arms. The model covers:

- **Recording transforms** (`recording_transforms.dfy`). An absolute pose pair becomes the stored action in one of three ways:
  - absolute;
  - base-frame delta;
  - gripper-frame delta.

  For two arms the transform is applied to each 7-channel block.
- **Replay transforms** (`replay_transforms.dfy`). These turn an action back into an absolute target. The gripper-frame transform takes an optional `base_euler` alignment.
- **Unit standardisation** (`standardizations.dfy`). It converts between Piper integer units (0.001 mm, 0.001 degree, 1/60000 of the gripper range) and canonical units, truncating toward zero on the way out.
- **Dataset generation** (`data_config.dfy`, `data_processor.dfy`):
  - the configuration and its `action_len`;
  - the no-op motion filter;
  - the loop that decides which frames are written and what each is compared against.
- **Trajectory visualizer** (`visualization.dfy`):
  - the bookkeeping of every commanded pose;
  - the 4x4 running transform of the gripper-delta visualizer;
  - the multi-arm wrapper;
  - the factory;
  - the arrow sampling of `plot`.
- **Dual-arm robot** (`bi_piper.dfy`). It routes keys by their `left_` / `right_` prefixes, builds the per-arm configurations, and assembles observations.
- **Single-arm control pipeline** (`piper_control.dfy`): reference state → standardise → replay transform → de-standardise → write to the arm.
- **Action message** (`action_protocol.dfy`): the `Action` record and its dictionary form.

How the model represents the source:

- All arithmetic is over exact reals.
- scipy's Euler-angle conversion is a parameter `conv: EulerConvention`, a pair of functions. Properties that depend on it are stated relative to `conv`.
- Python exceptions are `Result` errors (`wrappers.dfy`):
  - unknown keys;
  - a missing connection;
  - a missing dictionary key;
  - the filter's `assert` and its `IndexError`.
- Vectors too short to slice are preconditions.
- Devices (the arm SDK and the cameras) are small classes that expose only the state the modelled code reads and writes.
- The frame loop of `_add_episode` (`Emit`, `KeptFrames` and the lemmas about them) is defined for any filter and any action function. The processor instantiates it with the no-op filter (`NonoopFilter`) and its configured transform (`RecordedAction`).

Where the code and the descriptions of the system disagree, the model follows the code:

- **The reference frame.** In the emission loop the reference state advances only on frames that are written. A skipped frame is never a reference, because the `continue` comes before `state = next_state`.
- **Factory keys.** The recording factory (`ee_delta_base`, `ee_delta_gripper`) and the replay factory (`ee_delta_base_to_absolute`, `ee_delta_gripper_to_absolute`) accept different keys. The model keeps them as written.
- **Trailing blocks.** The no-op filter raises `IndexError` when the vector length is not a multiple of 7, but only if no whole block before the trailing one moved.

## Model

| member | source | states |
|---|---|---|
| `RecordingTransforms.DeltaBaseCall` | src/data/misc/transforms.py:51-56 | the action has 7 channels: channels 0-5 are next minus current, channel 6 is the next gripper value |
| `RecordingTransforms.DeltaGripperCall` | src/data/misc/transforms.py:67-78 | the gripper-frame action has 7 channels and copies the next gripper value |
| `RecordingTransforms.DeltaGripperLocalCall` | src/data/misc/transforms.py:5 | the recording-side correction keeps 7 channels, the next gripper value and the same position channels as the transform as written |
| `RecordingTransforms.CompatibleAccepts` | src/data/misc/transforms.py:85-92 | state/next pairs of a width the transform can take (7 for one arm, 14 for two, anything for absolute) never index out of range |
| `RecordingTransforms.GetTransform` | src/data/misc/transforms.py:95-108 | accepts exactly `ee_absolute`, `ee_delta_base` and `ee_delta_gripper`; wraps for two arms exactly when `multi_arm`; anything else is a ValueError |
| `RecordingTransforms.AbsoluteIgnoresState` | src/data/misc/transforms.py:42-43 | the absolute transform returns the next pose whatever the state, also when wrapped for two arms |
| `RecordingTransforms.DeltaBaseOfSamePose` | src/data/misc/transforms.py:51-56 | the base-frame delta of a pose against itself is six zeros and the gripper value |
| `RecordingTransforms.DeltaGripperSameOrientation` | src/data/misc/transforms.py:71-74 | with an unchanged orientation, the rotation part is the Euler decomposition of the identity |
| `RecordingTransforms.DeltaGripperZeroRotationScenario` | src/data/misc/transforms.py:67-78 | a 10 cm forward move with zero rotation gives the action `[0.1, 0, 0, 0, 0, 0, g]` |
| `RecordingTransforms.BiSplits` | src/data/misc/transforms.py:85-92 | on 14 channels the output is the left block's transform followed by the right block's |
| `RecordingTransforms.BiBlocksIndependent` | src/data/misc/transforms.py:85-92 | changing one arm's inputs never changes the other arm's output block |
| `RecordingTransforms.MultiArmByDefault` | src/data/misc/transforms.py:95 | `multi_arm` defaults to true |
| `ReplayTransforms.DeltaBaseToAbsoluteCall` | src/deploy/robots/misc/transforms.py:32-39 | the target has 7 channels: channels 0-5 are current plus delta, channel 6 is the action's gripper value |
| `ReplayTransforms.DeltaGripperToAbsoluteCall` | src/deploy/robots/misc/transforms.py:47-67 | the target has 7 channels; its Euler angles decompose the target rotation; it takes the action's gripper value |
| `ReplayTransforms.GetTransform` | src/deploy/robots/misc/transforms.py:70-78 | accepts exactly the three replay keys and passes `base_euler` to the gripper-frame transform; anything else is a ValueError |
| `ReplayTransforms.AlignedGripperReplay` | src/deploy/robots/misc/transforms.py:51-65 | with alignment A, the position offset is `A·R_curᵀ·delta` and the rotation is `R_cur·Aᵀ·R_delta·A` |
| `ReplayTransforms.IdentityAlignmentIsNoAlignment` | src/deploy/robots/misc/transforms.py:53-61 | an alignment whose matrix is the identity gives the same result as none |
| `ReplayTransforms.DeltaBaseRoundTrip` | src/deploy/robots/misc/transforms.py:33-39 | replaying a recorded base-frame delta gives back the next pose exactly, and recording a replayed one gives back the action |
| `ReplayTransforms.AbsoluteRoundTrip` | src/deploy/robots/misc/transforms.py:27-28 | absolute recording followed by absolute replay is the identity |
| `ReplayTransforms.FactoryKeysDisagree` | src/deploy/robots/misc/transforms.py:70-78 | `ee_absolute` is the only key both factories accept |
| `ReplayTransforms.GripperReplayPosition` | src/deploy/robots/misc/transforms.py:65 | a replayed recorded gripper-frame delta lands at `cur + R_curᵀ·R_curᵀ·(next − cur)` |
| `ReplayTransforms.GripperReplayMissesRecordedPosition` | src/deploy/robots/misc/transforms.py:65 | at a quarter turn about z, a recorded +1 m move along x replays to 1 m behind the start |
| `ReplayTransforms.CorrectedGripperRoundTrip` | src/deploy/robots/misc/transforms.py:47-67 | the corrected replay recovers the next position and gripper exactly, and the next orientation up to Euler decomposition |
| `ReplayTransforms.GripperLocalRecordingRotationRoundTrip` | src/deploy/robots/misc/transforms.py:51-63 | with the delta rotation recorded in the gripper's local frame, the replay rotation as written (`R_cur·R_delta`) recovers the next pose's rotation, and the next angles exactly when `as_euler` reports them |
| `Standardizations.Trunc` | src/deploy/robots/misc/standardlizations.py:55-61 | `int()` truncates toward zero: an integer between 0 and x, less than one away |
| `Standardizations.Step` | src/deploy/robots/misc/standardlizations.py:41-47 | the canonical size of one Piper unit on each channel is positive |
| `Standardizations.PiperInput` | src/deploy/robots/misc/standardlizations.py:36-48 | Piper units to canonical: channel i is scaled by the unit size of channel i |
| `Standardizations.PiperOutput` | src/deploy/robots/misc/standardlizations.py:50-62 | canonical to Piper units: channel i is the truncation toward zero of `x / unit size` |
| `Standardizations.GetStandardization` | src/deploy/robots/misc/standardlizations.py:65-74 | only `dummy` and `piper` are registered; anything else is a ValueError |
| `Standardizations.DummyRoundTrip` | src/deploy/robots/misc/standardlizations.py:21-32 | the dummy standardisation is the identity in both directions |
| `Standardizations.OutputInvertsInput` | src/deploy/robots/misc/standardlizations.py:36-62 | a reading in whole Piper units survives the trip to canonical units and back exactly |
| `Standardizations.InputOutputWithinStep` | src/deploy/robots/misc/standardlizations.py:36-62 | a canonical pose sent out and read back is within one unit per channel, never larger in magnitude |
| `Standardizations.EndEffectorKeyUnregistered` | src/deploy/robots/misc/standardlizations.py:69-74 | the key `piper_end_effector` is not registered |
| `DataConfig.SumOfLengths` | src/data/configuration_data_processor.py:74 | `action_len` is the number of flattened action key names |
| `DataConfig.SumOfLengthsAppend` | src/data/configuration_data_processor.py:74 | the channel count of two key-list sequences side by side is the sum of their counts |
| `DataConfig.DefaultActionLens` | src/data/configuration_data_processor.py:55-137 | `action_len` is 0 for the base default, 7 for one arm and 14 for two |
| `DataConfig.MultiArmStreamsPaired` | src/data/configuration_data_processor.py:126-137 | the four multi-arm action directories pair with pose, gripper, pose, gripper key lists |
| `DataConfig.DefaultTransformTypes` | src/data/configuration_data_processor.py:60-156 | the base default is `ee_absolute`; every arm default is `ee_delta_gripper` |
| `DataConfig.DefaultThresholdsPositive` | src/data/configuration_data_processor.py:57-59 | all three default no-op thresholds are positive |
| `DataProcessor.NormComparison` | src/data/dummy_data_processor.py:218-224 | `norm > t` holds exactly when the squared-norm comparison used by the model holds |
| `DataProcessor.NonoopFromCharacterised` | src/data/dummy_data_processor.py:217-228 | from block b on, the loop returns true iff a later whole block moves; false iff none does and the length is a multiple of 7; otherwise IndexError |
| `DataProcessor.CheckNonoopCharacterised` | src/data/dummy_data_processor.py:214-228 | unequal lengths fail the assert; otherwise true iff some whole arm block exceeds a threshold, false or IndexError otherwise, depending on the trailing block |
| `DataProcessor.IdenticalIsNotMotion` | src/data/dummy_data_processor.py:214-228 | a pose compared with itself is not motion for non-negative thresholds |
| `DataProcessor.CheckNonoopSymmetric` | src/data/dummy_data_processor.py:218-220 | the filter gives the same answer with its two arguments swapped |
| `DataProcessor.GripperMotionAloneKeeps` | src/data/dummy_data_processor.py:220-226 | one block's gripper moving past its threshold makes the pair motion, whatever else |
| `DataProcessor.PositionMotionAloneKeeps` | src/data/dummy_data_processor.py:218-226 | one block's position moving past its threshold makes the pair motion, whatever else |
| `DataProcessor.RotationMotionAloneKeeps` | src/data/dummy_data_processor.py:218-226 | one block's Euler angles moving past the rotation threshold make the pair motion, whatever else |
| `DataProcessor.LeftArmMoveScenario` | src/data/dummy_data_processor.py:217-226 | two arms, left moved 5 cm with a 1 cm threshold: kept |
| `DataProcessor.ProcessorTransform` | src/data/dummy_data_processor.py:77 | the transform is the configured one, wrapped for two arms exactly when `action_len > 7` |
| `DataProcessor.DefaultProcessorTransforms` | src/data/dummy_data_processor.py:77 | the defaults give absolute (base), single-arm gripper-delta, and two-arm gripper-delta transforms |
| `DataProcessor.Dataset.AddFrame` | src/data/dummy_data_processor.py:166-169 | a frame is appended to the episode buffer |
| `DataProcessor.Dataset.SaveEpisode` | src/data/dummy_data_processor.py:175-178 | the buffer becomes a saved episode and is emptied |
| `DataProcessor.KeptFrames` | src/data/dummy_data_processor.py:147-173 | at most one frame per raw frame, in increasing order; each is kept and carries the action against its reference |
| `DataProcessor.KeptFramesComplete` | src/data/dummy_data_processor.py:147-173 | every kept frame appears among the written frames |
| `DataProcessor.RefIndexIsLastKept` | src/data/dummy_data_processor.py:149-173 | a frame's reference is frame 0 or a kept frame, and nothing between it and the frame was kept |
| `DataProcessor.EmitMatchesReference` | src/data/dummy_data_processor.py:144-173 | a loop that runs to the end writes exactly the kept frames with their reference actions |
| `DataProcessor.WholeBlocksNeverFail` | src/data/dummy_data_processor.py:147-173 | when all rows have one length and that length is a multiple of 7, the loop never stops on an error |
| `DataProcessor.EpisodeFrameBound` | src/data/dummy_data_processor.py:144-173 | for any rows and any filter, including one that raises, the loop from frame i writes at most one frame per remaining raw frame, so an episode of n raw frames writes at most n − 1 |
| `DataProcessor.Processor.constructor` | src/data/dummy_data_processor.py:77 | the processor's transform is the one chosen from its configuration |
| `DataProcessor.Processor.CheckNonoopActions` | src/data/dummy_data_processor.py:214-228 | the block loop with early return computes the filter |
| `DataProcessor.Processor.AddEpisode` | src/data/dummy_data_processor.py:131-180 | check-only mode changes nothing; otherwise the written frames are the loop's emission, saved as one episode, or left unsaved on a filter error |
| `DataProcessor.Processor.AddFrames` | src/data/dummy_data_processor.py:144-173 | the frame loop appends exactly the loop's emission to the episode buffer, returns its error if any, and saves nothing |
| `Visualization.InitialWorld` | src/deploy/robots/misc/visualization.py:149-152 | the initial world transform sits at the initial position, with the rotation `from_euler` of the initial Euler angles |
| `Visualization.InitialTrack` | src/deploy/robots/misc/visualization.py:12-22 | a fresh visualizer has four empty lists and timestep 0 |
| `Visualization.Added` | src/deploy/robots/misc/visualization.py:136-177 | `add` keeps earlier entries, appends the timestep, position, Euler angles and gripper (absolute: the state's slices; gripper-delta: the composed world transform's), and counts one step |
| `Visualization.IntegratedPosition` | src/deploy/robots/misc/visualization.py:159-169 | composing with `T_rel` moves the world position by the world-rotated delta and right-multiplies the rotation |
| `Visualization.IntegrationRecoversRecordedPosition` | src/deploy/robots/misc/visualization.py:154-168 | integrating a recorded gripper-frame delta from the recorded state lands on the next recorded position |
| `Visualization.ZeroDeltaHoldsInitialPose` | src/deploy/robots/misc/visualization.py:149-168 | integrating a delta that neither moves nor turns from the initial world transform keeps the initial position and rotation |
| `Visualization.TrajectoryVisualizer.constructor` | src/deploy/robots/misc/visualization.py:9-22 | the initial slices are stored and the track starts empty |
| `Visualization.TrajectoryVisualizer.Add` | src/deploy/robots/misc/visualization.py:136-177 | the new track is `Added` of the old one |
| `Visualization.MultiTrajectoriesVisualizer.constructor` | src/deploy/robots/misc/visualization.py:76-82 | names and visualizers are stored |
| `Visualization.MultiTrajectoriesVisualizer.Add` | src/deploy/robots/misc/visualization.py:85-87 | visualizer k receives state k for as many as names, states and visualizers all have; the others are unchanged |
| `Visualization.ParseControlMode` | src/deploy/robots/misc/visualization.py:181-186 | `ee_absolute` and `ee_delta_gripper` select the two visualizers; anything else is a ValueError |
| `Visualization.GetVisualizer` | src/deploy/robots/misc/visualization.py:180-197 | one fresh visualizer, or for two arms two distinct fresh copies named `arm_left` and `arm_right` |
| `Visualization.ArrowStep` | src/deploy/robots/misc/visualization.py:53-54 | the arrow spacing is at least 1 |
| `Visualization.ArrowIndices` | src/deploy/robots/misc/visualization.py:53-58 | arrows are drawn at every multiple of the spacing below the point count and nowhere else |
| `BiPiper.StripPrefix` | src/robots/bi_piper/bi_piper_end_effector.py:114-115 | an arm receives key k exactly when the action has `prefix + k`, with that value |
| `BiPiper.AddPrefix` | src/robots/bi_piper/bi_piper_end_effector.py:120-121 | every result entry comes back under the prefix, and nothing else does |
| `BiPiper.RoutingExact` | src/robots/bi_piper/bi_piper_end_effector.py:114-115 | what an arm receives, re-prefixed, is exactly the action's entries with that prefix |
| `BiPiper.UnprefixedReachesNoArm` | src/robots/bi_piper/bi_piper_end_effector.py:114-115 | a key with neither prefix reaches neither arm |
| `BiPiper.MergeDisjoint` | src/robots/bi_piper/bi_piper_end_effector.py:120-122 | the two re-prefixed results share no key |
| `BiPiper.StripAddRoundTrip` | src/robots/bi_piper/bi_piper_end_effector.py:114-121 | prefixing then routing by the same prefix is the identity |
| `BiPiper.MergeSplits` | src/robots/bi_piper/bi_piper_end_effector.py:114-122 | a merged dual-arm dictionary routes back to its two halves |
| `BiPiper.CameraEntries` | src/robots/bi_piper/bi_piper_end_effector.py:136-142 | a dictionary output becomes exactly one `camera.key` entry per output key, with its value; any other output is stored under the camera's name alone |
| `BiPiper.ObservationKeys` | src/robots/bi_piper/bi_piper_end_effector.py:128-142 | every observation key is a prefixed arm key or a camera entry |
| `BiPiper.LeftEntryObserved` | src/robots/bi_piper/bi_piper_end_effector.py:130-131 | a left-arm entry no camera overwrites is observed under `left_` with its value |
| `BiPiper.RightEntryObserved` | src/robots/bi_piper/bi_piper_end_effector.py:133-134 | a right-arm entry no camera overwrites is observed under `right_` with its value |
| `BiPiper.CameraEntryObserved` | src/robots/bi_piper/bi_piper_end_effector.py:136-142 | a camera entry is observed with the value of the last camera that writes its key |
| `BiPiper.ArmId` | src/robots/bi_piper/bi_piper_end_effector.py:50 | an arm id is `<id><suffix>`, or none when the id is absent or empty |
| `BiPiper.ArmConfigs` | src/robots/bi_piper/bi_piper_end_effector.py:49-60 | both arms share `init_ee_state`, own no cameras and use their own ports; their ids are distinct `<id>_left` / `<id>_right`, or both absent |
| `BiPiper.BiPiperEndEffector.constructor` | src/robots/bi_piper/bi_piper_end_effector.py:46-64 | the robot holds two distinct arms built from the per-arm configurations, and the cameras |
| `BiPiper.BiPiperEndEffector.Connect` | src/robots/bi_piper/bi_piper_end_effector.py:92-97 | afterwards both arms and every camera are connected (`is_connected`) |
| `BiPiper.BiPiperEndEffector.SendAction` | src/robots/bi_piper/bi_piper_end_effector.py:110-122 | DeviceNotConnected, with nothing changed, when not connected; otherwise each arm receives its stripped half and the merged re-prefixed results are returned; the arms stay connected and keep their observations |
| `BiPiper.BiPiperEndEffector.GetObservation` | src/robots/bi_piper/bi_piper_end_effector.py:124-144 | DeviceNotConnected when not connected; otherwise the prefixed arm observations with the camera entries written over them in order |
| `PiperControl.Lookup` | src/deploy/robots/piper/piper_end_effector.py:22-23 | construction succeeds iff both registry lookups do, and the standardisation error comes first |
| `PiperControl.SetupAsWritten` | src/deploy/robots/piper/piper_end_effector.py:14-23 | as written, construction fails with ValueError for every configuration |
| `PiperControl.SetupCorrected` | src/deploy/robots/piper/piper_end_effector.py:22-23 | with the `piper` key, construction succeeds exactly for the three replay control modes |
| `PiperControl.Command` | src/deploy/robots/piper/piper_end_effector.py:47-50 | the written state has 7 channels, all whole Piper units under the Piper standardisation |
| `PiperControl.AbsoluteIgnoresReference` | src/deploy/robots/piper/piper_end_effector.py:46-50 | in absolute mode the reference state plays no part |
| `PiperControl.CommandTracksTarget` | src/deploy/robots/piper/piper_end_effector.py:47-55 | the state read back is the transform's target: exactly with the dummy standardisation, within one unit toward zero with Piper's |
| `PiperControl.ZeroDeltaHoldsPose` | src/deploy/robots/piper/piper_end_effector.py:46-52 | a zero base-frame delta from whole Piper units writes the pose back unchanged |
| `PiperControl.PiperEndEffector.Reference` | src/deploy/robots/piper/piper_end_effector.py:46 | the reference is the live state when `delta_with_previous` is set, and otherwise the base state |
| `PiperControl.PiperEndEffector.constructor` | src/deploy/robots/piper/piper_end_effector.py:16-24 | the base state starts unset; a fresh absolute visualizer starts from `init_ee_state` exactly when `visualize` is set |
| `PiperControl.PiperEndEffector.Connect` | src/deploy/robots/piper/piper_end_effector.py:38-40 | connecting captures the arm's current state as the base state |
| `PiperControl.PiperEndEffector.SendAction` | src/deploy/robots/piper/piper_end_effector.py:42-57 | DeviceNotConnected when not connected; otherwise the arm's new state is the command from the reference, and the visualizer records it in canonical units; nothing is returned |
| `ActionProtocol.ToDict` | src/deploy/protocols/action.py:9-13 | the dictionary has exactly `robot_name` and `actions`, holding the two fields |
| `ActionProtocol.FromDict` | src/deploy/protocols/action.py:15-20 | succeeds iff both keys are present, taking their values; otherwise KeyError for the first missing key |
| `ActionProtocol.FromDictToDict` | src/deploy/protocols/action.py:9-20 | an action survives the trip through its dictionary |
| `ActionProtocol.ToDictFromDict` | src/deploy/protocols/action.py:9-20 | a dictionary with both keys comes back restricted to them, and unchanged when it has only those two |

## Left out

- scipy's rotations. Euler↔matrix conversion and the branch `as_euler` chooses are the parameter `conv`. No property of scipy is assumed beyond what each lemma states in its `requires`.
- Floating point. The 1e-6 and π scalings, `math.radians`, and rounding before truncation are exact real arithmetic here.
- Drawing: the matplotlib calls in `plot` and `plot_trajectories_3d`. Only the arrow sampling index rule of `plot` is modelled.
- Broken code that cannot run as written:
  - `BaseTrajectoryVisualizer.reset` calls `__init__` with keywords it does not take;
  - `plot_trajectories_3d` reads a nonexistent `converters` attribute;
  - `MultiTrajectoriesVisualizer.reset` relies on the broken `reset`;
  - `_motors_ft` of the dual-arm robot puts a dictionary inside a set literal, which Python rejects; `observation_features` fails through it.
- `_cameras_ft` of the dual-arm robot: it declares camera feature names and shapes, not pose data, so it is not modelled. Its names for dictionary outputs are `<camera>_<key>`, while `get_observation` writes those outputs under `<camera>.<key>`, so the two do not match.
- Dataset I/O: the overwrite prompt, `LeRobotDataset` creation, images and depth images, the random data of `_load_episode`, and the version switch between `add_frame` / `save_episode` signatures. The dataset is an append-only buffer of frames plus a list of saved episodes.
- DataProcessor.Processor.AddEpisode: takes the per-frame concatenated action rows as given. The model does not build them from the action directories, and it counts frames from the rows rather than from the first RGB stream.
- Devices:
  - the Piper SDK (`ConnectPort`, `EnablePiper` and its retry loop, `DisconnectPort`);
  - the Pika camera threads;
  - calibration, configuration and `disconnect`.

  The arm is a connection flag plus an end-effector state. A camera is a connection flag plus its next reading.
- The single-arm robot of the dual-arm robot lives in src/robots/piper, which is not part of this model. Each arm is a `BiPiper.Arm` that records what it receives and answers with a fixed function.
- BiPiper.ArmConfigs: `PiperEndEffectorConfig` itself is not part of this model. The arm configuration holds only the four fields the dual-arm robot sets, so the contract cannot state that `control_mode`, `delta_with_previous`, `base_euler` and `visualize` of the dual-arm configuration are not passed to the arms (the arms keep their own defaults).
- BiPiper.BiPiperEndEffector.GetObservation: writes a dictionary camera output as one update rather than key by key. The result is the same.
- PiperControl.PiperEndEffector.SendAction: takes the action as a 7-vector, the shape `action_features` declares. The source passes its dictionary to a transform that slices it by position.
- PiperControl.PiperEndEffector.constructor: takes the setup `SetupCorrected` resolves, because the lookup as written always fails (see Findings). The visualizer is built from the raw `init_ee_state` in Piper units, as in the source, while `add` receives canonical units.
- RecordingTransforms.DeltaGripperCall: the contract states only the shape and the gripper channel. The position and rotation channels go through `conv` and are stated in the lemmas that use them.
- ReplayTransforms.DeltaGripperToAbsoluteCall: the contract states only the shape, the gripper channel and the rotation argument. The position is stated by `ReplayTransforms.GripperReplayPosition` and `ReplayTransforms.AlignedGripperReplay`.
- Shape errors are preconditions: a vector too short for its slices, rows of unequal width, or a 7-channel block missing where a transform needs one.
- Policies, training, the camera factory, and the scripts under `scripts/` and `src/scripts/` are outside the pose pipeline.

## Findings

| source | as written | input that shows it | evidently intended | confidence | as-written member | corrected member |
|---|---|---|---|---|---|---|
| src/deploy/robots/misc/transforms.py:58-65 | gripper-frame replay adds `R_curᵀ·delta_pos` and builds the rotation `R_cur·R_delta` | a state whose orientation is a quarter turn about z, with the next pose 1 m further along x: the recorded action replays to 1 m behind the start | replay inverts the recording. Position: add `R_cur·delta_pos`. Rotation: the two sides disagree, and either can be fixed. Replay could build `R_delta·R_cur`, or recording could store `R_curᵀ·R_next`. The recording's own module docstring (src/data/misc/transforms.py:5) describes a gripper-local delta. Replay's `R_cur·R_delta` and the visualizer's `T_world_current @ T_rel` (src/deploy/robots/misc/visualization.py:166) both apply the delta on the right. Both of these favour the recording-side fix | medium (not executed) | `ReplayTransforms.GripperReplayMissesRecordedPosition` | `ReplayTransforms.CorrectedGripperRoundTrip`, `ReplayTransforms.GripperLocalRecordingRotationRoundTrip` |
| src/deploy/robots/piper/piper_end_effector.py:22 | the standardisation is looked up under the robot's name `piper_end_effector` | any configuration: the registry knows only `dummy` and `piper`, so construction raises ValueError | look up `piper`, the standardisation for this arm's units | high (not executed) | `PiperControl.SetupAsWritten` | `PiperControl.SetupCorrected` |

The replay factory in `ReplayTransforms.GetTransform` keeps the gripper-frame transform as written, because that is what the deployed code runs. `ReplayTransforms.DeltaGripperToAbsoluteCorrected` corrects the replay side: `ReplayTransforms.CorrectedGripperRoundTrip` proves that it inverts the recording as written. `RecordingTransforms.DeltaGripperLocalCall` corrects the rotation on the recording side instead. `ReplayTransforms.GripperLocalRecordingRotationRoundTrip` proves that the replay rotation as written then recovers the next pose's rotation. The position offset still needs the replay-side fix (`R_cur·delta_pos`). The single-arm robot class is built from `PiperControl.SetupCorrected`.
