/** The dual-arm end-effector robot of
    src/robots/bi_piper/bi_piper_end_effector.py: two single-arm robots and
    a set of cameras behind one interface that routes dictionary keys by
    their `left_` / `right_` prefixes. The arms and the cameras are device
    objects this model only sees through the state they expose. */
module BiPiper {
  import opened Wrappers

  /** A `dict[str, Any]` of actions or observations. */
  type Dict = map<string, Value>

  const Left: string := "left_"
  const Right: string := "right_"

  /** Python's `key.startswith(p)`. */
  predicate HasPrefix(p: string, key: string) {
    |p| <= |key| && key[..|p|] == p
  }

  lemma PrefixOfConcat(p: string, k: string)
    ensures HasPrefix(p, p + k) && (p + k)[|p|..] == k
  {
    assert (p + k)[..|p|] == p;
  }

  lemma ConcatOfPrefix(p: string, key: string)
    requires HasPrefix(p, key)
    ensures p + key[|p|..] == key
  {
    assert key == key[..|p|] + key[|p|..];
  }

  lemma PrefixInjective(p: string)
    ensures forall k1, k2 :: HasPrefix(p, k1) && HasPrefix(p, k2) && k1[|p|..] == k2[|p|..] ==> k1 == k2
  {
    forall k1, k2 | HasPrefix(p, k1) && HasPrefix(p, k2) && k1[|p|..] == k2[|p|..] ensures k1 == k2 {
      ConcatOfPrefix(p, k1);
      ConcatOfPrefix(p, k2);
    }
  }

  lemma ConcatInjective(p: string)
    ensures forall k1, k2 :: p + k1 == p + k2 ==> k1 == k2
  {
    forall k1, k2 | p + k1 == p + k2 ensures k1 == k2 {
      PrefixOfConcat(p, k1);
      PrefixOfConcat(p, k2);
    }
  }

  /** `{k.removeprefix(p): v for k, v in d.items() if k.startswith(p)}`:
      the entries whose key starts with `p`, with the prefix removed. */
  function StripPrefix(d: Dict, p: string): (r: Dict)
    ensures forall k :: k in r <==> p + k in d
    ensures forall k :: k in r ==> r[k] == d[p + k]
  {
    PrefixInjective(p);
    var r := map key | key in d && HasPrefix(p, key) :: key[|p|..] := d[key];
    forall k ensures k in r <==> p + k in d {
      PrefixOfConcat(p, k);
      if k in r {
        var key :| key in d && HasPrefix(p, key) && key[|p|..] == k;
        ConcatOfPrefix(p, key);
      }
    }
    forall k | k in r ensures r[k] == d[p + k] {
      PrefixOfConcat(p, k);
      var key := p + k;
      assert key in d && HasPrefix(p, key) && key[|p|..] == k;
    }
    r
  }

  /** `{f"{p}{k}": v for k, v in d.items()}`: every entry with `p` put in
      front of its key. */
  function AddPrefix(d: Dict, p: string): (r: Dict)
    ensures forall k :: k in d ==> p + k in r && r[p + k] == d[k]
    ensures forall key :: key in r ==> HasPrefix(p, key) && key[|p|..] in d
  {
    ConcatInjective(p);
    var r := map k | k in d :: p + k := d[k];
    forall key | key in r ensures HasPrefix(p, key) && key[|p|..] in d {
      var k :| k in d && p + k == key;
      PrefixOfConcat(p, k);
    }
    r
  }

  /** The part of `d` whose keys start with `p`. */
  function Prefixed(d: Dict, p: string): Dict {
    map key | key in d && HasPrefix(p, key) :: d[key]
  }

  lemma LeftRightExclusive(key: string)
    ensures HasPrefix(Left, key) ==> !HasPrefix(Right, key)
  {
    if HasPrefix(Left, key) {
      assert key[0] == key[..|Left|][0] == 'l';
    }
  }

  /** Entries whose keys lack the prefix `p` do not affect routing by `p`. */
  lemma StripIgnoresOther(a: Dict, b: Dict, p: string)
    requires forall key :: key in b ==> !HasPrefix(p, key)
    ensures StripPrefix(a + b, p) == StripPrefix(a, p)
    ensures StripPrefix(b + a, p) == StripPrefix(a, p)
  {
    StripIgnoresRight(a, b, p);
    StripIgnoresLeft(a, b, p);
  }

  lemma StripIgnoresRight(a: Dict, b: Dict, p: string)
    requires forall key :: key in b ==> !HasPrefix(p, key)
    ensures StripPrefix(a + b, p) == StripPrefix(a, p)
  {
    var x := StripPrefix(a + b, p);
    var y := StripPrefix(a, p);
    forall k ensures k in x <==> k in y {
      PrefixOfConcat(p, k);
    }
    forall k | k in x ensures x[k] == y[k] {
      PrefixOfConcat(p, k);
    }
  }

  lemma StripIgnoresLeft(a: Dict, b: Dict, p: string)
    requires forall key :: key in b ==> !HasPrefix(p, key)
    ensures StripPrefix(b + a, p) == StripPrefix(a, p)
  {
    var x := StripPrefix(b + a, p);
    var y := StripPrefix(a, p);
    forall k ensures k in x <==> k in y {
      PrefixOfConcat(p, k);
    }
    forall k | k in x ensures x[k] == y[k] {
      PrefixOfConcat(p, k);
    }
  }

  // ---------------------------------------------------------------------------
  // Routing of `send_action`

  /** What the left arm receives, put back under its prefix, is exactly the
      `left_` part of the action, and the same for the right arm: no entry
      is lost, altered or invented. */
  lemma {:induction false} RoutingExact(action: Dict, p: string)
    ensures AddPrefix(StripPrefix(action, p), p) == Prefixed(action, p)
  {
    var routed := AddPrefix(StripPrefix(action, p), p);
    var expected := Prefixed(action, p);
    forall key ensures key in routed <==> key in expected {
      if key in expected {
        ConcatOfPrefix(p, key);
      }
    }
    forall key | key in routed ensures routed[key] == expected[key] {
      ConcatOfPrefix(p, key);
    }
  }

  /** A key with neither prefix reaches neither arm. */
  lemma UnprefixedReachesNoArm(action: Dict, key: string)
    requires !HasPrefix(Left, key) && !HasPrefix(Right, key)
    ensures forall k :: k in StripPrefix(action, Left) ==> Left + k != key
    ensures forall k :: k in StripPrefix(action, Right) ==> Right + k != key
  {
    forall k ensures Left + k != key && Right + k != key {
      PrefixOfConcat(Left, k);
      PrefixOfConcat(Right, k);
    }
  }

  /** The re-prefixed results of the two arms never share a key, so the
      final merge loses nothing from either side. */
  lemma MergeDisjoint(l: Dict, r: Dict)
    ensures AddPrefix(l, Left).Keys !! AddPrefix(r, Right).Keys
  {
    forall key | key in AddPrefix(l, Left) ensures key !in AddPrefix(r, Right) {
      LeftRightExclusive(key);
    }
  }

  /** Prefixing a dictionary and routing it back by the same prefix gives
      the dictionary back. */
  lemma {:induction false} StripAddRoundTrip(d: Dict, p: string)
    ensures StripPrefix(AddPrefix(d, p), p) == d
  {
    var back := StripPrefix(AddPrefix(d, p), p);
    forall k ensures k in back <==> k in d {
      if p + k in AddPrefix(d, p) {
        PrefixOfConcat(p, k);
      }
    }
  }

  /** A merged dual-arm dictionary splits back into its two halves: the
      returned action of `send_action` is routable exactly like its input. */
  lemma {:induction false} MergeSplits(l: Dict, r: Dict)
    ensures StripPrefix(AddPrefix(l, Left) + AddPrefix(r, Right), Left) == l
    ensures StripPrefix(AddPrefix(l, Left) + AddPrefix(r, Right), Right) == r
  {
    var pl := AddPrefix(l, Left);
    var pr := AddPrefix(r, Right);
    forall key | key in pr ensures !HasPrefix(Left, key) {
      LeftRightExclusive(key);
    }
    forall key | key in pl ensures !HasPrefix(Right, key) {
      LeftRightExclusive(key);
    }
    StripIgnoresOther(pl, pr, Left);
    StripIgnoresOther(pr, pl, Right);
    StripAddRoundTrip(l, Left);
    StripAddRoundTrip(r, Right);
  }

  // ---------------------------------------------------------------------------
  // Observation keys of `get_observation`

  /** What a camera's `async_read` returns: a dictionary of named outputs,
      or a single output. */
  datatype CameraOutput = Fields(fields: Dict) | Single(output: Value)

  /** The observation entries of one camera: `<camera>.<key>` per field of a
      dictionary output, the camera's own name for any other output. */
  function CameraEntries(name: string, out: CameraOutput): (r: Dict)
    ensures out.Single? ==> r.Keys == {name} && r[name] == out.output
    ensures out.Fields? ==> forall k :: k in out.fields ==>
      name + "." + k in r && r[name + "." + k] == out.fields[k]
    ensures out.Fields? ==> forall key :: key in r ==> HasPrefix(name + ".", key)
    ensures out.Fields? ==> r.Keys == set k | k in out.fields :: name + "." + k
  {
    match out
    case Single(v) => map[name := v]
    case Fields(fields) =>
      var p := name + ".";
      var r := AddPrefix(fields, p);
      assert forall k :: name + "." + k == p + k;
      forall key | key in r ensures exists k :: k in fields && key == name + "." + k {
        ConcatOfPrefix(p, key);
        assert key == name + "." + key[|p|..];
      }
      r
  }

  /** The observation dictionary after the camera readings `cams` have been
      written, in order, over `base`. */
  function Observe(base: Dict, cams: seq<(string, CameraOutput)>): Dict
  {
    if |cams| == 0 then base
    else
      var last := cams[|cams| - 1];
      Observe(base, cams[..|cams| - 1]) + CameraEntries(last.0, last.1)
  }

  lemma ObserveNext(base: Dict, cams: seq<(string, CameraOutput)>, k: nat)
    requires k < |cams|
    ensures Observe(base, cams[..k + 1]) == Observe(base, cams[..k]) + CameraEntries(cams[k].0, cams[k].1)
  {
    assert cams[..k + 1][..k] == cams[..k];
  }

  /** The observation assembled from the two arms' observations and the
      camera readings. */
  function ObservationOf(left: Dict, right: Dict, cams: seq<(string, CameraOutput)>): Dict {
    Observe(AddPrefix(left, Left) + AddPrefix(right, Right), cams)
  }

  /** `key` is an arm's key under that arm's prefix, or a camera's key. */
  predicate Sourced(left: Dict, right: Dict, cams: seq<(string, CameraOutput)>, key: string) {
    (HasPrefix(Left, key) && key[|Left|..] in left) ||
    (HasPrefix(Right, key) && key[|Right|..] in right) ||
    (exists i :: 0 <= i < |cams| && key in CameraEntries(cams[i].0, cams[i].1))
  }

  /** Every observation key comes from an arm, under that arm's prefix, or
      from a camera. */
  lemma {:induction false} ObservationKeys(left: Dict, right: Dict, cams: seq<(string, CameraOutput)>)
    ensures forall key :: key in ObservationOf(left, right, cams) ==> Sourced(left, right, cams, key)
    decreases |cams|
  {
    if |cams| > 0 {
      ObservationKeys(left, right, cams[..|cams| - 1]);
      forall key | key in ObservationOf(left, right, cams)
        ensures Sourced(left, right, cams, key)
      {
        ObservationKeyStep(left, right, cams, key);
      }
    }
  }

  lemma ObservationKeyStep(left: Dict, right: Dict, cams: seq<(string, CameraOutput)>, key: string)
    requires |cams| > 0
    requires key in ObservationOf(left, right, cams[..|cams| - 1]) ==> Sourced(left, right, cams[..|cams| - 1], key)
    ensures key in ObservationOf(left, right, cams) ==> Sourced(left, right, cams, key)
  {
    var init := cams[..|cams| - 1];
    if key in ObservationOf(left, right, cams) {
      if key !in ObservationOf(left, right, init) {
        assert key in CameraEntries(cams[|cams| - 1].0, cams[|cams| - 1].1);
      } else if exists i :: 0 <= i < |init| && key in CameraEntries(init[i].0, init[i].1) {
        var i :| 0 <= i < |init| && key in CameraEntries(init[i].0, init[i].1);
        assert init[i] == cams[i];
      }
    }
  }

  /** A left-arm entry no camera overwrites is observed under `left_` with
      the arm's value. */
  lemma {:induction false} LeftEntryObserved(left: Dict, right: Dict, cams: seq<(string, CameraOutput)>, k: string)
    requires k in left
    requires forall i :: 0 <= i < |cams| ==> Left + k !in CameraEntries(cams[i].0, cams[i].1)
    ensures Left + k in ObservationOf(left, right, cams)
    ensures ObservationOf(left, right, cams)[Left + k] == left[k]
    decreases |cams|
  {
    if |cams| == 0 {
      MergeDisjoint(left, right);
    } else {
      var init := cams[..|cams| - 1];
      assert forall i :: 0 <= i < |init| ==> init[i] == cams[i];
      LeftEntryObserved(left, right, init, k);
    }
  }

  /** A right-arm entry no camera overwrites is observed under `right_`
      with the arm's value. */
  lemma {:induction false} RightEntryObserved(left: Dict, right: Dict, cams: seq<(string, CameraOutput)>, k: string)
    requires k in right
    requires forall i :: 0 <= i < |cams| ==> Right + k !in CameraEntries(cams[i].0, cams[i].1)
    ensures Right + k in ObservationOf(left, right, cams)
    ensures ObservationOf(left, right, cams)[Right + k] == right[k]
    decreases |cams|
  {
    if |cams| > 0 {
      var init := cams[..|cams| - 1];
      assert forall i :: 0 <= i < |init| ==> init[i] == cams[i];
      RightEntryObserved(left, right, init, k);
    }
  }

  /** A camera entry is observed with the value of the last camera that
      writes its key: cameras override arm entries and earlier cameras. */
  lemma {:induction false} CameraEntryObserved(left: Dict, right: Dict, cams: seq<(string, CameraOutput)>, i: nat, key: string)
    requires i < |cams| && key in CameraEntries(cams[i].0, cams[i].1)
    requires forall j :: i < j < |cams| ==> key !in CameraEntries(cams[j].0, cams[j].1)
    ensures key in ObservationOf(left, right, cams)
    ensures ObservationOf(left, right, cams)[key] == CameraEntries(cams[i].0, cams[i].1)[key]
    decreases |cams|
  {
    if i < |cams| - 1 {
      var init := cams[..|cams| - 1];
      assert forall j :: 0 <= j < |init| ==> init[j] == cams[j];
      CameraEntryObserved(left, right, init, i, key);
    }
  }

  // ---------------------------------------------------------------------------
  // Configuration of the two arms (`__init__`)

  /** The fields of a single-arm end-effector configuration that the
      dual-arm robot sets; the rest keep that class's defaults. */
  datatype ArmConfig = ArmConfig(id: Option<string>, port: string, cameras: seq<string>, initEeState: seq<real>)

  /** The fields of `BiPiperEndEffectorConfig` that `__init__` reads. */
  datatype BiPiperEndEffectorConfig = BiPiperEndEffectorConfig(
    id: Option<string>,
    portLeft: string,
    portRight: string,
    cameras: seq<string>,
    initEeState: seq<real>)

  /** `f"{id}{suffix}" if id else None`: an absent or empty id gives none. */
  function ArmId(id: Option<string>, suffix: string): (r: Option<string>)
    ensures r.Some? <==> id.Some? && id.value != ""
    ensures r.Some? ==> r.value == id.value + suffix
  {
    if id.Some? && id.value != "" then Some(id.value + suffix) else None
  }

  function LeftArmConfig(c: BiPiperEndEffectorConfig): ArmConfig {
    ArmConfig(ArmId(c.id, "_left"), c.portLeft, [], c.initEeState)
  }

  function RightArmConfig(c: BiPiperEndEffectorConfig): ArmConfig {
    ArmConfig(ArmId(c.id, "_right"), c.portRight, [], c.initEeState)
  }

  /** Both arms start from the robot's initial end-effector state, own no
      cameras and use their own port; they get distinct ids `<id>_left` and
      `<id>_right`, or no id at all when the robot has none. */
  lemma ArmConfigs(c: BiPiperEndEffectorConfig)
    ensures LeftArmConfig(c).initEeState == RightArmConfig(c).initEeState == c.initEeState
    ensures LeftArmConfig(c).cameras == RightArmConfig(c).cameras == []
    ensures LeftArmConfig(c).port == c.portLeft && RightArmConfig(c).port == c.portRight
    ensures LeftArmConfig(c).id.None? <==> RightArmConfig(c).id.None?
    ensures LeftArmConfig(c).id.None? <==> c.id.None? || c.id.value == ""
    ensures LeftArmConfig(c).id.Some? ==>
      LeftArmConfig(c).id.value == c.id.value + "_left" &&
      RightArmConfig(c).id.value == c.id.value + "_right" &&
      LeftArmConfig(c).id != RightArmConfig(c).id
  {
    if c.id.Some? && c.id.value != "" {
      var l := c.id.value + "_left";
      var r := c.id.value + "_right";
      assert l[|c.id.value| + 1] == 'l' && r[|c.id.value| + 1] == 'r';
    }
  }

  // ---------------------------------------------------------------------------
  // Devices

  /** One arm of the robot: a single-arm end-effector robot, whose
      implementation (src/robots/piper) is not part of this model. It
      records the actions it receives; `respond` is what its `send_action`
      returns for an action and `observation` what its `get_observation`
      currently returns. */
  class Arm {
    const config: ArmConfig
    const respond: Dict -> Dict
    var connected: bool
    var received: seq<Dict>
    var observation: Dict

    constructor(config: ArmConfig, respond: Dict -> Dict, observation: Dict)
      ensures this.config == config && this.respond == respond
      ensures !connected && received == [] && this.observation == observation
    {
      this.config := config;
      this.respond := respond;
      connected := false;
      received := [];
      this.observation := observation;
    }

    method Connect()
      modifies this
      ensures connected
      ensures received == old(received) && observation == old(observation)
    {
      connected := true;
    }

    method SendAction(action: Dict) returns (sent: Dict)
      requires connected
      modifies this
      ensures sent == respond(action)
      ensures received == old(received) + [action]
      ensures connected && observation == old(observation)
    {
      received := received + [action];
      sent := respond(action);
    }

    method GetObservation() returns (obs: Dict)
      requires connected
      ensures obs == observation
    {
      obs := observation;
    }
  }

  /** A camera, seen through its connection flag and the output its next
      `async_read` returns. */
  class Camera {
    var connected: bool
    var latest: CameraOutput

    constructor(latest: CameraOutput)
      ensures !connected && this.latest == latest
    {
      connected := false;
      this.latest := latest;
    }

    method Connect()
      modifies this
      ensures connected && latest == old(latest)
    {
      connected := true;
    }

    method AsyncRead() returns (out: CameraOutput)
      requires connected
      ensures out == latest
    {
      out := latest;
    }
  }

  /** The cameras' current readings, in order. */
  function Readings(cams: seq<(string, Camera)>): (r: seq<(string, CameraOutput)>)
    reads set i | 0 <= i < |cams| :: cams[i].1
    ensures |r| == |cams|
    ensures forall i :: 0 <= i < |cams| ==> r[i] == (cams[i].0, cams[i].1.latest)
  {
    if |cams| == 0 then []
    else Readings(cams[..|cams| - 1]) + [(cams[|cams| - 1].0, cams[|cams| - 1].1.latest)]
  }

  // ---------------------------------------------------------------------------
  // The robot

  class BiPiperEndEffector {
    const config: BiPiperEndEffectorConfig
    const leftArm: Arm
    const rightArm: Arm
    /** `self.cameras`, in the dictionary's order. */
    const cameras: seq<(string, Camera)>

    function CameraSet(): set<Camera>
      reads this
    {
      set i | 0 <= i < |cameras| :: cameras[i].1
    }

    /** `is_connected`: both arms and every camera are connected. */
    predicate IsConnected()
      reads this, leftArm, rightArm, CameraSet()
    {
      leftArm.connected && rightArm.connected &&
      forall i :: 0 <= i < |cameras| ==> cameras[i].1.connected
    }

    /** The arms are built from the per-arm configurations; the cameras are
        given already made. */
    constructor(config: BiPiperEndEffectorConfig, leftArm: Arm, rightArm: Arm, cameras: seq<(string, Camera)>)
      requires leftArm != rightArm
      requires leftArm.config == LeftArmConfig(config) && rightArm.config == RightArmConfig(config)
      ensures this.config == config && this.leftArm == leftArm && this.rightArm == rightArm
      ensures this.cameras == cameras
    {
      this.config := config;
      this.leftArm := leftArm;
      this.rightArm := rightArm;
      this.cameras := cameras;
    }

    /** `connect`: connects both arms, then every camera. */
    method Connect()
      modifies leftArm, rightArm, CameraSet()
      ensures IsConnected()
      ensures leftArm.received == old(leftArm.received) && rightArm.received == old(rightArm.received)
      ensures leftArm.observation == old(leftArm.observation)
      ensures rightArm.observation == old(rightArm.observation)
      ensures forall i :: 0 <= i < |cameras| ==> cameras[i].1.latest == old(cameras[i].1.latest)
    {
      leftArm.Connect();
      rightArm.Connect();
      var k := 0;
      while k < |cameras|
        invariant 0 <= k <= |cameras|
        invariant leftArm.connected && rightArm.connected
        invariant leftArm.received == old(leftArm.received) && rightArm.received == old(rightArm.received)
        invariant leftArm.observation == old(leftArm.observation)
        invariant rightArm.observation == old(rightArm.observation)
        invariant forall i :: 0 <= i < k ==> cameras[i].1.connected
        invariant forall i :: 0 <= i < |cameras| ==> cameras[i].1.latest == old(cameras[i].1.latest)
      {
        cameras[k].1.Connect();
        k := k + 1;
      }
    }

    /** `send_action`: the `left_` entries, unprefixed, go to the left arm
        and the `right_` entries to the right arm; the two arms' results
        come back under their prefixes, merged. */
    method SendAction(action: Dict) returns (r: Result<Dict>)
      requires leftArm != rightArm
      modifies leftArm, rightArm
      ensures !old(IsConnected()) ==> r == Err(DeviceNotConnected) && unchanged(leftArm, rightArm)
      ensures old(IsConnected()) ==>
        leftArm.received == old(leftArm.received) + [StripPrefix(action, Left)] &&
        rightArm.received == old(rightArm.received) + [StripPrefix(action, Right)] &&
        r == Ok(AddPrefix(leftArm.respond(StripPrefix(action, Left)), Left) +
                AddPrefix(rightArm.respond(StripPrefix(action, Right)), Right))
      ensures leftArm.observation == old(leftArm.observation)
      ensures rightArm.observation == old(rightArm.observation)
      ensures leftArm.connected == old(leftArm.connected) && rightArm.connected == old(rightArm.connected)
      ensures old(IsConnected()) ==> IsConnected()
    {
      if !IsConnected() {
        return Err(DeviceNotConnected);
      }
      var leftAction := StripPrefix(action, Left);
      var rightAction := StripPrefix(action, Right);
      var sentLeft := leftArm.SendAction(leftAction);
      var sentRight := rightArm.SendAction(rightAction);
      r := Ok(AddPrefix(sentLeft, Left) + AddPrefix(sentRight, Right));
    }

    /** `get_observation`: the arms' observations under their prefixes, then
        each camera's entries written over them in camera order. */
    method GetObservation() returns (r: Result<Dict>)
      ensures !IsConnected() ==> r == Err(DeviceNotConnected)
      ensures IsConnected() ==>
        r == Ok(ObservationOf(leftArm.observation, rightArm.observation, Readings(cameras)))
    {
      if !IsConnected() {
        return Err(DeviceNotConnected);
      }
      var leftObs := leftArm.GetObservation();
      var rightObs := rightArm.GetObservation();
      ghost var base := AddPrefix(leftObs, Left) + AddPrefix(rightObs, Right);
      var obs: Dict := AddPrefix(leftObs, Left);
      obs := obs + AddPrefix(rightObs, Right);
      ghost var readings := Readings(cameras);
      var k := 0;
      while k < |cameras|
        invariant 0 <= k <= |cameras|
        invariant obs == Observe(base, readings[..k])
      {
        var out := cameras[k].1.AsyncRead();
        ObserveNext(base, readings, k);
        obs := obs + CameraEntries(cameras[k].0, out);
        k := k + 1;
      }
      assert readings[..k] == readings;
      r := Ok(obs);
    }
  }
}
