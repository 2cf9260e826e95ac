/** Unit standardisation of src/deploy/robots/misc/standardlizations.py:
    conversion between the Piper arm's integer units (0.001 mm, 0.001 degree,
    gripper out of 60000) and the canonical pose `[m, m, m, rad, rad, rad,
    gripper in [0, 1.6]]`, plus the identity standardisation. */
module Standardizations {
  import opened Wrappers
  import opened Geometry

  datatype Standardization = Dummy | Piper

  /** Python's `int()` on a float: truncation toward zero. */
  function Trunc(x: real): (n: int)
    ensures 0.0 <= x ==> 0 <= n && n as real <= x < n as real + 1.0
    ensures x < 0.0 ==> n <= 0 && n as real - 1.0 < x <= n as real
  {
    if 0.0 <= x then x.Floor else -((-x).Floor)
  }

  predicate IsIntegral(x: real) {
    x == x.Floor as real
  }

  /** `n` is what truncating `x` toward zero gives: an integer between 0 and
      `x`, less than one away from `x`. */
  ghost predicate TruncatedFrom(n: real, x: real) {
    IsIntegral(n) &&
    (0.0 <= x ==> 0.0 <= n <= x < n + 1.0) &&
    (x < 0.0 ==> n - 1.0 < x <= n <= 0.0)
  }

  /** The canonical size of one Piper unit on channel `i`: 1e-6 m for the
      position, 1e-3 degree (in radians) for the Euler angles, 1/60000 of
      the gripper range 1.6. */
  function Step(i: nat): (r: real)
    requires i < 7
    ensures r > 0.0
  {
    if i < 3 then 0.000001
    else if i < 6 then 0.001 * Pi / 180.0
    else 1.6 / 60000.0
  }

  /** `PiperStandardization.input_transform`: Piper units to canonical units. */
  function PiperInput(states: seq<real>): (r: seq<real>)
    requires |states| >= 7
    ensures |r| == 7
    ensures forall i :: 0 <= i < 7 ==> r[i] == states[i] * Step(i)
  {
    [states[0] * 0.000001,
     states[1] * 0.000001,
     states[2] * 0.000001,
     states[3] * 0.001 * Pi / 180.0,
     states[4] * 0.001 * Pi / 180.0,
     states[5] * 0.001 * Pi / 180.0,
     states[6] / 60000.0 * 1.6]
  }

  /** `PiperStandardization.output_transform`: canonical units to Piper
      units, each channel truncated toward zero to an integer. */
  function PiperOutput(states: seq<real>): (r: seq<real>)
    requires |states| >= 7
    ensures |r| == 7
    ensures forall i :: 0 <= i < 7 ==> TruncatedFrom(r[i], states[i] / Step(i))
  {
    var r := [Trunc(states[0] * 1000000.0) as real,
              Trunc(states[1] * 1000000.0) as real,
              Trunc(states[2] * 1000000.0) as real,
              Trunc(states[3] * 180.0 / Pi * 1000.0) as real,
              Trunc(states[4] * 180.0 / Pi * 1000.0) as real,
              Trunc(states[5] * 180.0 / Pi * 1000.0) as real,
              Trunc(states[6] / 1.6 * 60000.0) as real];
    forall i | 0 <= i < 7
      ensures TruncatedFrom(r[i], states[i] / Step(i))
    {
      InverseStep(states[i], i);
    }
    r
  }

  /** The output scalings are the inverse steps. */
  lemma InverseStep(x: real, i: nat)
    requires i < 7
    ensures i < 3 ==> x / Step(i) == x * 1000000.0
    ensures 3 <= i < 6 ==> x / Step(i) == x * 180.0 / Pi * 1000.0
    ensures i == 6 ==> x / Step(i) == x / 1.6 * 60000.0
  {
  }

  /** `input_transform` of either standardisation. */
  function Input(s: Standardization, states: seq<real>): (r: seq<real>)
    requires s.Piper? ==> |states| >= 7
    ensures s.Dummy? ==> r == states
    ensures s.Piper? ==> |r| == 7
  {
    match s
    case Dummy => states
    case Piper => PiperInput(states)
  }

  /** `output_transform` of either standardisation. */
  function Output(s: Standardization, states: seq<real>): (r: seq<real>)
    requires s.Piper? ==> |states| >= 7
    ensures s.Dummy? ==> r == states
    ensures s.Piper? ==> |r| == 7 && forall i :: 0 <= i < 7 ==> IsIntegral(r[i])
  {
    match s
    case Dummy => states
    case Piper => PiperOutput(states)
  }

  /** `get_standardization`: only "dummy" and "piper" are registered. */
  function GetStandardization(standardizationType: string): (r: Result<Standardization>)
    ensures r.Ok? <==> standardizationType in {"dummy", "piper"}
    ensures r.Ok? ==> (r.value.Piper? <==> standardizationType == "piper")
    ensures r.Err? ==> r.error.ValueError?
  {
    if standardizationType == "dummy" then Ok(Dummy)
    else if standardizationType == "piper" then Ok(Piper)
    else Err(ValueError("Unknown standardization type: " + standardizationType))
  }

  // ---------------------------------------------------------------------------
  // Properties

  /** The dummy standardisation leaves states unchanged in both directions. */
  lemma DummyRoundTrip(states: seq<real>)
    ensures Output(Dummy, Input(Dummy, states)) == states
    ensures Input(Dummy, Output(Dummy, states)) == states
  {
  }

  /** Truncation gives back an integer unchanged. */
  lemma TruncIntegral(x: real)
    requires IsIntegral(x)
    ensures Trunc(x) as real == x
  {
    var k := x.Floor;
    if x < 0.0 {
      assert -x == (-k) as real;
      assert (-x).Floor == -k;
    }
  }

  lemma Unscale(x: real, step: real)
    requires step > 0.0
    ensures (x * step) / step == x
  {
  }

  /** Piper readings in whole units survive the trip to canonical units and
      back exactly. */
  lemma {:induction false} OutputInvertsInput(x: seq<real>)
    requires |x| >= 7
    requires forall i :: 0 <= i < 7 ==> IsIntegral(x[i])
    ensures PiperOutput(PiperInput(x)) == x[..7]
  {
    var c := PiperInput(x);
    var r := PiperOutput(c);
    forall i | 0 <= i < 7
      ensures r[i] == x[i]
    {
      Unscale(x[i], Step(i));
      TruncIntegral(x[i]);
    }
  }

  lemma Rescale(x: real, step: real)
    requires step > 0.0
    ensures (x / step) * step == x
  {
  }

  /** Scaling a truncated quotient back loses less than one step and never
      grows the magnitude. */
  lemma ScaleBack(x: real, q: real, n: real, step: real)
    requires step > 0.0 && q * step == x
    requires TruncatedFrom(n, q)
    ensures -step < n * step - x < step
    ensures 0.0 <= x ==> 0.0 <= n * step <= x
    ensures x < 0.0 ==> x <= n * step <= 0.0
  {
    WithinOneStep(x, q, n, step);
    SameSign(x, q, step);
    SameSign(n * step, n, step);
    if 0.0 <= q {
      ScaledBelow(x, q, n, step);
    } else {
      ScaledBelow(n * step, n, q, step);
    }
  }

  /** Multiplying by a positive step keeps the sign. */
  lemma SameSign(x: real, q: real, step: real)
    requires step > 0.0 && q * step == x
    ensures 0.0 <= q <==> 0.0 <= x
  {
    if 0.0 <= q {
      assert q * step >= 0.0;
    } else {
      assert q * step < 0.0;
    }
  }

  /** Multiplying by a positive step keeps the order. */
  lemma ScaledBelow(x: real, q: real, n: real, step: real)
    requires step > 0.0 && q * step == x && n <= q
    ensures n * step <= x
  {
    var a := q - n;
    assert a * step == x - n * step;
    assert a >= 0.0;
    assert a * step >= 0.0;
  }

  /** Quotients less than one apart scale to values less than one step
      apart. */
  lemma WithinOneStep(x: real, q: real, n: real, step: real)
    requires step > 0.0 && q * step == x && -1.0 < q - n < 1.0
    ensures -step < x - n * step < step
  {
    var a := q - n;
    assert a * step == x - n * step;
    assert (1.0 - a) * step > 0.0;
    assert (1.0 - a) * step == step - a * step;
    assert (a + 1.0) * step > 0.0;
    assert (a + 1.0) * step == a * step + step;
  }

  /** A canonical pose sent to the arm and read back differs from the
      original by less than one Piper unit per channel, toward zero. */
  lemma {:induction false} InputOutputWithinStep(p: seq<real>)
    requires |p| >= 7
    ensures var q := PiperInput(PiperOutput(p));
      forall i :: 0 <= i < 7 ==>
        -Step(i) < q[i] - p[i] < Step(i) &&
        (0.0 <= p[i] ==> 0.0 <= q[i] <= p[i]) &&
        (p[i] < 0.0 ==> p[i] <= q[i] <= 0.0)
  {
    var o := PiperOutput(p);
    var q := PiperInput(o);
    forall i | 0 <= i < 7
      ensures -Step(i) < q[i] - p[i] < Step(i) &&
        (0.0 <= p[i] ==> 0.0 <= q[i] <= p[i]) &&
        (p[i] < 0.0 ==> p[i] <= q[i] <= 0.0)
    {
      ChannelWithinStep(p[i], o[i], Step(i));
    }
  }

  /** One channel of `InputOutputWithinStep`. */
  lemma ChannelWithinStep(x: real, n: real, step: real)
    requires step > 0.0 && TruncatedFrom(n, x / step)
    ensures -step < n * step - x < step
    ensures 0.0 <= x ==> 0.0 <= n * step <= x
    ensures x < 0.0 ==> x <= n * step <= 0.0
  {
    Rescale(x, step);
    ScaleBack(x, x / step, n, step);
  }

  /** The key the single-arm end-effector robot asks for is not registered. */
  lemma EndEffectorKeyUnregistered()
    ensures GetStandardization("piper_end_effector").Err?
  {
  }
}
