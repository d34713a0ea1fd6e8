/**
 * The regression thermostat model: it keeps the last outdoor temperature,
 * cooling setpoint, room temperature and timestamp, and predicts a demand curve
 * by evaluating an hour-of-day linear model over an evenly spaced sweep of
 * cooling setpoints around the current one.
 */
module ThermostatModels {
  import opened Common

  /** Telemetry field names. */
  const OatKey: string := "OAT"
  const CspKey: string := "CSP"
  const TinKey: string := "TIN"

  /** The sweep has numpy.linspace's default of 50 points and runs from csp - 2 to csp + 2. */
  const SweepPoints: nat := 50
  const SweepHalfWidth: real := 2.0

  type Hour = h: int | 0 <= h < 24

  /** A telemetry timestamp; the model uses only its hour of day. */
  datatype Timestamp = Timestamp(hour: Hour)

  /** Prediction parameters as a caller passes them; the model never reads them. */
  type Parameters = map<string, real>

  /**
   * Why `predict` raises: there has been no successful `update_data` yet (the
   * timestamp is None and has no hour), or the hour lies beyond a coefficient vector.
   */
  datatype PredictError = NoTimestamp | HourOutOfRange

  /** Point `i` of the setpoint sweep around `csp`. */
  function SweepPoint(csp: real, i: int): real {
    csp - SweepHalfWidth + (2.0 * SweepHalfWidth) * (i as real) / ((SweepPoints - 1) as real)
  }

  /** The candidate cooling setpoints, in increasing order. */
  function Sweep(csp: real): (s: seq<real>)
    ensures |s| == SweepPoints
    ensures forall i :: 0 <= i < |s| ==> s[i] == SweepPoint(csp, i)
  {
    seq(SweepPoints, i requires 0 <= i < SweepPoints => SweepPoint(csp, i))
  }

  /** The sweep starts at csp - 2 and ends at csp + 2. */
  lemma SweepEnds(csp: real)
    ensures Sweep(csp)[0] == csp - 2.0
    ensures Sweep(csp)[SweepPoints - 1] == csp + 2.0
  {
  }

  /** Consecutive points are 4/49 apart. */
  lemma SweepEvenlySpaced(csp: real, i: nat)
    requires i + 1 < SweepPoints
    ensures Sweep(csp)[i + 1] - Sweep(csp)[i] == 4.0 / 49.0
  {
  }

  /** The points are strictly increasing. */
  lemma SweepStrictlyIncreasing(csp: real, i: nat, j: nat)
    requires i < j < SweepPoints
    ensures Sweep(csp)[i] < Sweep(csp)[j]
  {
    assert Sweep(csp)[j] - Sweep(csp)[i] == 4.0 * ((j - i) as real) / 49.0;
  }

  /** The sweep is symmetric about the current setpoint. */
  lemma SweepSymmetric(csp: real, i: nat)
    requires i < SweepPoints
    ensures Sweep(csp)[i] + Sweep(csp)[SweepPoints - 1 - i] == 2.0 * csp
  {
  }

  class Thermostat {
    const c1: seq<real>
    const c2: seq<real>
    const c3: seq<real>
    const c4: seq<real>
    const ratedPower: real
    /** `demand_curve_points`: stored, never used by `predict`. */
    const nPoints: Option<int>
    const topic: Option<string>
    var oat: real
    var csp: real
    var roomTemp: real
    var currentTime: Option<Timestamp>
    var error: bool

    /** `Thermostat.__init__`; the caller rejects configurations missing a required key. */
    constructor (c1: seq<real>, c2: seq<real>, c3: seq<real>, c4: seq<real>,
                 ratedPower: real, nPoints: Option<int>, topic: Option<string>)
      ensures this.c1 == c1 && this.c2 == c2 && this.c3 == c3 && this.c4 == c4
      ensures this.ratedPower == ratedPower && this.nPoints == nPoints && this.topic == topic
      ensures oat == 0.0 && csp == 0.0 && roomTemp == 0.0
      ensures currentTime.None? && !error
    {
      this.c1, this.c2, this.c3, this.c4 := c1, c2, c3, c4;
      this.ratedPower, this.nPoints, this.topic := ratedPower, nPoints, topic;
      oat, csp, roomTemp := 0.0, 0.0, 0.0;
      currentTime := None;
      error := false;
    }

    /**
     * `update_data`: the three fields are assigned in the order OAT, CSP, TIN,
     * then the timestamp. A missing key raises at its own assignment, so the
     * fields assigned before it keep their new values, the later ones and the
     * timestamp keep their old ones, and the error flag is set.
     */
    method UpdateData(data: map<string, real>, now: Timestamp)
      modifies this
      ensures oat == if OatKey in data then data[OatKey] else old(oat)
      ensures csp == if OatKey in data && CspKey in data then data[CspKey] else old(csp)
      ensures roomTemp == if OatKey in data && CspKey in data && TinKey in data then data[TinKey] else old(roomTemp)
      ensures currentTime == if OatKey in data && CspKey in data && TinKey in data then Some(now) else old(currentTime)
      ensures error <==> !(OatKey in data && CspKey in data && TinKey in data)
    {
      if OatKey !in data { error := true; return; }
      oat := data[OatKey];
      if CspKey !in data { error := true; return; }
      csp := data[CspKey];
      if TinKey !in data { error := true; return; }
      roomTemp := data[TinKey];
      currentTime := Some(now);
      error := false;
    }

    /** Hour `h` indexes every coefficient vector. */
    predicate HourIndexes(h: Hour) {
      h < |c1| && h < |c2| && h < |c3| && h < |c4|
    }

    /** `get_q`: the hour-`index` linear model at the given outdoor and room temperatures and setpoint. */
    function GetQ(oat: real, temp: real, stpt: real, index: Hour): (r: real)
      requires HourIndexes(index)
      ensures oat == 0.0 && temp == 0.0 && stpt == 0.0 ==> r == c4[index]
      ensures c1[index] == 0.0 && c2[index] == 0.0 && c3[index] == 0.0 ==> r == c4[index]
    {
      stpt * c1[index] + temp * c2[index] + oat * c3[index] + c4[index]
    }

    /** The demand curve `predict` returns in the current state: one quantity per sweep point. */
    function Curve(): (r: Result<seq<real>, PredictError>)
      reads this
      ensures currentTime.None? ==> r == Failure(NoTimestamp)
      ensures currentTime.Some? && !HourIndexes(currentTime.value.hour) ==> r == Failure(HourOutOfRange)
      ensures r.Success? ==> |r.value| == SweepPoints
      ensures r.Success? ==>
                (currentTime.Some? && HourIndexes(currentTime.value.hour) &&
                 forall i :: 0 <= i < SweepPoints ==> r.value[i] == GetQ(oat, roomTemp, Sweep(csp)[i], currentTime.value.hour))
    {
      if currentTime.None? then Failure(NoTimestamp)
      else
        var h := currentTime.value.hour;
        if !HourIndexes(h) then Failure(HourOutOfRange)
        else
          var o, temp, sweep := oat, roomTemp, Sweep(csp);
          Success(seq(SweepPoints, i requires 0 <= i < SweepPoints => GetQ(o, temp, sweep[i], h)))
    }

    /**
     * `predict`: evaluates `get_q` at each sweep point in turn and collects the
     * results. It changes nothing; the parameters are ignored and so is
     * `nPoints`, the sweep always having 50 points.
     */
    method Predict(parms: Option<Parameters>) returns (r: Result<seq<real>, PredictError>)
      ensures r == Curve()
      ensures r.Success? ==> |r.value| == SweepPoints
    {
      if currentTime.None? {
        return Failure(NoTimestamp);
      }
      var index := currentTime.value.hour;
      var cspFlex := Sweep(csp);
      if !HourIndexes(index) {
        return Failure(HourOutOfRange);
      }
      var q: seq<real> := [];
      for k := 0 to |cspFlex|
        invariant |q| == k
        invariant forall j :: 0 <= j < k ==> q[j] == GetQ(oat, roomTemp, cspFlex[j], index)
      {
        q := q + [GetQ(oat, roomTemp, cspFlex[k], index)];
      }
      assert q == Curve().value;
      r := Success(q);
    }
  }

  /** With c1 = 1 and c2 = c3 = c4 = 0 at the stored hour, the curve is the sweep itself. */
  lemma CurveIsSweep(t: Thermostat)
    requires t.currentTime.Some? && t.HourIndexes(t.currentTime.value.hour)
    requires var h := t.currentTime.value.hour; t.c1[h] == 1.0 && t.c2[h] == 0.0 && t.c3[h] == 0.0 && t.c4[h] == 0.0
    ensures t.Curve() == Success(Sweep(t.csp))
  {
    var h := t.currentTime.value.hour;
    var q := t.Curve().value;
    forall i | 0 <= i < SweepPoints
      ensures q[i] == Sweep(t.csp)[i]
    {
      assert q[i] == Sweep(t.csp)[i] * 1.0 + t.roomTemp * 0.0 + t.oat * 0.0 + 0.0;
    }
    assert q == Sweep(t.csp);
  }

  /** Between two setpoints the model changes by the setpoint difference times c1 at that hour. */
  lemma GetQSetpointSlope(t: Thermostat, oat: real, temp: real, s1: real, s2: real, h: Hour)
    requires t.HourIndexes(h)
    ensures t.GetQ(oat, temp, s2, h) - t.GetQ(oat, temp, s1, h) == (s2 - s1) * t.c1[h]
  {
  }

  /** A positive setpoint coefficient makes the curve strictly increasing along the sweep; a negative one strictly decreasing. */
  lemma CurveMonotone(t: Thermostat, i: nat, j: nat)
    requires t.Curve().Success? && i < j < SweepPoints
    ensures var h := t.currentTime.value.hour;
            (t.c1[h] > 0.0 ==> t.Curve().value[i] < t.Curve().value[j])
            && (t.c1[h] < 0.0 ==> t.Curve().value[i] > t.Curve().value[j])
  {
    var h := t.currentTime.value.hour;
    var s := Sweep(t.csp);
    SweepStrictlyIncreasing(t.csp, i, j);
    GetQSetpointSlope(t, t.oat, t.roomTemp, s[i], s[j], h);
    var v := t.Curve().value;
    assert v[i] == t.GetQ(t.oat, t.roomTemp, s[i], h);
    assert v[j] == t.GetQ(t.oat, t.roomTemp, s[j], h);
    var d := s[j] - s[i];
    assert d > 0.0;
    assert v[j] - v[i] == d * t.c1[h];
    if t.c1[h] > 0.0 {
      assert d * t.c1[h] > 0.0;
      assert v[i] < v[j];
    } else if t.c1[h] < 0.0 {
      assert d * t.c1[h] < 0.0;
      assert v[i] > v[j];
    }
  }

  /**
   * The end-to-end case of a thermostat whose only non-zero coefficient is
   * c1 = 1 at hour 12: after telemetry with setpoint 70 at hour 12 the
   * predicted curve is the sweep from 68 to 72.
   */
  method IdentityScenario(oat: real, tin: real) returns (r: Result<seq<real>, PredictError>)
    ensures r == Success(Sweep(70.0))
  {
    var zeros := seq(24, i => 0.0);
    var ones := zeros[12 := 1.0];
    var t := new Thermostat(ones, zeros, zeros, zeros, 1.0, None, Some("devices/thermostat"));
    t.UpdateData(map[OatKey := oat, CspKey := 70.0, TinKey := tin], Timestamp(12));
    CurveIsSweep(t);
    r := t.Predict(None);
  }
}
