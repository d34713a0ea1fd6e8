/**
 * The composite air-handling-unit and chiller model: an owner object with a fan
 * sub-model (cubic power curve, coefficient group chosen by the nearest grouping
 * key) and a cooling-coil sub-model (measured or scheduled coil load with an
 * economizer decision), combined into a total electric power.
 *
 * The sub-models of the source keep a back-reference to their owner. Here the
 * data they read from the owner are passed explicitly: the coil receives the
 * owner's economizer settings when it is built and an `AirSnapshot` of the
 * owner's air-side state whenever it refreshes its caches; the fan receives the
 * owner's grouping measurement and air-mass flow as arguments.
 */
module AhuChillerModels {
  import opened Common

  // ---------------------------------------------------------------------------
  // Configuration
  // ---------------------------------------------------------------------------

  /** Default grouping value of the fan when `coefficient_group_default` is absent. */
  const DefaultGroupValue: real := 20.0
  /** Key under which a flat c0..c3 fan configuration is stored. */
  const FlatGroupKey: real := 100.0
  /** Defaults of the coil when `cpAir` or `cop` are absent. */
  const DefaultCpAir: real := 0.0003148
  const DefaultCop: real := 5.5
  /** Fixed auxiliary-loss factor in the coil's power conversion. */
  const AuxiliaryLoss: real := 0.9
  /** Owner defaults before `equipment_configuration` runs. */
  const DefaultMinOaf: real := 0.15

  /** The seven telemetry attributes the owner keeps (sfs, mat, dat, saf, oat, rat, oad). */
  datatype Point = SFS | MAT | DAT | SAF | OAT | RAT | OAD

  /**
   * The measurement names under which the telemetry accessor is queried. In the
   * source they are constants of a module that is not part of this model, so they
   * are opaque strings given at construction.
   */
  datatype PointNames = PointNames(sfs: string, mat: string, dat: string, saf: string,
                                   oat: string, rat: string, oad: string)
  {
    function Of(p: Point): string {
      match p
      case SFS => sfs
      case MAT => mat
      case DAT => dat
      case SAF => saf
      case OAT => oat
      case RAT => rat
      case OAD => oad
    }
  }

  /** One group of fan power-curve coefficients. */
  datatype Coeffs = Coeffs(c0: real, c1: real, c2: real, c3: real)

  /** A coefficient table: grouping key to coefficients, in the dictionary's insertion order. */
  type Table = seq<(real, Coeffs)>

  /**
   * The keys of the fan section of `model_configuration` (`power_unit` is read by
   * the source and never used, so it is not here). `coefficientGroupBy` names one
   * of the owner's telemetry attributes; other attribute names are not modelled.
   */
  datatype FanConf = FanConf(coefficientGroupBy: Option<Point>,
                             coefficientGroupDefault: Option<real>,
                             coefficients: Option<Table>,
                             c0: Option<real>, c1: Option<real>,
                             c2: Option<real>, c3: Option<real>)

  /**
   * The keys of the coil section. `cop` is the value under the lower-case key
   * "cop", the key the source reads; a configuration that spells it "COP" leaves
   * this field absent and the coil falls back to `DefaultCop`.
   */
  datatype CoilConf = CoilConf(cpAir: Option<real>, cop: Option<real>)

  /**
   * `model_configuration`. The fan reads its keys from the "fan" entry when there
   * is one and from the top level otherwise, and the coil likewise with "coil";
   * `topFan` and `topCoil` are the top-level keys read under each schema.
   */
  datatype ModelConf = ModelConf(fan: Option<FanConf>, coil: Option<CoilConf>,
                                 topFan: FanConf, topCoil: CoilConf)

  function FanSection(m: ModelConf): (r: FanConf)
    ensures m.fan.Some? ==> r == m.fan.value
    ensures m.fan.None? ==> r == m.topFan
  {
    if m.fan.Some? then m.fan.value else m.topFan
  }

  function CoilSection(m: ModelConf): (r: CoilConf)
    ensures m.coil.Some? ==> r == m.coil.value
    ensures m.coil.None? ==> r == m.topCoil
  {
    if m.coil.Some? then m.coil.value else m.topCoil
  }

  /** The keys of `equipment_configuration`. */
  datatype EquipmentConf = EquipmentConf(minimumOaf: Option<real>,
                                         variableVolume: Option<bool>,
                                         supplyAirSetpoint: Option<real>,
                                         buildingChiller: Option<bool>,
                                         nominalZoneSetpoint: Option<real>,
                                         hasEconomizer: Option<bool>,
                                         economizerLimit: Option<real>)

  /** The first required key `equipment_configuration` finds missing, in the order it reads them. */
  function MissingEquipmentKey(conf: EquipmentConf): (r: Option<string>)
    ensures r.None? <==> conf.supplyAirSetpoint.Some? && conf.buildingChiller.Some?
                         && conf.nominalZoneSetpoint.Some? && conf.hasEconomizer.Some?
                         && (conf.hasEconomizer.value ==> conf.economizerLimit.Some?)
    ensures r.Some? ==> r.value in {"supply_air_setpoint", "building_chiller",
                                    "nominal_zone_setpoint", "has_economizer", "economizer_limit"}
  {
    if conf.supplyAirSetpoint.None? then Some("supply_air_setpoint")
    else if conf.buildingChiller.None? then Some("building_chiller")
    else if conf.nominalZoneSetpoint.None? then Some("nominal_zone_setpoint")
    else if conf.hasEconomizer.None? then Some("has_economizer")
    else if conf.hasEconomizer.value && conf.economizerLimit.None? then Some("economizer_limit")
    else None
  }

  // ---------------------------------------------------------------------------
  // Fan: coefficient table and power curve
  // ---------------------------------------------------------------------------

  /** The fan has neither a coefficient table nor a complete flat c0..c3 set (the source exits the process). */
  datatype FanInitError = MissingFanCoefficients

  /** What `init_model` stores as the coefficient table. */
  function InitModel(conf: FanConf): (r: Result<Table, FanInitError>)
    ensures conf.coefficients.Some? ==> r == Success(conf.coefficients.value)
    ensures conf.coefficients.None? ==>
              (r.Success? <==> conf.c0.Some? && conf.c1.Some? && conf.c2.Some? && conf.c3.Some?)
    ensures conf.coefficients.None? && r.Success? ==>
              r.value == [(FlatGroupKey, Coeffs(conf.c0.value, conf.c1.value, conf.c2.value, conf.c3.value))]
  {
    if conf.coefficients.Some? then Success(conf.coefficients.value)
    else if conf.c0.Some? && conf.c1.Some? && conf.c2.Some? && conf.c3.Some? then
      Success([(FlatGroupKey, Coeffs(conf.c0.value, conf.c1.value, conf.c2.value, conf.c3.value))])
    else Failure(MissingFanCoefficients)
  }

  function Distance(key: real, measurement: real): real {
    Abs(key - measurement)
  }

  /**
   * The index of the key nearest to `measurement`; among equally near keys the
   * first in table order wins, as Python's `min` returns the first minimum.
   */
  function Nearest(t: Table, measurement: real): (i: nat)
    requires |t| > 0
    ensures i < |t|
    ensures forall j :: 0 <= j < |t| ==> Distance(t[i].0, measurement) <= Distance(t[j].0, measurement)
    ensures forall j :: 0 <= j < i ==> Distance(t[j].0, measurement) > Distance(t[i].0, measurement)
    decreases |t|
  {
    if |t| == 1 then 0
    else
      var i := Nearest(t[..|t| - 1], measurement);
      if Distance(t[|t| - 1].0, measurement) < Distance(t[i].0, measurement) then |t| - 1 else i
  }

  /**
   * The group `update_current_coefficients` is meant to select: the only group
   * when there is one, otherwise the nearest key.
   */
  function SelectGroup(t: Table, measurement: real): (i: nat)
    requires |t| > 0
    ensures i < |t|
    ensures |t| == 1 ==> i == 0
    ensures forall j :: 0 <= j < |t| && |t| > 1 ==> Distance(t[i].0, measurement) <= Distance(t[j].0, measurement)
    ensures forall j :: 0 <= j < i ==> Distance(t[j].0, measurement) > Distance(t[i].0, measurement)
  {
    if |t| == 1 then 0 else Nearest(t, measurement)
  }

  /** How `update_current_coefficients` fails as written. */
  datatype SelectionError =
    | EmptyTable          // min() of an empty list
    | UnhashableKey       // the dictionary is indexed with a coefficient record
    | UnboundMeasurement  // no grouping attribute, and the key function needs one
    | RecordArithmetic    // the key function subtracts a number from a coefficient record

  /**
   * `update_current_coefficients` as written: it lists the table's VALUES, picks
   * one of those coefficient records and then indexes the table with it. A record
   * is never a key of the table, so no call succeeds.
   */
  function SelectAsWritten(t: Table, groupBy: Option<Point>): (r: Result<Coeffs, SelectionError>)
    ensures r.Failure?
    ensures |t| == 1 ==> r == Failure(UnhashableKey)
  {
    if |t| == 0 then Failure(EmptyTable)
    else if |t| == 1 then Failure(UnhashableKey)
    else if groupBy.None? then Failure(UnboundMeasurement)
    else Failure(RecordArithmetic)
  }

  /** The cubic power curve of the fan. */
  function Polynomial(k: Coeffs, m: real): real {
    k.c0 + k.c1 * m + k.c2 * m * m + k.c3 * m * m * m
  }

  class Fan {
    const coefficientGroupBy: Option<Point>
    const coefficientGroupDefault: real
    const coefficientDict: Table
    var c0: real
    var c1: real
    var c2: real
    var c3: real

    /** The currently selected coefficients. */
    function Current(): Coeffs
      reads this
    {
      Coeffs(c0, c1, c2, c3)
    }

    /** `Fan.__init__` with `init_model`; the failing configuration is rejected by the caller. */
    constructor (conf: FanConf)
      requires InitModel(conf).Success?
      ensures coefficientGroupBy == conf.coefficientGroupBy
      ensures coefficientGroupDefault == conf.coefficientGroupDefault.GetOr(DefaultGroupValue)
      ensures coefficientDict == InitModel(conf).value
      ensures Current() == Coeffs(0.0, 0.0, 0.0, 0.0)
    {
      coefficientGroupBy := conf.coefficientGroupBy;
      coefficientGroupDefault := conf.coefficientGroupDefault.GetOr(DefaultGroupValue);
      coefficientDict := InitModel(conf).value;
      c0, c1, c2, c3 := 0.0, 0.0, 0.0, 0.0;
    }

    /** The grouping value used for selection: the owner's reading, or the default when it is unset. */
    function Measurement(reading: Option<real>): real {
      reading.GetOr(coefficientGroupDefault)
    }

    /**
     * Selects the current coefficients (corrected: by nearest key, see
     * `SelectAsWritten`). `reading` is the owner's attribute named by
     * `coefficientGroupBy`. With more than one group the source needs a grouping
     * attribute, so that is required. An empty table fails and changes nothing.
     */
    method UpdateCurrentCoefficients(reading: Option<real>) returns (ok: bool)
      requires coefficientGroupBy.Some? || |coefficientDict| <= 1
      modifies this
      ensures ok <==> |coefficientDict| > 0
      ensures ok ==> Current() == coefficientDict[SelectGroup(coefficientDict, Measurement(reading))].1
      ensures !ok ==> Current() == old(Current())
    {
      if |coefficientDict| == 0 {
        return false;
      }
      var i := SelectGroup(coefficientDict, Measurement(reading));
      var coeff := coefficientDict[i].1;
      c0, c1, c2, c3 := coeff.c0, coeff.c1, coeff.c2, coeff.c3;
      ok := true;
    }

    /** Fan power at air-mass flow `airflow` (the owner's `mDotAir`); not clamped. */
    function CalculatePower(airflow: real): (r: real)
      reads this
      ensures r == c0 + airflow * (c1 + airflow * (c2 + airflow * c3))
    {
      PolynomialHorner(Current(), airflow);
      Polynomial(Current(), airflow)
    }
  }

  /** Horner's form is an independent definition of the same power curve. */
  lemma PolynomialHorner(k: Coeffs, m: real)
    ensures Polynomial(k, m) == k.c0 + m * (k.c1 + m * (k.c2 + m * k.c3))
  {
    assert m * (k.c2 + m * k.c3) == k.c2 * m + k.c3 * m * m;
    assert m * (k.c1 + m * (k.c2 + m * k.c3)) == k.c1 * m + k.c2 * m * m + k.c3 * m * m * m;
  }

  /** A flat c0..c3 configuration becomes the single group keyed 100, which every measurement selects. */
  lemma FlatConfigIsSingleGroup(conf: FanConf, measurement: real)
    requires conf.coefficients.None? && InitModel(conf).Success?
    ensures InitModel(conf).value == [(FlatGroupKey, Coeffs(conf.c0.value, conf.c1.value, conf.c2.value, conf.c3.value))]
    ensures SelectGroup(InitModel(conf).value, measurement) == 0
  {
  }

  /** For the three-group table of the source's documentation, the call as written fails while the intended selection picks key 20. */
  lemma SelectionCounterexample(k: Coeffs)
    ensures SelectAsWritten([(20.0, k), (60.0, k), (100.0, k)], Some(OAD)) == Failure(RecordArithmetic)
    ensures SelectGroup([(20.0, k), (60.0, k), (100.0, k)], 20.0) == 0
    ensures SelectGroup([(20.0, k), (60.0, k), (100.0, k)], 85.0) == 2
  {
    var t := [(20.0, k), (60.0, k), (100.0, k)];
    assert Distance(t[2].0, 85.0) == 15.0;
    assert Distance(t[0].0, 20.0) == 0.0;
  }

  /** Two equally near keys: the one earlier in the table wins. */
  lemma SelectionTieGoesToFirst(k: Coeffs, l: Coeffs)
    ensures SelectGroup([(20.0, k), (60.0, l)], 40.0) == 0
  {
    var t := [(20.0, k), (60.0, l)];
    assert Distance(t[0].0, 40.0) == Distance(t[1].0, 40.0);
  }

  // ---------------------------------------------------------------------------
  // Cooling coil
  // ---------------------------------------------------------------------------

  /** The owner's air-side state that the coil copies in `update_data`. */
  datatype AirSnapshot = AirSnapshot(oat: Option<real>, dat: Option<real>, mat: Option<real>,
                                     mDotAir: real, tDis: Option<real>)

  /** Why a power calculation raised: `tDis` was never assigned, or the coefficient of performance is zero. */
  datatype PowerError = DischargeSetpointUnbound | ZeroCop

  class CoolingCoil {
    const cpAir: real
    const cop: real
    const hasEconomizer: bool
    const economizerLimit: real
    const minOaf: real
    const avgVavSp: real
    var mat: Option<real>
    var dat: Option<real>
    var oat: Option<real>
    var airflow: real
    var datSp: real

    /**
     * `CoolingCoil.__init__`. The economizer flag and limit, the minimum
     * outdoor-air fraction and the average zone setpoint are the owner's values
     * at the moment the coil is built.
     */
    constructor (conf: CoilConf, hasEconomizer: bool, economizerLimit: real, minOaf: real, tsetAvg: real)
      ensures cpAir == conf.cpAir.GetOr(DefaultCpAir) && cop == conf.cop.GetOr(DefaultCop)
      ensures this.hasEconomizer == hasEconomizer && this.economizerLimit == economizerLimit
      ensures this.minOaf == minOaf && avgVavSp == tsetAvg
      ensures mat == Some(0.0) && dat == Some(0.0) && oat == Some(0.0)
      ensures airflow == 0.0 && datSp == 0.0
    {
      cpAir := conf.cpAir.GetOr(DefaultCpAir);
      cop := conf.cop.GetOr(DefaultCop);
      this.hasEconomizer := hasEconomizer;
      this.economizerLimit := economizerLimit;
      this.minOaf := minOaf;
      avgVavSp := tsetAvg;
      mat, dat, oat := Some(0.0), Some(0.0), Some(0.0);
      airflow, datSp := 0.0, 0.0;
    }

    /** The caches hold `s`; the setpoint is `s.tDis`, or the prior one when `tDis` is unbound. */
    ghost predicate Refreshed(s: AirSnapshot, priorDatSp: real)
      reads this
    {
      && oat == s.oat && dat == s.dat && mat == s.mat && airflow == s.mDotAir
      && datSp == (if s.tDis.Some? then s.tDis.value else priorDatSp)
    }

    /**
     * `update_data`: copies the owner's temperatures, flow and discharge setpoint
     * one by one. Reading an unbound `tDis` raises after the first four copies,
     * which then stay, so `ok` is false and the setpoint keeps its old value.
     */
    method UpdateData(s: AirSnapshot) returns (ok: bool)
      modifies this
      ensures Refreshed(s, old(datSp))
      ensures ok <==> s.tDis.Some?
    {
      oat := s.oat;
      dat := s.dat;
      mat := s.mat;
      airflow := s.mDotAir;
      if s.tDis.None? {
        return false;
      }
      datSp := s.tDis.value;
      ok := true;
    }

    /**
     * Real-time coil load from the measured discharge and mixed air
     * temperatures, capped at zero (a positive value would mean heating). A
     * missing temperature makes the product raise; the source then uses 0.
     */
    function CurrentCoilLoad(): (r: real)
      reads this
      ensures r <= 0.0
      ensures dat.Some? && mat.Some? ==> r == Min(0.0, airflow * cpAir * (dat.value - mat.value))
      ensures dat.None? || mat.None? ==> r == 0.0
    {
      var load := if dat.Some? && mat.Some? then airflow * cpAir * (dat.value - mat.value) else 0.0;
      Min(0.0, load)
    }

    /** The heat flow of cooling `airflow` from `inlet` to the discharge setpoint (negative when cooling). */
    function Demand(inlet: real): real
      reads this
    {
      airflow * cpAir * (datSp - inlet)
    }

    /** Mixed air at the minimum outdoor-air fraction: zone setpoint blended with outdoor air. */
    function MixedAir(outdoor: real): real {
      avgVavSp * (1.0 - minOaf) + minOaf * outdoor
    }

    /**
     * Scheduled coil load for outdoor temperature `outdoor`, capped at zero. No
     * temperature gives 0. With an economizer: below the discharge setpoint the
     * outdoor air does all the cooling; below the economizer limit the coil cools
     * outdoor air to the setpoint; otherwise it cools the blended mixed air.
     * Without an economizer the blended mixed air is used at every temperature.
     */
    function CalculateCoilLoad(outdoor: Option<real>): (r: real)
      reads this
      ensures r <= 0.0
      ensures outdoor.None? ==> r == 0.0
      ensures outdoor.Some? && hasEconomizer && outdoor.value < datSp ==> r == 0.0
      ensures outdoor.Some? && hasEconomizer && datSp <= outdoor.value < economizerLimit ==>
                r == Min(0.0, Demand(outdoor.value))
      ensures outdoor.Some? && hasEconomizer && datSp <= outdoor.value && economizerLimit <= outdoor.value ==>
                r == Min(0.0, Demand(MixedAir(outdoor.value)))
      ensures outdoor.Some? && !hasEconomizer ==>
                r == Min(0.0, Demand(MixedAir(outdoor.value)))
    {
      if outdoor.None? then 0.0
      else
        var o := outdoor.value;
        var load :=
          if hasEconomizer then
            if o < datSp then 0.0
            else if o < economizerLimit then Demand(o)
            else Demand(MixedAir(o))
          else Demand(MixedAir(o));
        Min(0.0, load)
    }

    /** The load the coil uses in the requested mode. */
    function Load(outdoor: Option<real>, realtime: bool): (r: real)
      reads this
      ensures r <= 0.0
      ensures realtime ==> r == CurrentCoilLoad()
      ensures !realtime ==> r == CalculateCoilLoad(outdoor)
    {
      if realtime then CurrentCoilLoad() else CalculateCoilLoad(outdoor)
    }

    /** Electric power for coil load `load`: its magnitude over the COP and the auxiliary-loss factor. */
    function Power(load: real): (r: real)
      requires cop != 0.0
      ensures r * cop * AuxiliaryLoss == Abs(load)
      ensures cop > 0.0 ==> r >= 0.0
    {
      Abs(load) / cop / AuxiliaryLoss
    }

    /**
     * `calculate_load`: refreshes the caches from the owner, then converts the
     * load of the requested mode to a power. Only the caches change.
     */
    method CalculateLoad(s: AirSnapshot, outdoor: Option<real>, realtime: bool) returns (r: Result<real, PowerError>)
      modifies this
      ensures Refreshed(s, old(datSp))
      ensures s.tDis.None? ==> r == Failure(DischargeSetpointUnbound)
      ensures s.tDis.Some? && cop == 0.0 ==> r == Failure(ZeroCop)
      ensures s.tDis.Some? && cop != 0.0 ==> r == Success(Power(Load(outdoor, realtime)))
      ensures r.Success? && cop > 0.0 ==> r.value >= 0.0
    {
      var ok := UpdateData(s);
      if !ok {
        return Failure(DischargeSetpointUnbound);
      }
      var load;
      if realtime {
        load := CurrentCoilLoad();
      } else {
        load := CalculateCoilLoad(outdoor);
      }
      if cop == 0.0 {
        return Failure(ZeroCop);
      }
      r := Success(Power(load));
    }
  }

  /** At an outdoor temperature equal to the discharge setpoint (below the limit) the economizer leaves no coil load. */
  lemma FreeCoolingAtSetpoint(c: CoolingCoil)
    requires c.hasEconomizer && c.datSp < c.economizerLimit
    ensures c.CalculateCoilLoad(Some(c.datSp)) == 0.0
  {
  }

  /** With a minimum outdoor-air fraction in [0, 1] the blended mixed air lies between the zone setpoint and the outdoor air. */
  lemma MixedAirBetween(c: CoolingCoil, outdoor: real)
    requires 0.0 <= c.minOaf <= 1.0
    ensures Min(c.avgVavSp, outdoor) <= c.MixedAir(outdoor) <= Max(c.avgVavSp, outdoor)
  {
    var f := c.minOaf;
    if c.avgVavSp <= outdoor {
      ScaleMonotone(f, 0.0, outdoor - c.avgVavSp);
      ScaleMonotone(outdoor - c.avgVavSp, f, 1.0);
    } else {
      ScaleMonotone(f, 0.0, c.avgVavSp - outdoor);
      ScaleMonotone(c.avgVavSp - outdoor, f, 1.0);
    }
  }

  /**
   * Between the setpoint and the economizer limit, warmer outdoor air never
   * needs less cooling (the scheduled load does not increase), for
   * non-negative flow and specific heat.
   */
  lemma EconomizerBandMonotone(c: CoolingCoil, o1: real, o2: real)
    requires c.hasEconomizer && c.airflow >= 0.0 && c.cpAir >= 0.0
    requires c.datSp <= o1 <= o2 < c.economizerLimit
    ensures c.CalculateCoilLoad(Some(o2)) <= c.CalculateCoilLoad(Some(o1))
  {
    DemandAntitone(c, o1, o2);
  }

  /** For non-negative flow and specific heat, a warmer inlet never needs less cooling. */
  lemma DemandAntitone(c: CoolingCoil, x: real, y: real)
    requires c.airflow >= 0.0 && c.cpAir >= 0.0 && x <= y
    ensures c.Demand(y) <= c.Demand(x)
  {
    var k := c.airflow * c.cpAir;
    assert k >= 0.0 by { ScaleMonotone(c.airflow, 0.0, c.cpAir); }
    ScaleMonotone(k, c.datSp - y, c.datSp - x);
  }

  /**
   * Two coils that differ only in the economizer flag: as long as the
   * economizer limit does not exceed the zone setpoint, the economizer never
   * asks for more cooling than the always-blended calculation.
   */
  lemma EconomizerNeverIncreasesCooling(a: CoolingCoil, b: CoolingCoil, outdoor: real)
    requires a.hasEconomizer && !b.hasEconomizer
    requires a.airflow == b.airflow && a.cpAir == b.cpAir && a.datSp == b.datSp
    requires a.minOaf == b.minOaf && a.avgVavSp == b.avgVavSp
    requires a.airflow >= 0.0 && a.cpAir >= 0.0 && 0.0 <= a.minOaf <= 1.0
    requires a.economizerLimit <= a.avgVavSp
    ensures a.CalculateCoilLoad(Some(outdoor)) >= b.CalculateCoilLoad(Some(outdoor))
  {
    var mixed := a.MixedAir(outdoor);
    assert b.MixedAir(outdoor) == mixed;
    assert b.Demand(mixed) == a.Demand(mixed);
    if a.datSp <= outdoor < a.economizerLimit {
      MixedAirBetween(a, outdoor);
      assert outdoor <= mixed;
      DemandAntitone(a, outdoor, mixed);
    }
  }

  /**
   * At the economizer limit the outdoor-air formula and the mixed-air formula
   * agree only when the flow times the specific heat is zero, the minimum
   * outdoor-air fraction is 1, or the limit equals the zone setpoint: their
   * difference is flow * cp * (1 - fraction) * (zone setpoint - limit).
   */
  lemma LimitAgreement(c: CoolingCoil)
    ensures c.Demand(c.economizerLimit) == c.Demand(c.MixedAir(c.economizerLimit)) <==>
              (c.airflow * c.cpAir == 0.0 || c.minOaf == 1.0 || c.economizerLimit == c.avgVavSp)
  {
    var k := c.airflow * c.cpAir;
    var limit := c.economizerLimit;
    var gap := (1.0 - c.minOaf) * (c.avgVavSp - limit);
    assert c.MixedAir(limit) - limit == gap;
    assert c.Demand(limit) - c.Demand(c.MixedAir(limit)) == k * gap;
    ZeroProduct(k, gap);
    ZeroProduct(1.0 - c.minOaf, c.avgVavSp - limit);
  }

  /**
   * The capped scheduled load at the economizer limit, for a setpoint below the
   * limit and a positive flow times specific heat. Below the limit the load runs
   * along the outdoor-air line, which ends at the negative value
   * Demand(limit); at the limit the load equals that end value exactly when the
   * minimum outdoor-air fraction is 1 or the limit equals the zone setpoint, and
   * jumps otherwise.
   */
  lemma LoadJumpsAtLimit(c: CoolingCoil)
    requires c.hasEconomizer && c.datSp < c.economizerLimit && c.airflow * c.cpAir > 0.0
    ensures c.Demand(c.economizerLimit) < 0.0
    ensures forall o :: c.datSp <= o < c.economizerLimit ==>
              c.CalculateCoilLoad(Some(o)) == c.Demand(c.economizerLimit) + c.airflow * c.cpAir * (c.economizerLimit - o)
    ensures c.CalculateCoilLoad(Some(c.economizerLimit)) == c.Demand(c.economizerLimit) <==>
              (c.minOaf == 1.0 || c.economizerLimit == c.avgVavSp)
  {
    var k := c.airflow * c.cpAir;
    var limit := c.economizerLimit;
    assert c.Demand(limit) == k * (c.datSp - limit);
    assert k * (limit - c.datSp) > 0.0;
    forall o | c.datSp <= o < limit
      ensures c.CalculateCoilLoad(Some(o)) == c.Demand(limit) + k * (limit - o)
    {
      ScaleMonotone(k, 0.0, o - c.datSp);
      assert c.Demand(o) == c.Demand(limit) + k * (limit - o);
    }
    LimitAgreement(c);
  }

  /**
   * With the economizer limit at or below the discharge setpoint the
   * outdoor-air branch is never taken, and the load jumps at the setpoint
   * instead: 0 below it, the capped mixed-air load from it on, which is
   * negative exactly when the mixed air there is warmer than the setpoint.
   */
  lemma JumpAtSetpoint(c: CoolingCoil)
    requires c.hasEconomizer && c.economizerLimit <= c.datSp && c.airflow * c.cpAir > 0.0
    ensures forall o :: o < c.datSp ==> c.CalculateCoilLoad(Some(o)) == 0.0
    ensures c.CalculateCoilLoad(Some(c.datSp)) == Min(0.0, c.Demand(c.MixedAir(c.datSp)))
    ensures c.CalculateCoilLoad(Some(c.datSp)) < 0.0 <==> c.MixedAir(c.datSp) > c.datSp
  {
    var k := c.airflow * c.cpAir;
    var d := c.datSp - c.MixedAir(c.datSp);
    assert c.Demand(c.MixedAir(c.datSp)) == k * d;
    if d < 0.0 {
      assert k * (-d) > 0.0;
    } else {
      ScaleMonotone(k, 0.0, d);
    }
  }

  /**
   * The jump at the limit for an economizer limit of 65, zone setpoint 72,
   * fraction 0.2, setpoint 55, flow 1000 and the default specific heat: the
   * outdoor-air formula gives 0.3148 * (55 - 65) there, yet the load at 65 is
   * the mixed-air one, 0.3148 * (55 - 70.6).
   */
  lemma LimitJumpExample(c: CoolingCoil)
    requires c.hasEconomizer && c.economizerLimit == 65.0 && c.minOaf == 0.2 && c.avgVavSp == 72.0
    requires c.datSp == 55.0 && c.airflow == 1000.0 && c.cpAir == DefaultCpAir
    ensures c.Demand(65.0) == 0.3148 * (55.0 - 65.0)
    ensures c.CalculateCoilLoad(Some(65.0)) == 0.3148 * (55.0 - 70.6)
    ensures c.CalculateCoilLoad(Some(65.0)) < c.Demand(65.0)
  {
    assert c.MixedAir(65.0) == 70.6;
  }

  /**
   * A coil without economizer, zone setpoint 72, minimum outdoor-air fraction
   * 0.2, discharge setpoint 55, flow 1000 and the default specific heat: at 90
   * outdoor the mixed air is 75.6 and the scheduled load is 0.3148 * (55 - 75.6).
   */
  lemma ScheduledLoadExample(c: CoolingCoil)
    requires !c.hasEconomizer && c.minOaf == 0.2 && c.avgVavSp == 72.0
    requires c.datSp == 55.0 && c.airflow == 1000.0 && c.cpAir == DefaultCpAir && c.cop == DefaultCop
    ensures c.MixedAir(90.0) == 75.6
    ensures c.CalculateCoilLoad(Some(90.0)) == 0.3148 * (55.0 - 75.6)
    ensures c.Power(c.CalculateCoilLoad(Some(90.0))) == 0.3148 * 20.6 / 5.5 / 0.9
  {
  }

  // ---------------------------------------------------------------------------
  // The composite equipment model
  // ---------------------------------------------------------------------------

  class AhuChiller {
    const names: PointNames
    const fan: Fan
    const coil: CoolingCoil
    var minOaf: real
    var vavFlag: bool
    var hasEconomizer: bool
    var economizerLimit: real
    var mDotAir: real
    var satSetpoint: real
    var buildingChiller: bool
    var tsetAvg: real
    /** Discharge setpoint; `None` while the attribute has never been assigned. */
    var tDis: Option<real>
    var sfs: Option<real>
    var mat: Option<real>
    var dat: Option<real>
    var saf: Option<real>
    var oat: Option<real>
    var rat: Option<real>
    var oad: Option<real>

    /**
     * `ahuchiller.__init__`: defaults, no telemetry, then the fan and the coil.
     * `equipment_configuration` is not run here, so `tDis` stays unbound and the
     * coil is built with the owner's default economizer settings.
     */
    constructor (modelConf: ModelConf, names: PointNames)
      requires InitModel(FanSection(modelConf)).Success?
      ensures this.names == names && fresh(fan) && fresh(coil)
      ensures minOaf == DefaultMinOaf && vavFlag && hasEconomizer && economizerLimit == 0.0
      ensures mDotAir == 0.0 && satSetpoint == 0.0 && buildingChiller && tsetAvg == 0.0
      ensures tDis.None?
      ensures forall p :: Reading(p).None?
      ensures fan.coefficientDict == InitModel(FanSection(modelConf)).value
      ensures fan.coefficientGroupBy == FanSection(modelConf).coefficientGroupBy
      ensures fan.coefficientGroupDefault == FanSection(modelConf).coefficientGroupDefault.GetOr(DefaultGroupValue)
      ensures fan.Current() == Coeffs(0.0, 0.0, 0.0, 0.0)
      ensures coil.cpAir == CoilSection(modelConf).cpAir.GetOr(DefaultCpAir)
      ensures coil.cop == CoilSection(modelConf).cop.GetOr(DefaultCop)
      ensures coil.hasEconomizer && coil.economizerLimit == 0.0
      ensures coil.minOaf == DefaultMinOaf && coil.avgVavSp == 0.0
      ensures coil.mat == Some(0.0) && coil.dat == Some(0.0) && coil.oat == Some(0.0)
      ensures coil.airflow == 0.0 && coil.datSp == 0.0
    {
      this.names := names;
      minOaf := DefaultMinOaf;
      vavFlag := true;
      hasEconomizer := true;
      economizerLimit := 0.0;
      mDotAir := 0.0;
      satSetpoint := 0.0;
      buildingChiller := true;
      tsetAvg := 0.0;
      tDis := None;
      sfs, mat, dat, saf, oat, rat, oad := None, None, None, None, None, None, None;
      fan := new Fan(FanSection(modelConf));
      coil := new CoolingCoil(CoilSection(modelConf), true, 0.0, DefaultMinOaf, 0.0);
    }

    /** The telemetry attribute `p` (what `getattr` on the owner gives for it). */
    function Reading(p: Point): Option<real>
      reads this
    {
      match p
      case SFS => sfs
      case MAT => mat
      case DAT => dat
      case SAF => saf
      case OAT => oat
      case RAT => rat
      case OAD => oad
    }

    /** The air-side state the coil copies. */
    function Snapshot(): (s: AirSnapshot)
      reads this
      ensures s.oat == oat && s.dat == dat && s.mat == mat && s.mDotAir == mDotAir && s.tDis == tDis
    {
      AirSnapshot(oat, dat, mat, mDotAir, tDis)
    }

    /** Fan power floored at zero. */
    function FanPower(): (r: real)
      reads this, fan
      ensures r >= 0.0
      ensures r >= fan.CalculatePower(mDotAir)
      ensures r == 0.0 || r == fan.CalculatePower(mDotAir)
    {
      Max(fan.CalculatePower(mDotAir), 0.0)
    }

    /**
     * `fan.update_current_coefficients` as the owner provides it: the reading is
     * the owner's attribute named by the fan's grouping attribute, if it has one.
     */
    method UpdateFanCoefficients() returns (ok: bool)
      requires fan.coefficientGroupBy.Some? || |fan.coefficientDict| <= 1
      modifies fan
      ensures ok <==> |fan.coefficientDict| > 0
      ensures ok ==> fan.Current() == fan.coefficientDict[SelectGroup(fan.coefficientDict, GroupingMeasurement())].1
      ensures !ok ==> fan.Current() == old(fan.Current())
    {
      var reading := if fan.coefficientGroupBy.Some? then Reading(fan.coefficientGroupBy.value) else None;
      ok := fan.UpdateCurrentCoefficients(reading);
    }

    /** The value the fan groups by: the owner's grouping attribute, or the fan's default when that is unset. */
    function GroupingMeasurement(): (m: real)
      reads this, fan
      ensures fan.coefficientGroupBy.Some? && Reading(fan.coefficientGroupBy.value).Some? ==>
                m == Reading(fan.coefficientGroupBy.value).value
      ensures (fan.coefficientGroupBy.None? || Reading(fan.coefficientGroupBy.value).None?) ==>
                m == fan.coefficientGroupDefault
    {
      fan.Measurement(if fan.coefficientGroupBy.Some? then Reading(fan.coefficientGroupBy.value) else None)
    }

    /**
     * `equipment_configuration`: assigns the settings one by one in the source's
     * order. A missing required key raises there; the settings assigned before it
     * stay, the later ones and `tDis` keep their old values. The coil's copies of
     * the economizer settings are not refreshed.
     */
    method EquipmentConfiguration(conf: EquipmentConf) returns (missing: Option<string>)
      modifies this`minOaf, this`vavFlag, this`satSetpoint, this`buildingChiller,
               this`tsetAvg, this`hasEconomizer, this`economizerLimit, this`tDis
      ensures missing == MissingEquipmentKey(conf)
      ensures minOaf == conf.minimumOaf.GetOr(DefaultMinOaf)
      ensures vavFlag == conf.variableVolume.GetOr(true)
      ensures satSetpoint == conf.supplyAirSetpoint.GetOr(old(satSetpoint))
      ensures buildingChiller ==
                if conf.supplyAirSetpoint.Some? then conf.buildingChiller.GetOr(old(buildingChiller))
                else old(buildingChiller)
      ensures tsetAvg ==
                if conf.supplyAirSetpoint.Some? && conf.buildingChiller.Some?
                then conf.nominalZoneSetpoint.GetOr(old(tsetAvg)) else old(tsetAvg)
      ensures hasEconomizer ==
                if conf.supplyAirSetpoint.Some? && conf.buildingChiller.Some? && conf.nominalZoneSetpoint.Some?
                then conf.hasEconomizer.GetOr(old(hasEconomizer)) else old(hasEconomizer)
      ensures economizerLimit ==
                if conf.supplyAirSetpoint.Some? && conf.buildingChiller.Some? && conf.nominalZoneSetpoint.Some?
                   && conf.hasEconomizer.Some?
                then (if conf.hasEconomizer.value then conf.economizerLimit.GetOr(old(economizerLimit)) else 0.0)
                else old(economizerLimit)
      ensures tDis == if missing.None? then Some(satSetpoint) else old(tDis)
      ensures unchanged(coil, fan)
    {
      minOaf := conf.minimumOaf.GetOr(DefaultMinOaf);
      vavFlag := conf.variableVolume.GetOr(true);
      if conf.supplyAirSetpoint.None? { return Some("supply_air_setpoint"); }
      satSetpoint := conf.supplyAirSetpoint.value;
      if conf.buildingChiller.None? { return Some("building_chiller"); }
      buildingChiller := conf.buildingChiller.value;
      if conf.nominalZoneSetpoint.None? { return Some("nominal_zone_setpoint"); }
      tsetAvg := conf.nominalZoneSetpoint.value;
      if conf.hasEconomizer.None? { return Some("has_economizer"); }
      hasEconomizer := conf.hasEconomizer.value;
      if hasEconomizer {
        if conf.economizerLimit.None? { return Some("economizer_limit"); }
        economizerLimit := conf.economizerLimit.value;
      } else {
        economizerLimit := 0.0;
      }
      tDis := Some(satSetpoint);
      missing := None;
    }

    /** `update_data`: each telemetry attribute becomes the accessor's value for its name, absent when missing. */
    method UpdateData(inputs: map<string, real>)
      modifies this`sfs, this`mat, this`dat, this`saf, this`oat, this`rat, this`oad
      ensures forall p :: Reading(p) == Lookup(inputs, names.Of(p))
    {
      sfs := Lookup(inputs, names.sfs);
      mat := Lookup(inputs, names.mat);
      dat := Lookup(inputs, names.dat);
      saf := Lookup(inputs, names.saf);
      oat := Lookup(inputs, names.oat);
      rat := Lookup(inputs, names.rat);
      oad := Lookup(inputs, names.oad);
    }

    /**
     * `input_zone_load`: a variable-air-volume unit takes the input as its air
     * flow; a constant-volume unit takes it as discharge setpoint and discharge
     * temperature. Nothing else changes.
     */
    method InputZoneLoad(q: real)
      modifies this`mDotAir, this`tDis, this`dat
      ensures vavFlag ==> mDotAir == q && tDis == old(tDis) && dat == old(dat)
      ensures !vavFlag ==> tDis == Some(q) && dat == Some(q) && mDotAir == old(mDotAir)
    {
      if vavFlag {
        mDotAir := q;
      } else {
        tDis := Some(q);
        dat := Some(q);
      }
    }

    /**
     * The outcome of `calculate_total_power(outdoor, realtime)` in the current
     * state, given the coil's setpoint before the call: with no chiller the
     * floored fan power alone; with a chiller the coil's refreshed power plus the
     * floored fan power. A missing outdoor temperature falls back on the owner's.
     */
    ghost predicate TotalPowerOutcome(outdoor: Option<real>, realtime: bool, priorDatSp: real,
                                      r: Result<real, PowerError>)
      reads this, fan, coil
    {
      if !buildingChiller then r == Success(FanPower())
      else
        && coil.Refreshed(Snapshot(), priorDatSp)
        && (if tDis.None? then r == Failure(DischargeSetpointUnbound)
            else if coil.cop == 0.0 then r == Failure(ZeroCop)
            else r == Success(coil.Power(coil.Load(if outdoor.Some? then outdoor else oat, realtime)) + FanPower()))
    }

    /** `calculate_total_power`. It changes only the coil's caches, and only when there is a chiller. */
    method CalculateTotalPower(outdoor: Option<real>, realtime: bool) returns (r: Result<real, PowerError>)
      modifies coil
      ensures TotalPowerOutcome(outdoor, realtime, old(coil.datSp), r)
      ensures !buildingChiller ==> unchanged(coil)
      ensures r.Success? && (buildingChiller ==> coil.cop > 0.0) ==> r.value >= 0.0
    {
      var fanPower := fan.CalculatePower(mDotAir);
      var o := if outdoor.Some? then outdoor else oat;
      if buildingChiller {
        var coilLoad := coil.CalculateLoad(Snapshot(), o, realtime);
        if coilLoad.Failure? {
          return Failure(coilLoad.error);
        }
        r := Success(coilLoad.value + Max(fanPower, 0.0));
      } else {
        r := Success(0.0 + Max(fanPower, 0.0));
      }
    }

    /** `calculate_load`: applies the zone load, then computes the total power in the new state. */
    method CalculateLoad(q: real, outdoor: Option<real>, realtime: bool) returns (r: Result<real, PowerError>)
      modifies this`mDotAir, this`tDis, this`dat, coil
      ensures vavFlag ==> mDotAir == q && tDis == old(tDis) && dat == old(dat)
      ensures !vavFlag ==> tDis == Some(q) && dat == Some(q) && mDotAir == old(mDotAir)
      ensures TotalPowerOutcome(outdoor, realtime, old(coil.datSp), r)
      ensures !buildingChiller ==> unchanged(coil)
      ensures r.Success? && (buildingChiller ==> coil.cop > 0.0) ==> r.value >= 0.0
    {
      InputZoneLoad(q);
      r := CalculateTotalPower(outdoor, realtime);
    }
  }

  /**
   * A constant-volume unit in real-time mode after zone load `q`: the coil's
   * measured discharge temperature is `q`, so its load is the flow times the
   * specific heat times `q` minus the mixed air, capped at zero.
   */
  lemma ConstantVolumeFeedsDischarge(a: AhuChiller, q: real, outdoor: Option<real>, priorDatSp: real,
                                     r: Result<real, PowerError>)
    requires a.buildingChiller && a.tDis == Some(q) && a.dat == Some(q) && a.mat.Some?
    requires a.coil.cop != 0.0
    requires a.TotalPowerOutcome(outdoor, true, priorDatSp, r)
    ensures a.coil.datSp == q
    ensures r == Success(a.coil.Power(Min(0.0, a.mDotAir * a.coil.cpAir * (q - a.mat.value))) + a.FanPower())
  {
    assert a.coil.Refreshed(a.Snapshot(), priorDatSp);
    assert a.coil.dat == Some(q) && a.coil.mat == a.mat && a.coil.airflow == a.mDotAir;
    assert a.coil.Load(if outdoor.Some? then outdoor else a.oat, true) == a.coil.CurrentCoilLoad();
    assert a.coil.CurrentCoilLoad() == Min(0.0, a.mDotAir * a.coil.cpAir * (q - a.mat.value));
  }
}
