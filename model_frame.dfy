/**
 * The model registry: it walks the configuration entries, resolves each
 * entry's `model_type` ("<family>.<class>") through a closed table of device
 * model kinds, builds the model and stores it under the entry's topic, and routes
 * prediction requests to the stored model.
 *
 * The source resolves the family by importing a module and the class by
 * attribute lookup; here both are the table `LookupFamily`.
 */
module ModelFrame {
  import opened Common
  import A = AhuChillerModels
  import T = ThermostatModels

  // ---------------------------------------------------------------------------
  // Splitting the model type
  // ---------------------------------------------------------------------------

  /** Python's `s.split(sep)` for a one-character separator: the pieces between separators, empty ones included. */
  function Split(s: string, sep: char): (parts: seq<string>)
    ensures |parts| >= 1
    decreases |s|
  {
    if |s| == 0 then [""]
    else
      var rest := Split(s[1..], sep);
      if s[0] == sep then [""] + rest
      else [[s[0]] + rest[0]] + rest[1..]
  }

  /** Python's `sep.join(parts)`. */
  function Join(parts: seq<string>, sep: char): string
    requires |parts| >= 1
    decreases |parts|
  {
    if |parts| == 1 then parts[0] else parts[0] + [sep] + Join(parts[1..], sep)
  }

  function Occurrences(s: string, c: char): nat
    decreases |s|
  {
    if |s| == 0 then 0 else (if s[0] == c then 1 else 0) + Occurrences(s[1..], c)
  }

  /** Joining the pieces gives the string back. */
  lemma {:induction false} SplitJoin(s: string, sep: char)
    ensures Join(Split(s, sep), sep) == s
    decreases |s|
  {
    if |s| > 0 {
      SplitJoin(s[1..], sep);
      var rest := Split(s[1..], sep);
      if s[0] == sep {
        assert Split(s, sep) == [""] + rest;
        assert ([""] + rest)[1..] == rest;
        assert Join([""] + rest, sep) == "" + [sep] + Join(rest, sep);
      } else if |rest| == 1 {
        assert Split(s, sep) == [[s[0]] + rest[0]];
      } else {
        var parts := [[s[0]] + rest[0]] + rest[1..];
        assert parts[1..] == rest[1..];
        assert Join(rest, sep) == rest[0] + [sep] + Join(rest[1..], sep);
        assert Join(parts, sep) == [s[0]] + rest[0] + [sep] + Join(rest[1..], sep);
        assert s == [s[0]] + s[1..];
      }
    }
  }

  /** There is one piece more than there are separators. */
  lemma {:induction false} SplitCount(s: string, sep: char)
    ensures |Split(s, sep)| == Occurrences(s, sep) + 1
    decreases |s|
  {
    if |s| > 0 {
      SplitCount(s[1..], sep);
    }
  }

  /** No piece contains the separator. */
  lemma {:induction false} SplitPiecesFree(s: string, sep: char)
    ensures forall i :: 0 <= i < |Split(s, sep)| ==> sep !in Split(s, sep)[i]
    decreases |s|
  {
    if |s| > 0 {
      SplitPiecesFree(s[1..], sep);
      var rest := Split(s[1..], sep);
      if s[0] != sep {
        var parts := [[s[0]] + rest[0]] + rest[1..];
        assert sep !in [s[0]] + rest[0];
        forall i | 0 <= i < |parts| ensures sep !in parts[i] {
          if i > 0 { assert parts[i] == rest[i]; }
        }
      }
    }
  }

  /** A string free of the separator is one piece. */
  lemma {:induction false} SplitFree(a: string, sep: char)
    requires sep !in a
    ensures Split(a, sep) == [a]
    decreases |a|
  {
    if |a| > 0 {
      assert sep !in a[1..];
      SplitFree(a[1..], sep);
      assert [a[0]] + a[1..] == a;
    }
  }

  /** A separator-free prefix followed by the separator splits off as the first piece. */
  lemma {:induction false} SplitPrefix(a: string, sep: char, rest: string)
    requires sep !in a
    ensures Split(a + [sep] + rest, sep) == [a] + Split(rest, sep)
    decreases |a|
  {
    if |a| == 0 {
      assert a + [sep] + rest == [sep] + rest;
      assert ([sep] + rest)[1..] == rest;
    } else {
      assert sep !in a[1..];
      SplitPrefix(a[1..], sep, rest);
      var s := a + [sep] + rest;
      assert s[0] == a[0];
      assert s[1..] == a[1..] + [sep] + rest;
      assert [a[0]] + a[1..] == a;
    }
  }

  /** Splitting a join of separator-free pieces gives the pieces back. */
  lemma {:induction false} JoinSplit(parts: seq<string>, sep: char)
    requires |parts| >= 1
    requires forall i :: 0 <= i < |parts| ==> sep !in parts[i]
    ensures Split(Join(parts, sep), sep) == parts
    decreases |parts|
  {
    if |parts| == 1 {
      SplitFree(parts[0], sep);
    } else {
      JoinSplit(parts[1..], sep);
      SplitPrefix(parts[0], sep, Join(parts[1..], sep));
      assert [parts[0]] + parts[1..] == parts;
    }
  }

  /** `model_type` splits into exactly two pieces when, and only when, it holds exactly one dot. */
  lemma TwoPiecesIffOneDot(modelType: string)
    ensures |Split(modelType, '.')| == 2 <==> Occurrences(modelType, '.') == 1
  {
    SplitCount(modelType, '.');
  }

  // ---------------------------------------------------------------------------
  // Resolving the model type
  // ---------------------------------------------------------------------------

  /** The device-model implementations the registry can build. */
  datatype ModelKind = ThermostatKind | AhuChillerKind

  /** Why building the registry raised. */
  datatype ConfigError =
    | MissingKey(key: string)          // KeyError on a required entry key
    | MalformedModelType(pieces: nat)  // `model_type` does not split into (family, class)
    | UnknownModule(family: string)    // the family names no model module
    | UnknownClass(name: string)       // the module has no such class
    | MissingModelConfiguration        // the AHU entry has no `model_configuration`
    | MissingFanCoefficients           // the fan has no coefficients (the source exits)

  /** The closed table from (family, class name) to a model kind. */
  function LookupFamily(family: string, className: string): (r: Result<ModelKind, ConfigError>)
    ensures r == Success(ThermostatKind) <==> family == "thermostat" && className == "Thermostat"
    ensures r == Success(AhuChillerKind) <==> family == "ahuchiller" && className == "ahuchiller"
    ensures r.Failure? && family !in {"thermostat", "ahuchiller"} ==> r == Failure(UnknownModule(family))
  {
    if family == "thermostat" then
      if className == "Thermostat" then Success(ThermostatKind) else Failure(UnknownClass(className))
    else if family == "ahuchiller" then
      if className == "ahuchiller" then Success(AhuChillerKind) else Failure(UnknownClass(className))
    else Failure(UnknownModule(family))
  }

  /** `_file, model_type = model_type.split(".")` followed by the table lookup. */
  function Resolve(modelType: string): (r: Result<ModelKind, ConfigError>)
    ensures |Split(modelType, '.')| != 2 ==> r == Failure(MalformedModelType(|Split(modelType, '.')|))
    ensures |Split(modelType, '.')| == 2 ==> r == LookupFamily(Split(modelType, '.')[0], Split(modelType, '.')[1])
  {
    var parts := Split(modelType, '.');
    if |parts| != 2 then Failure(MalformedModelType(|parts|)) else LookupFamily(parts[0], parts[1])
  }

  /** A model type written as family "." class, both free of dots, resolves through the table. */
  lemma ResolveJoined(family: string, className: string)
    requires '.' !in family && '.' !in className
    ensures Resolve(family + "." + className) == LookupFamily(family, className)
  {
    JoinSplit([family, className], '.');
    assert Join([family, className], '.') == family + "." + className;
  }

  /** The thermostat's model type resolves through the table. */
  lemma ResolveThermostat()
    ensures Resolve("thermostat.Thermostat") == Success(ThermostatKind)
  {
    var family, className := "thermostat", "Thermostat";
    assert '.' !in family && '.' !in className;
    ResolveJoined(family, className);
    assert family + "." + className == "thermostat.Thermostat";
  }

  /** The AHU and chiller model type resolves through the table. */
  lemma ResolveAhuChiller()
    ensures Resolve("ahuchiller.ahuchiller") == Success(AhuChillerKind)
  {
    var family := "ahuchiller";
    assert '.' !in family;
    ResolveJoined(family, family);
    assert family + "." + family == "ahuchiller.ahuchiller";
  }

  /** A model type without a dot is one piece, so it is malformed. */
  lemma ResolveWithoutDot(modelType: string)
    requires '.' !in modelType
    ensures Resolve(modelType) == Failure(MalformedModelType(1))
  {
    SplitFree(modelType, '.');
  }

  /** A model type with two dots or more is malformed, with one piece more than it has dots. */
  lemma ResolveExtraDots(modelType: string)
    requires Occurrences(modelType, '.') >= 2
    ensures Resolve(modelType) == Failure(MalformedModelType(Occurrences(modelType, '.') + 1))
  {
    SplitCount(modelType, '.');
  }

  // ---------------------------------------------------------------------------
  // Configuration entries
  // ---------------------------------------------------------------------------

  /**
   * One entry of the configuration list, with the keys the registry and the
   * model constructors read; an absent key is `None`.
   */
  datatype ConfigEntry = ConfigEntry(topic: Option<string>,
                                     modelType: Option<string>,
                                     c1: Option<seq<real>>, c2: Option<seq<real>>,
                                     c3: Option<seq<real>>, c4: Option<seq<real>>,
                                     ratedPower: Option<real>,
                                     demandCurvePoints: Option<int>,
                                     modelConfiguration: Option<A.ModelConf>)

  /** The kind an entry resolves to, when its topic and model type are present and resolvable. */
  function ResolvedKind(e: ConfigEntry): (r: Option<ModelKind>)
    ensures r.Some? ==> e.topic.Some? && e.modelType.Some? && Resolve(e.modelType.value) == Success(r.value)
  {
    if e.topic.Some? && e.modelType.Some? && Resolve(e.modelType.value).Success?
    then Some(Resolve(e.modelType.value).value) else None
  }

  /** What building a model of kind `kind` from `e` raises, if anything. */
  function InstantiateError(e: ConfigEntry, kind: ModelKind): (r: Option<ConfigError>)
    ensures kind == ThermostatKind ==>
              (r.None? <==> e.c1.Some? && e.c2.Some? && e.c3.Some? && e.c4.Some? && e.ratedPower.Some?)
    ensures kind == AhuChillerKind ==>
              (r.None? <==> e.modelConfiguration.Some? && A.InitModel(A.FanSection(e.modelConfiguration.value)).Success?)
  {
    match kind
    case ThermostatKind =>
      if e.c1.None? then Some(MissingKey("c1"))
      else if e.c2.None? then Some(MissingKey("c2"))
      else if e.c3.None? then Some(MissingKey("c3"))
      else if e.c4.None? then Some(MissingKey("c4"))
      else if e.ratedPower.None? then Some(MissingKey("rated_power"))
      else None
    case AhuChillerKind =>
      if e.modelConfiguration.None? then Some(MissingModelConfiguration)
      else if A.InitModel(A.FanSection(e.modelConfiguration.value)).Failure? then Some(MissingFanCoefficients)
      else None
  }

  /** What handling entry `e` raises, in the order the source meets the conditions; `None` when it builds. */
  function EntryError(e: ConfigEntry): (r: Option<ConfigError>)
    ensures e.topic.None? ==> r == Some(MissingKey("topic"))
    ensures e.topic.Some? && e.modelType.None? ==> r == Some(MissingKey("model_type"))
    ensures e.topic.Some? && e.modelType.Some? && Resolve(e.modelType.value).Failure? ==>
              r == Some(Resolve(e.modelType.value).error)
    ensures r.None? ==> ResolvedKind(e).Some? && InstantiateError(e, ResolvedKind(e).value).None?
  {
    if e.topic.None? then Some(MissingKey("topic"))
    else if e.modelType.None? then Some(MissingKey("model_type"))
    else
      var kind := Resolve(e.modelType.value);
      if kind.Failure? then Some(kind.error)
      else InstantiateError(e, kind.value)
  }

  /** The number of leading entries that build: the registry raises at entry `Built(es)` if that is an entry. */
  function Built(es: seq<ConfigEntry>): (k: nat)
    ensures k <= |es|
    ensures forall j :: 0 <= j < k ==> EntryError(es[j]).None?
    ensures k < |es| ==> EntryError(es[k]).Some?
    decreases |es|
  {
    if |es| == 0 then 0
    else if EntryError(es[0]).Some? then 0
    else 1 + Built(es[1..])
  }

  /** The entries of a configuration; a falsy one (absent or empty) has none. */
  function Entries(config: Option<seq<ConfigEntry>>): (es: seq<ConfigEntry>)
    ensures config.None? ==> es == []
    ensures config.Some? ==> es == config.value
  {
    if config.None? then [] else config.value
  }

  predicate HasTopics(es: seq<ConfigEntry>) {
    forall j :: 0 <= j < |es| ==> es[j].topic.Some?
  }

  /** Inserting the entries in order under their topics: a later entry replaces an earlier one with its topic. */
  function Inserted(es: seq<ConfigEntry>): map<string, ConfigEntry>
    requires HasTopics(es)
    decreases |es|
  {
    if |es| == 0 then map[]
    else Inserted(es[..|es| - 1])[es[|es| - 1].topic.value := es[|es| - 1]]
  }

  function Topics(es: seq<ConfigEntry>): set<string>
    requires HasTopics(es)
  {
    set j | 0 <= j < |es| :: es[j].topic.value
  }

  /** The keys are exactly the entries' topics. */
  lemma {:induction false} InsertedKeys(es: seq<ConfigEntry>)
    requires HasTopics(es)
    ensures Inserted(es).Keys == Topics(es)
    decreases |es|
  {
    if |es| > 0 {
      var init := es[..|es| - 1];
      InsertedKeys(init);
      assert Topics(es) == Topics(init) + {es[|es| - 1].topic.value} by {
        forall x | x in Topics(es) ensures x in Topics(init) + {es[|es| - 1].topic.value} {
          var j :| 0 <= j < |es| && es[j].topic.value == x;
          if j < |es| - 1 { assert init[j] == es[j]; }
        }
        forall x | x in Topics(init) ensures x in Topics(es) {
          var j :| 0 <= j < |init| && init[j].topic.value == x;
          assert es[j] == init[j];
        }
      }
    }
  }

  /** A topic maps to the last entry that carries it. */
  lemma {:induction false} InsertedLastWins(es: seq<ConfigEntry>, j: nat)
    requires HasTopics(es) && j < |es|
    requires forall k :: j < k < |es| ==> es[k].topic != es[j].topic
    ensures es[j].topic.value in Inserted(es)
    ensures Inserted(es)[es[j].topic.value] == es[j]
    decreases |es|
  {
    if j < |es| - 1 {
      var init := es[..|es| - 1];
      assert init[j] == es[j];
      forall k | j < k < |init| ensures init[k].topic != init[j].topic {
        assert init[k] == es[k];
      }
      InsertedLastWins(init, j);
    }
  }

  /** When building fails at entry k, every earlier entry's topic is already stored. */
  lemma PrefixTopicsStored(es: seq<ConfigEntry>, k: nat, j: nat)
    requires k <= |es| && HasTopics(es[..k]) && j < k
    ensures es[j].topic.value in Inserted(es[..k])
  {
    InsertedKeys(es[..k]);
    assert es[..k][j] == es[j];
  }

  // ---------------------------------------------------------------------------
  // The registry
  // ---------------------------------------------------------------------------

  /** A stored device model. */
  datatype DeviceModel = ThermostatModel(t: T.Thermostat) | AhuChillerModel(a: A.AhuChiller) {
    function Object(): object {
      match this
      case ThermostatModel(t) => t
      case AhuChillerModel(a) => a
    }

    /** The objects that hold the model's state: an AHU's fan and coil with it. */
    function Footprint(): set<object> {
      match this
      case ThermostatModel(t) => {t}
      case AhuChillerModel(a) => {a, a.fan, a.coil}
    }
  }

  /** The measurement names the AHU model is built with, passed through. */
  type Names = A.PointNames

  /** `dm` is the model the source builds for entry `e` (on the configuration the model keeps). */
  predicate Instantiates(dm: DeviceModel, e: ConfigEntry, names: Names) {
    && EntryError(e).None?
    && match dm
       case ThermostatModel(t) =>
         && ResolvedKind(e) == Some(ThermostatKind)
         && t.c1 == e.c1.value && t.c2 == e.c2.value && t.c3 == e.c3.value && t.c4 == e.c4.value
         && t.ratedPower == e.ratedPower.value && t.nPoints == e.demandCurvePoints && t.topic == e.topic
       case AhuChillerModel(a) =>
         && ResolvedKind(e) == Some(AhuChillerKind)
         && a.names == names
         && a.fan.coefficientDict == A.InitModel(A.FanSection(e.modelConfiguration.value)).value
         && a.fan.coefficientGroupBy == A.FanSection(e.modelConfiguration.value).coefficientGroupBy
         && a.fan.coefficientGroupDefault ==
              A.FanSection(e.modelConfiguration.value).coefficientGroupDefault.GetOr(A.DefaultGroupValue)
         && a.coil.cpAir == A.CoilSection(e.modelConfiguration.value).cpAir.GetOr(A.DefaultCpAir)
         && a.coil.cop == A.CoilSection(e.modelConfiguration.value).cop.GetOr(A.DefaultCop)
         && a.coil.hasEconomizer && a.coil.economizerLimit == 0.0
         && a.coil.minOaf == A.DefaultMinOaf && a.coil.avgVavSp == 0.0
  }

  /**
   * The mutable state of a model as its constructor leaves it. A thermostat has
   * zero readings, no timestamp and a clear error flag. An AHU has its default
   * settings, no telemetry and an unbound `tDis`; its fan holds zero coefficients
   * and its coil zero caches.
   */
  predicate Initial(dm: DeviceModel)
    reads dm.Footprint()
  {
    match dm
    case ThermostatModel(t) =>
      t.oat == 0.0 && t.csp == 0.0 && t.roomTemp == 0.0 && t.currentTime.None? && !t.error
    case AhuChillerModel(a) =>
      && a.minOaf == A.DefaultMinOaf && a.vavFlag && a.hasEconomizer && a.economizerLimit == 0.0
      && a.mDotAir == 0.0 && a.satSetpoint == 0.0 && a.buildingChiller && a.tsetAvg == 0.0
      && a.tDis.None? && (forall p :: a.Reading(p).None?)
      && a.fan.Current() == A.Coeffs(0.0, 0.0, 0.0, 0.0)
      && a.coil.mat == Some(0.0) && a.coil.dat == Some(0.0) && a.coil.oat == Some(0.0)
      && a.coil.airflow == 0.0 && a.coil.datSp == 0.0
  }

  /** What `self.model_class` holds after a build that stopped at entry `k`. */
  function LastClass(es: seq<ConfigEntry>, k: nat, prior: Option<ModelKind>): Option<ModelKind>
    requires k <= |es|
  {
    if k < |es| && ResolvedKind(es[k]).Some? then ResolvedKind(es[k])
    else if k > 0 then ResolvedKind(es[k - 1])
    else prior
  }

  /**
   * `models` is what inserting the first `k` entries builds: one model per
   * topic, the one built from the last of those entries with that topic.
   */
  predicate Stored(models: map<string, DeviceModel>, es: seq<ConfigEntry>, k: nat, names: Names)
    requires k <= |es|
  {
    && HasTopics(es[..k])
    && models.Keys == Inserted(es[..k]).Keys
    && (forall t :: t in models ==> Instantiates(models[t], Inserted(es[..k])[t], names))
  }

  /** Storing the model built from entry `k` extends what the first `k` entries build to the first `k + 1`. */
  lemma StoredStep(models: map<string, DeviceModel>, es: seq<ConfigEntry>, k: nat, dm: DeviceModel, names: Names)
    requires k < |es| && Stored(models, es, k, names)
    requires es[k].topic.Some? && Instantiates(dm, es[k], names)
    ensures Stored(models[es[k].topic.value := dm], es, k + 1, names)
  {
    assert es[..k + 1][..k] == es[..k];
    assert es[..k + 1][k] == es[k];
    assert Inserted(es[..k + 1]) == Inserted(es[..k])[es[k].topic.value := es[k]];
  }

  /** Built(es) is the first entry that fails, or |es| when none does. */
  lemma BuiltStopsAt(es: seq<ConfigEntry>, k: nat)
    requires k <= |es|
    requires forall j :: 0 <= j < k ==> EntryError(es[j]).None?
    requires k < |es| ==> EntryError(es[k]).Some?
    ensures Built(es) == k
  {
    if k == |es| {
      assert es[..k] == es;
    }
  }

  /**
   * The registry after walking `es`: it raised at the first entry that fails
   * (none when all build), holds what inserting the entries before that one
   * builds, and `model_class` is the last kind resolved (`prior` when none was).
   */
  predicate Configured(models: map<string, DeviceModel>, modelClass: Option<ModelKind>, err: Option<ConfigError>,
                       es: seq<ConfigEntry>, names: Names, prior: Option<ModelKind>)
  {
    var k := Built(es);
    && err == (if k == |es| then None else EntryError(es[k]))
    && Stored(models, es, k, names)
    && modelClass == LastClass(es, k, prior)
  }

  /** The registry after the first `i` entries of `es` have all built and been stored. */
  predicate Walked(models: map<string, DeviceModel>, modelClass: Option<ModelKind>,
                   es: seq<ConfigEntry>, i: nat, names: Names, prior: Option<ModelKind>)
  {
    && i <= |es|
    && (forall j :: 0 <= j < i ==> EntryError(es[j]).None?)
    && Stored(models, es, i, names)
    && modelClass == (if i == 0 then prior else ResolvedKind(es[i - 1]))
  }

  /** Entry `i` builds into `dm`: storing it walks one entry further. */
  lemma WalkStep(models: map<string, DeviceModel>, modelClass: Option<ModelKind>, es: seq<ConfigEntry>, i: nat,
                 dm: DeviceModel, names: Names, prior: Option<ModelKind>)
    requires i < |es| && Walked(models, modelClass, es, i, names, prior)
    requires Instantiates(dm, es[i], names)
    ensures es[i].topic.Some? && ResolvedKind(es[i]).Some?
    ensures Walked(models[es[i].topic.value := dm], ResolvedKind(es[i]), es, i + 1, names, prior)
  {
    StoredStep(models, es, i, dm, names);
  }

  /** Entry `i` fails: the walk ends there, with the kind entry `i` resolved to recorded if it resolved. */
  lemma WalkFails(models: map<string, DeviceModel>, modelClass: Option<ModelKind>, es: seq<ConfigEntry>, i: nat,
                  names: Names, prior: Option<ModelKind>)
    requires i < |es| && Walked(models, modelClass, es, i, names, prior)
    requires EntryError(es[i]).Some?
    ensures Configured(models, if ResolvedKind(es[i]).Some? then ResolvedKind(es[i]) else modelClass,
                       EntryError(es[i]), es, names, prior)
  {
    BuiltStopsAt(es, i);
  }

  /** Every entry built: the walk completes without an error. */
  lemma WalkDone(models: map<string, DeviceModel>, modelClass: Option<ModelKind>, es: seq<ConfigEntry>,
                 names: Names, prior: Option<ModelKind>)
    requires Walked(models, modelClass, es, |es|, names, prior)
    ensures Configured(models, modelClass, None, es, names, prior)
  {
    BuiltStopsAt(es, |es|);
  }

  /** A prediction: the neutral scalar 0 or a demand curve. */
  datatype Quantity = Scalar(value: real) | Curve(points: seq<real>)

  /** Why a prediction raised: the thermostat's own error, or a model kind without `predict`. */
  datatype PredictFailure = ThermostatFailure(error: T.PredictError) | NoPredictMethod

  function CurveQuantity(r: Result<seq<real>, T.PredictError>): Result<Quantity, PredictFailure> {
    match r
    case Success(points) => Success(Curve(points))
    case Failure(e) => Failure(ThermostatFailure(e))
  }

  /** Builds the model of kind `kind` for entry `e`. */
  method Instantiate(e: ConfigEntry, kind: ModelKind, names: Names) returns (r: Result<DeviceModel, ConfigError>)
    requires ResolvedKind(e) == Some(kind)
    ensures r.Failure? <==> EntryError(e).Some?
    ensures r.Failure? ==> EntryError(e) == Some(r.error)
    ensures r.Success? ==> Instantiates(r.value, e, names) && fresh(r.value.Object())
    ensures r.Success? ==> Initial(r.value)
  {
    var err := InstantiateError(e, kind);
    if err.Some? {
      return Failure(err.value);
    }
    match kind
    case ThermostatKind =>
      var t := new T.Thermostat(e.c1.value, e.c2.value, e.c3.value, e.c4.value,
                                e.ratedPower.value, e.demandCurvePoints, e.topic);
      r := Success(ThermostatModel(t));
    case AhuChillerKind =>
      var a := new A.AhuChiller(e.modelConfiguration.value, names);
      r := Success(AhuChillerModel(a));
  }

  /**
   * One pass of the registry's loop before the insertion: checks the `topic`
   * and `model_type` keys, resolves the type (reporting the kind it resolved,
   * which the source records in `model_class` before building), then builds
   * the model.
   */
  method BuildEntry(e: ConfigEntry, names: Names) returns (kind: Option<ModelKind>, r: Result<DeviceModel, ConfigError>)
    ensures kind == ResolvedKind(e)
    ensures r.Failure? <==> EntryError(e).Some?
    ensures r.Failure? ==> EntryError(e) == Some(r.error)
    ensures r.Success? ==> Instantiates(r.value, e, names) && fresh(r.value.Object())
    ensures r.Success? ==> Initial(r.value)
  {
    if e.topic.None? {
      return None, Failure(MissingKey("topic"));
    }
    if e.modelType.None? {
      return None, Failure(MissingKey("model_type"));
    }
    var resolved := Resolve(e.modelType.value);
    if resolved.Failure? {
      return None, Failure(resolved.error);
    }
    kind := Some(resolved.value);
    r := Instantiate(e, resolved.value, names);
  }

  class Registry {
    var models: map<string, DeviceModel>
    var clearedQuantity: Option<real>
    var modelClass: Option<ModelKind>

    /** The registry before its configuration is walked. */
    constructor ()
      ensures models == map[] && clearedQuantity.None? && modelClass.None?
    {
      models := map[];
      clearedQuantity := None;
      modelClass := None;
    }

    /**
     * The body of `Model.__init__`: empties the map, then builds and stores the
     * entries in order. It returns the error the source raises, if any; the
     * models built before the failing entry stay stored.
     */
    method Configure(config: Option<seq<ConfigEntry>>, names: Names) returns (err: Option<ConfigError>)
      modifies this
      ensures clearedQuantity.None?
      ensures Configured(models, modelClass, err, Entries(config), names, old(modelClass))
      ensures forall t :: t in models ==> fresh(models[t].Object())
    {
      models := map[];
      clearedQuantity := None;
      var es := Entries(config);
      ghost var prior := modelClass;
      var i := 0;
      while i < |es|
        invariant 0 <= i <= |es|
        invariant clearedQuantity.None?
        invariant Walked(models, modelClass, es, i, names, prior)
        invariant forall t :: t in models ==> fresh(models[t].Object())
        decreases |es| - i
      {
        ghost var before := modelClass;
        var kind, m := BuildEntry(es[i], names);
        if kind.Some? {
          modelClass := kind;
        }
        if m.Failure? {
          WalkFails(models, before, es, i, names, prior);
          return Some(m.error);
        }
        WalkStep(models, before, es, i, m.value, names, prior);
        models := models[es[i].topic.value := m.value];
        i := i + 1;
      }
      WalkDone(models, modelClass, es, names, prior);
      err := None;
    }

    /**
     * `get_q`: the stored model's prediction, made with no parameters whatever
     * the caller passes; an unknown topic gives 0. `ahuchiller` defines no
     * `predict`, and that failure is not caught.
     */
    method GetQ(topic: string, parms: Option<T.Parameters>) returns (q: Result<Quantity, PredictFailure>)
      ensures topic !in models ==> q == Success(Scalar(0.0))
      ensures topic in models && models[topic].ThermostatModel? ==> q == CurveQuantity(models[topic].t.Curve())
      ensures topic in models && models[topic].AhuChillerModel? ==> q == Failure(NoPredictMethod)
    {
      if topic !in models {
        return Success(Scalar(0.0));
      }
      match models[topic]
      case ThermostatModel(t) =>
        var r := t.Predict(None);
        q := CurveQuantity(r);
      case AhuChillerModel(_) =>
        q := Failure(NoPredictMethod);
    }
  }

  /** A falsy configuration leaves the registry empty. */
  lemma EmptyConfigBuildsNothing(config: Option<seq<ConfigEntry>>)
    requires config.None? || config.value == []
    ensures Built(Entries(config)) == 0 && Inserted(Entries(config)[..0]) == map[]
  {
  }

  /** A successful build stores exactly the entries' topics. */
  lemma SuccessStoresAllTopics(es: seq<ConfigEntry>)
    requires Built(es) == |es|
    ensures HasTopics(es)
    ensures Inserted(es).Keys == Topics(es)
  {
    InsertedKeys(es);
  }

  /** A newly built thermostat has no timestamp yet, so asking the registry for its prediction fails. */
  lemma NewThermostatCannotPredict(dm: DeviceModel)
    requires dm.ThermostatModel? && Initial(dm)
    ensures CurveQuantity(dm.t.Curve()) == Failure(ThermostatFailure(T.NoTimestamp))
  {
  }
}
