/**
 * The per-step component layer of the real-time controller: each plant reads
 * its forecast value for the step, its sizing and, for storage, its state of
 * charge, target and step length; computes integer bounds; and registers
 * named integral variables (and, for storage, two deviation constraints) into
 * the shared model.
 */
module Lincomps {
  import opened Wrappers
  import opened Constants
  import opened PyMath
  import opened Registry

  /** What a component can raise while it is built or registered. */
  datatype Error =
    | NotImplemented                 // the base `define_variables`
    | ZeroDivision                   // a bound formula divides by a zero efficiency or step length
    | MissingVariable(name: string)  // `model.variables[name]` found no such variable

  datatype Bounds = Bounds(lower: int, upper: int)

  /** The absolute limit of the balancing slack. */
  const BALANCING_POWER: int := 10000000000

  /** The quantity a market variable is pinned at: nothing bought or sold yet. */
  const MARKET_POWER: int := 0

  // ---------------------------------------------------------------------
  // Variable names
  // ---------------------------------------------------------------------

  /** `{name}_{comp_type}_{attribute}`: the plant name, then the component type, then the attribute. */
  function VarName(name: string, compType: string, attribute: string): (r: string)
    ensures |r| == |name| + |compType| + |attribute| + 2
    ensures r[..|name|] == name && r[|name|] == '_'
    ensures r[|name| + 1..|name| + 1 + |compType|] == compType
    ensures r[|r| - |attribute| - 1] == '_' && r[|r| - |attribute|..] == attribute
  {
    name + "_" + compType + "_" + attribute
  }

  /** One component's names differ in every attribute, in particular per carrier. */
  lemma VarNameAttributeInjective(name: string, compType: string, a1: string, a2: string)
    requires a1 != a2
    ensures VarName(name, compType, a1) != VarName(name, compType, a2)
  {
    var prefix := name + "_" + compType + "_";
    assert VarName(name, compType, a1)[|prefix|..] == a1;
    assert VarName(name, compType, a2)[|prefix|..] == a2;
  }

  /** The first underscore of `n + "_" + rest` is the one after `n`, when `n` has none. */
  lemma FirstUnderscore(n: string, rest: string)
    requires '_' !in n
    ensures (n + "_" + rest)[|n|] == '_'
    ensures forall i | 0 <= i < |n| :: (n + "_" + rest)[i] != '_'
  {
  }

  /**
   * When plant names contain no underscore, a name determines the plant and
   * the component type (which may contain underscores, e.g. `fixed_gen`).
   */
  lemma VarNameInjective(n1: string, c1: string, n2: string, c2: string, attribute: string)
    requires '_' !in n1 && '_' !in n2
    requires VarName(n1, c1, attribute) == VarName(n2, c2, attribute)
    ensures n1 == n2 && c1 == c2
  {
    var w := VarName(n1, c1, attribute);
    assert w == n1 + "_" + (c1 + "_" + attribute);
    assert w == n2 + "_" + (c2 + "_" + attribute);
    FirstUnderscore(n1, c1 + "_" + attribute);
    FirstUnderscore(n2, c2 + "_" + attribute);
    assert |n1| == |n2|;
    assert n1 == w[..|n1|] == n2;
    assert c1 == w[|n1| + 1..|n1| + 1 + |c1|] == c2;
  }

  /** Without that restriction two different plants can share a name. */
  lemma VarNameAmbiguous()
    ensures VarName("a", "b_c", ET_ELECTRICITY) == VarName("a_b", "c", ET_ELECTRICITY)
  {
  }

  // ---------------------------------------------------------------------
  // Carrier-tagged registration (`define_electricity_variable`, `define_heat_variable`)
  // ---------------------------------------------------------------------

  /** Registers `{name}_{comp_type}_power`, integral, within the given bounds. */
  method DefineElectricityVariable(model: LinearModel, name: string, compType: string, lower: int, upper: int)
    modifies model
    ensures model.variables == old(model.variables) + [Var(VarName(name, compType, ET_ELECTRICITY), lower, upper, true)]
    ensures model.constraints == old(model.constraints)
  {
    model.AddVariable(VarName(name, compType, ET_ELECTRICITY), lower, upper, true);
  }

  /** Registers `{name}_{comp_type}_heat`, integral, within the given bounds. */
  method DefineHeatVariable(model: LinearModel, name: string, compType: string, lower: int, upper: int)
    modifies model
    ensures model.variables == old(model.variables) + [Var(VarName(name, compType, ET_HEAT), lower, upper, true)]
    ensures model.constraints == old(model.constraints)
  {
    model.AddVariable(VarName(name, compType, ET_HEAT), lower, upper, true);
  }

  // ---------------------------------------------------------------------
  // Single-variable components
  // ---------------------------------------------------------------------

  datatype Generator = Pv | Wind | FixedGen

  /**
   * The components that register at most one variable and keep no state
   * between construction and registration. Each carries the forecast value
   * its constructor reads for the step.
   */
  datatype Plant =
    | Market(name: string)
    | Balancing(name: string)
    | InflexibleLoad(name: string, power: int)
    | FlexibleLoad(name: string)
    | Heat(name: string, heat: int)
    | Dhw(name: string, heat: int)
    | SimplePlant(kind: Generator, name: string, power: int, controllable: bool)
    | Hp(name: string, cop: real)
    | HeatStorage(name: string)

  /** A generator's bounds: up to its forecast, curtailable to zero only if controllable. */
  function GeneratorBounds(power: int, controllable: bool): (b: Bounds)
    ensures b.upper == power
    ensures controllable ==> b.lower == 0
    ensures b.lower == b.upper <==> !controllable || power == 0
    ensures power >= 0 ==> 0 <= b.lower <= b.upper
  {
    Bounds(if controllable then 0 else power, power)
  }

  /**
   * The variable `define_variables` registers for `p`; `tag` is the `energy_type`
   * argument for market and balancing and the `comp_type` argument otherwise.
   */
  function PlantVariable(p: Plant, tag: string): (r: Result<Var, Error>)
    ensures r.Err? <==> p.FlexibleLoad? || p.Hp? || p.HeatStorage?
    ensures r.Err? ==> r.error == NotImplemented
    ensures r.Ok? ==> r.value.integer
    ensures r.Ok? && (p.Market? || p.Balancing?) ==>
      r.value.name == p.name + "_" + tag && r.value.lower == -r.value.upper
    ensures r.Ok? && (p.InflexibleLoad? || p.SimplePlant?) ==>
      r.value.name == VarName(p.name, tag, ET_ELECTRICITY) && r.value.upper == p.power
    ensures r.Ok? && (p.Heat? || p.Dhw?) ==>
      r.value.name == VarName(p.name, tag, ET_HEAT) && r.value.lower == r.value.upper == p.heat
  {
    match p
    case Market(n) => Ok(Var(n + "_" + tag, MARKET_POWER, MARKET_POWER, true))
    case Balancing(n) => Ok(Var(n + "_" + tag, -BALANCING_POWER, BALANCING_POWER, true))
    case InflexibleLoad(n, power) => Ok(Var(VarName(n, tag, ET_ELECTRICITY), power, power, true))
    case Heat(n, heat) => Ok(Var(VarName(n, tag, ET_HEAT), heat, heat, true))
    case Dhw(n, heat) => Ok(Var(VarName(n, tag, ET_HEAT), heat, heat, true))
    case SimplePlant(_, n, power, controllable) =>
      var b := GeneratorBounds(power, controllable);
      Ok(Var(VarName(n, tag, ET_ELECTRICITY), b.lower, b.upper, true))
    case FlexibleLoad(_) => Err(NotImplemented)
    case Hp(_, _) => Err(NotImplemented)
    case HeatStorage(_) => Err(NotImplemented)
  }

  /** `define_variables` of the single-variable components. */
  method DefinePlantVariables(p: Plant, model: LinearModel, tag: string) returns (outcome: Outcome<Error>)
    modifies model
    ensures outcome.Pass? <==> PlantVariable(p, tag).Ok?
    ensures outcome.Pass? ==> model.variables == old(model.variables) + [PlantVariable(p, tag).value]
    ensures outcome.Fail? ==> outcome.error == NotImplemented && model.variables == old(model.variables)
    ensures model.constraints == old(model.constraints)
  {
    outcome := Pass;
    match p
    case Market(n) =>
      model.AddVariable(n + "_" + tag, MARKET_POWER, MARKET_POWER, true);
    case Balancing(n) =>
      model.AddVariable(n + "_" + tag, -BALANCING_POWER, BALANCING_POWER, true);
    case InflexibleLoad(n, power) =>
      DefineElectricityVariable(model, n, tag, power, power);
    case Heat(n, heat) =>
      DefineHeatVariable(model, n, tag, heat, heat);
    case Dhw(n, heat) =>
      DefineHeatVariable(model, n, tag, heat, heat);
    case SimplePlant(_, n, power, controllable) =>
      var lower := if controllable then 0 else power;
      DefineElectricityVariable(model, n, tag, lower, power);
    case FlexibleLoad(_) =>
      outcome := Fail(NotImplemented);
    case Hp(_, _) =>
      outcome := Fail(NotImplemented);
    case HeatStorage(_) =>
      outcome := Fail(NotImplemented);
  }

  /** Inflexible load is pinned at its forecast power, on electricity. */
  lemma InflexibleLoadPinned(name: string, tag: string, power: int)
    ensures PlantVariable(InflexibleLoad(name, power), tag)
         == Ok(Var(VarName(name, tag, ET_ELECTRICITY), power, power, true))
  {
  }

  /** Space heat and hot-water demand are pinned at their forecast, on heat. */
  lemma HeatDemandsPinned(name: string, tag: string, heat: int)
    ensures PlantVariable(Heat(name, heat), tag) == Ok(Var(VarName(name, tag, ET_HEAT), heat, heat, true))
    ensures PlantVariable(Dhw(name, heat), tag) == Ok(Var(VarName(name, tag, ET_HEAT), heat, heat, true))
  {
  }

  /** PV, wind and fixed generation: at most the forecast, a well-formed range when it is non-negative. */
  lemma GeneratorVariable(kind: Generator, name: string, tag: string, power: int, controllable: bool)
    ensures var r := PlantVariable(SimplePlant(kind, name, power, controllable), tag);
      && r.Ok?
      && r.value.name == VarName(name, tag, ET_ELECTRICITY)
      && r.value.upper == power
      && r.value.lower == (if controllable then 0 else power)
      && (power >= 0 ==> WellFormed(r.value))
  {
  }

  /** The market variable is pinned at zero; the balancing slack is symmetric. */
  lemma BoundaryVariables(name: string, energyType: string)
    ensures PlantVariable(Market(name), energyType) == Ok(Var(name + "_" + energyType, 0, 0, true))
    ensures PlantVariable(Balancing(name), energyType)
         == Ok(Var(name + "_" + energyType, -10000000000, 10000000000, true))
  {
  }

  /** Flexible load, heat pump and heat storage define no variables: the base raises. */
  lemma UnsupportedPlants(p: Plant, tag: string)
    ensures PlantVariable(p, tag).Err? <==> p.FlexibleLoad? || p.Hp? || p.HeatStorage?
    ensures PlantVariable(p, tag).Err? ==> PlantVariable(p, tag).error == NotImplemented
  {
  }

  // ---------------------------------------------------------------------
  // Storage bound formulas
  // ---------------------------------------------------------------------

  /** The step length in hours. */
  function Hours(dtSeconds: real): (h: real)
    ensures h * 3600.0 == dtSeconds
    ensures h == 0.0 <==> dtSeconds == 0.0
    ensures 0.0 < dtSeconds ==> 0.0 < h
  {
    dtSeconds * SECONDS_TO_HOURS
  }

  /** The inputs the bound formulas are meant for. */
  predicate PhysicalStorage(capacity: int, soc: int, power: int, efficiency: real, dtSeconds: real) {
    0 <= soc <= capacity && 0 <= power && 0.0 < efficiency && 0.0 < dtSeconds
  }

  /** Charging limit: rated power, or the power that fills the store within the step. */
  function MaxCharge(power: int, energyToFull: int, efficiency: real, dtSeconds: real): (r: int)
    requires efficiency != 0.0 && dtSeconds != 0.0
    ensures 0 <= power && 0 <= energyToFull && 0.0 < efficiency && 0.0 < dtSeconds ==> 0 <= r <= power
  {
    Round(Min(power as real, energyToFull as real / efficiency / Hours(dtSeconds)))
  }

  /** Discharging limit: rated power, or the power that empties the store within the step. */
  function MaxDischarge(power: int, soc: int, efficiency: real, dtSeconds: real): (r: int)
    requires dtSeconds != 0.0
    ensures 0 <= power && 0 <= soc && 0.0 <= efficiency && 0.0 < dtSeconds ==> 0 <= r <= power
  {
    Round(Min(power as real, soc as real * efficiency / Hours(dtSeconds)))
  }

  /** EV bounds, from the state of charge net of the step's forecast consumption. */
  function EvBounds(available: bool, v2g: bool, capacity: int, soc: int, power: int,
                    efficiency: real, dtSeconds: real): (r: Result<Bounds, Error>)
    ensures r.Err? <==> available && (efficiency == 0.0 || dtSeconds == 0.0)
    ensures r.Err? ==> r.error == ZeroDivision
    ensures !available ==> r == Ok(Bounds(0, 0))
    ensures r.Ok? && !v2g ==> r.value.lower == 0
    ensures PhysicalStorage(capacity, soc, power, efficiency, dtSeconds) ==>
      r.Ok? && -power <= r.value.lower <= 0 <= r.value.upper <= power
  {
    if !available then Ok(Bounds(0, 0))
    else if efficiency == 0.0 || dtSeconds == 0.0 then Err(ZeroDivision)
    else
      var upper := MaxCharge(power, capacity - soc, efficiency, dtSeconds);
      var lower := if v2g then -MaxDischarge(power, soc, efficiency, dtSeconds) else 0;
      Ok(Bounds(lower, upper))
  }

  /** Battery, pumped storage and hydrogen bounds: always allowed to discharge. */
  function BatteryBounds(capacity: int, soc: int, power: int, efficiency: real, dtSeconds: real)
    : (r: Result<Bounds, Error>)
    ensures r.Err? <==> efficiency == 0.0 || dtSeconds == 0.0
    ensures r.Err? ==> r.error == ZeroDivision
    ensures PhysicalStorage(capacity, soc, power, efficiency, dtSeconds) ==>
      r.Ok? && -power <= r.value.lower <= 0 <= r.value.upper <= power
  {
    if efficiency == 0.0 || dtSeconds == 0.0 then Err(ZeroDivision)
    else
      var upper := MaxCharge(power, capacity - soc, efficiency, dtSeconds);
      var lower := -MaxDischarge(power, soc, efficiency, dtSeconds);
      Ok(Bounds(lower, upper))
  }

  /** An available EV allowed to discharge is bounded exactly like a battery. */
  lemma EvLikeBattery(capacity: int, soc: int, power: int, efficiency: real, dtSeconds: real)
    ensures EvBounds(true, true, capacity, soc, power, efficiency, dtSeconds)
         == BatteryBounds(capacity, soc, power, efficiency, dtSeconds)
  {
  }

  /** With at least `power * efficiency * hours` of headroom, charging is limited by the rating. */
  lemma MaxChargeAtRating(power: int, energyToFull: int, efficiency: real, dtSeconds: real)
    requires 0.0 < efficiency && 0.0 < dtSeconds
    requires power as real * efficiency * Hours(dtSeconds) <= energyToFull as real
    ensures MaxCharge(power, energyToFull, efficiency, dtSeconds) == power
  {
    RoundOfInt(power);
  }

  /** With at least `power * hours / efficiency` stored, discharging is limited by the rating. */
  lemma MaxDischargeAtRating(power: int, soc: int, efficiency: real, dtSeconds: real)
    requires 0.0 < efficiency && 0.0 < dtSeconds
    requires power as real * Hours(dtSeconds) <= soc as real * efficiency
    ensures MaxDischarge(power, soc, efficiency, dtSeconds) == power
  {
    RoundOfInt(power);
  }

  /** The lower bound `-round(m)` is `round(-m)`: the signed discharge limit rounded once. */
  lemma BatteryLowerRoundsSigned(capacity: int, soc: int, power: int, efficiency: real, dtSeconds: real)
    requires efficiency != 0.0 && dtSeconds != 0.0
    ensures BatteryBounds(capacity, soc, power, efficiency, dtSeconds).Ok?
    ensures BatteryBounds(capacity, soc, power, efficiency, dtSeconds).value.lower
         == Round(-Min(power as real, soc as real * efficiency / Hours(dtSeconds)))
  {
    RoundOdd(Min(power as real, soc as real * efficiency / Hours(dtSeconds)));
  }

  /** Charging at the upper bound for a whole step overfills by at most half a unit of rounding. */
  lemma MaxChargeNoOverfill(power: int, energyToFull: int, efficiency: real, dtSeconds: real)
    requires 0.0 < efficiency && 0.0 < dtSeconds
    ensures var k := efficiency * Hours(dtSeconds);
      MaxCharge(power, energyToFull, efficiency, dtSeconds) as real * k <= energyToFull as real + 0.5 * k
  {
    var h := Hours(dtSeconds);
    var k := efficiency * h;
    var rate := energyToFull as real / efficiency / h;
    var r := MaxCharge(power, energyToFull, efficiency, dtSeconds);
    assert rate * k == energyToFull as real;
    assert r as real <= rate + 0.5;
    MulMonotone(r as real, rate + 0.5, k);
    calc {
      r as real * k;
    <= (rate + 0.5) * k;
    == rate * k + 0.5 * k;
    == energyToFull as real + 0.5 * k;
    }
  }

  /** Discharging at the lower bound for a whole step draws at most half a unit more than is stored. */
  lemma MaxDischargeNoOverdrain(power: int, soc: int, efficiency: real, dtSeconds: real)
    requires 0.0 < efficiency && 0.0 < dtSeconds
    ensures var h := Hours(dtSeconds);
      MaxDischarge(power, soc, efficiency, dtSeconds) as real * h <= soc as real * efficiency + 0.5 * h
  {
  }

  /** More headroom never lowers the charging limit. */
  lemma MaxChargeMonotoneInHeadroom(power: int, e1: int, e2: int, efficiency: real, dtSeconds: real)
    requires 0.0 < efficiency && 0.0 < dtSeconds && e1 <= e2
    ensures MaxCharge(power, e1, efficiency, dtSeconds) <= MaxCharge(power, e2, efficiency, dtSeconds)
  {
    var h := Hours(dtSeconds);
    DivMonotone(e1 as real, e2 as real, efficiency);
    DivMonotone(e1 as real / efficiency, e2 as real / efficiency, h);
    RoundMonotone(Min(power as real, e1 as real / efficiency / h), Min(power as real, e2 as real / efficiency / h));
  }

  /** A longer step never raises the charging limit: the same energy is spread over more time. */
  lemma MaxChargeAntitoneInStep(power: int, energyToFull: int, efficiency: real, dt1: real, dt2: real)
    requires 0 <= energyToFull && 0.0 < efficiency && 0.0 < dt1 <= dt2
    ensures MaxCharge(power, energyToFull, efficiency, dt2) <= MaxCharge(power, energyToFull, efficiency, dt1)
  {
    var e := energyToFull as real / efficiency;
    assert 0.0 <= e;
    DivAntitone(e, Hours(dt1), Hours(dt2));
    RoundMonotone(Min(power as real, e / Hours(dt2)), Min(power as real, e / Hours(dt1)));
  }

  /** More stored energy never lowers the discharging limit. */
  lemma MaxDischargeMonotoneInSoc(power: int, s1: int, s2: int, efficiency: real, dtSeconds: real)
    requires 0.0 <= efficiency && 0.0 < dtSeconds && s1 <= s2
    ensures MaxDischarge(power, s1, efficiency, dtSeconds) <= MaxDischarge(power, s2, efficiency, dtSeconds)
  {
    var h := Hours(dtSeconds);
    assert s1 as real * efficiency <= s2 as real * efficiency;
    DivMonotone(s1 as real * efficiency, s2 as real * efficiency, h);
    RoundMonotone(Min(power as real, s1 as real * efficiency / h), Min(power as real, s2 as real * efficiency / h));
  }

  /** A longer step never raises the discharging limit. */
  lemma MaxDischargeAntitoneInStep(power: int, soc: int, efficiency: real, dt1: real, dt2: real)
    requires 0 <= soc && 0.0 <= efficiency && 0.0 < dt1 <= dt2
    ensures MaxDischarge(power, soc, efficiency, dt2) <= MaxDischarge(power, soc, efficiency, dt1)
  {
    var e := soc as real * efficiency;
    assert 0.0 <= e;
    DivAntitone(e, Hours(dt1), Hours(dt2));
    RoundMonotone(Min(power as real, e / Hours(dt2)), Min(power as real, e / Hours(dt1)));
  }

  /** A 10 kWh battery at 8 kWh, rated 5 kW, 95 % efficient, over 15 minutes: both limits are the rating. */
  lemma BatteryWorkedExample()
    ensures BatteryBounds(10000, 8000, 5000, 0.95, 900.0) == Ok(Bounds(-5000, 5000))
  {
  }

  /** The same store 100 Wh short of full: charging is limited by the headroom, rounded. */
  lemma EvHeadroomExample()
    ensures EvBounds(true, false, 10000, 9900, 5000, 0.95, 900.0) == Ok(Bounds(0, 421))
  {
  }

  // ---------------------------------------------------------------------
  // Storage variables and deviation constraints
  // ---------------------------------------------------------------------

  /** The four variables storage `define_variables` registers: power, target, and the two deviations. */
  function StorageVariables(name: string, compType: string, b: Bounds, target: int): (vs: seq<Var>)
    ensures |vs| == 4 && forall v | v in vs :: v.integer
  {
    [ Var(VarName(name, compType, ET_ELECTRICITY), b.lower, b.upper, true),
      Var(VarName(name, compType, "target"), target, target, true),
      Var(VarName(name, compType, "deviation_pos"), 0, b.upper - target, true),
      Var(VarName(name, compType, "deviation_neg"), 0, target - b.lower, true) ]
  }

  /** All four bound pairs admit a value exactly when the target lies within the power bounds. */
  lemma StorageVariablesWellFormed(name: string, compType: string, b: Bounds, target: int)
    ensures (forall v | v in StorageVariables(name, compType, b, target) :: WellFormed(v))
        <==> b.lower <= target <= b.upper
  {
    var vs := StorageVariables(name, compType, b, target);
    assert vs[2] in vs && vs[3] in vs;
  }

  /** The four storage variable names are pairwise distinct. */
  lemma StorageNamesDistinct(name: string, compType: string)
    ensures var p, t := VarName(name, compType, ET_ELECTRICITY), VarName(name, compType, "target");
      var dp, dn := VarName(name, compType, "deviation_pos"), VarName(name, compType, "deviation_neg");
      p != t && p != dp && p != dn && t != dp && t != dn && dp != dn
  {
    VarNameAttributeInjective(name, compType, "deviation_pos", "deviation_neg");
  }

  /** Every term of `c` is one of the four storage variables of `name` and `compType`. */
  predicate OverStorage(c: Constraint, name: string, compType: string) {
    forall t | t in c.lhs + c.rhs ::
      t.variable in {VarName(name, compType, ET_ELECTRICITY), VarName(name, compType, "target"),
                     VarName(name, compType, "deviation_pos"), VarName(name, compType, "deviation_neg")}
  }

  /** The two deviation constraints, as `lincomps.py` writes them. */
  function DeviationConstraints(name: string, compType: string): (cs: seq<Constraint>)
    ensures |cs| == 2
    ensures cs[0].name == name + "_deviation_pos" && cs[1].name == name + "_deviation_neg"
    ensures forall c | c in cs :: OverStorage(c, name, compType)
  {
    var gap := [Term(1, VarName(name, compType, ET_ELECTRICITY)), Term(-1, VarName(name, compType, "target"))];
    [ Constraint(name + "_deviation_pos", gap, LessEq, [Term(1, VarName(name, compType, "deviation_pos"))]),
      Constraint(name + "_deviation_neg", gap, GreaterEq, [Term(1, VarName(name, compType, "deviation_neg"))]) ]
  }

  /** The deviation constraints as intended: each slack bounds its side of `power - target`. */
  function IntendedDeviationConstraints(name: string, compType: string): (cs: seq<Constraint>)
    ensures |cs| == 2 && cs[0] == DeviationConstraints(name, compType)[0]
    ensures cs[1].name == DeviationConstraints(name, compType)[1].name
    ensures cs[1] != DeviationConstraints(name, compType)[1]
    ensures forall c | c in cs :: OverStorage(c, name, compType)
  {
    var power := VarName(name, compType, ET_ELECTRICITY);
    var target := VarName(name, compType, "target");
    [ Constraint(name + "_deviation_pos", [Term(1, power), Term(-1, target)], LessEq,
                 [Term(1, VarName(name, compType, "deviation_pos"))]),
      Constraint(name + "_deviation_neg", [Term(1, target), Term(-1, power)], LessEq,
                 [Term(1, VarName(name, compType, "deviation_neg"))]) ]
  }

  /** `coeff_a * x[a] + coeff_b * x[b]` evaluated term by term. */
  lemma EvalPair(ta: Term, tb: Term, x: map<string, int>)
    requires ta.variable in x && tb.variable in x
    ensures Assigns(x, [ta, tb])
    ensures Eval([ta, tb], x) == ta.coeff * x[ta.variable] + tb.coeff * x[tb.variable]
  {
    assert [ta, tb][1..] == [tb];
    assert [tb][1..] == [];
    assert Eval([tb], x) == tb.coeff * x[tb.variable] + Eval([], x);
  }

  lemma EvalSingle(t: Term, x: map<string, int>)
    requires t.variable in x
    ensures Assigns(x, [t])
    ensures Eval([t], x) == t.coeff * x[t.variable]
  {
  }

  /**
   * As written, the negative-deviation constraint together with the slack's
   * lower bound of zero forces `power >= target`: under-delivery is infeasible.
   */
  lemma AsWrittenForcesPowerAtLeastTarget(name: string, compType: string, b: Bounds, target: int,
                                          x: map<string, int>)
    requires VarName(name, compType, ET_ELECTRICITY) in x
    requires Feasible(StorageVariables(name, compType, b, target), DeviationConstraints(name, compType), x)
    ensures x[VarName(name, compType, ET_ELECTRICITY)] >= target
  {
    var vs := StorageVariables(name, compType, b, target);
    var cs := DeviationConstraints(name, compType);
    var p, t := VarName(name, compType, ET_ELECTRICITY), VarName(name, compType, "target");
    var dn := VarName(name, compType, "deviation_neg");
    assert WithinBounds(x, vs[1]) && WithinBounds(x, vs[3]);
    assert WithinBounds(x, vs[0]);
    assert Satisfies(x, cs[1]);
    EvalPair(Term(1, p), Term(-1, t), x);
    EvalSingle(Term(1, dn), x);
  }

  /**
   * Conversely, the as-written constraints admit every dispatch at or above the
   * target, tracked by the smallest deviations: the model is not empty.
   */
  lemma AsWrittenAdmitsAtOrAboveTarget(name: string, compType: string, b: Bounds, target: int, p: int)
    requires b.lower <= target <= p <= b.upper
    ensures Feasible(StorageVariables(name, compType, b, target), DeviationConstraints(name, compType),
                     TrackingAssignment(name, compType, target, p))
  {
    var x := TrackingAssignment(name, compType, target, p);
    var pw, t := VarName(name, compType, ET_ELECTRICITY), VarName(name, compType, "target");
    var dp, dn := VarName(name, compType, "deviation_pos"), VarName(name, compType, "deviation_neg");
    StorageNamesDistinct(name, compType);
    assert x[pw] == p && x[t] == target && x[dp] == p - target && x[dn] == 0;
    var cs := DeviationConstraints(name, compType);
    EvalPair(Term(1, pw), Term(-1, t), x);
    EvalSingle(Term(1, dp), x);
    EvalSingle(Term(1, dn), x);
    assert Satisfies(x, cs[0]) && Satisfies(x, cs[1]);
  }

  /** So an EV allowed to discharge to -5000 cannot be dispatched at -1 against a target of 0. */
  lemma AsWrittenRejectsDischarge(x: map<string, int>)
    requires VarName("ev1", "ev", ET_ELECTRICITY) in x && x[VarName("ev1", "ev", ET_ELECTRICITY)] == -1
    ensures !Feasible(StorageVariables("ev1", "ev", Bounds(-5000, 5000), 0), DeviationConstraints("ev1", "ev"), x)
  {
    if Feasible(StorageVariables("ev1", "ev", Bounds(-5000, 5000), 0), DeviationConstraints("ev1", "ev"), x) {
      AsWrittenForcesPowerAtLeastTarget("ev1", "ev", Bounds(-5000, 5000), 0, x);
    }
  }

  /** The values a tracking solution takes at dispatch `p`: the smallest deviations on each side. */
  function TrackingAssignment(name: string, compType: string, target: int, p: int): map<string, int> {
    map[VarName(name, compType, ET_ELECTRICITY) := p,
        VarName(name, compType, "target") := target,
        VarName(name, compType, "deviation_pos") := if p > target then p - target else 0,
        VarName(name, compType, "deviation_neg") := if p < target then target - p else 0]
  }

  /** With the intended constraints every dispatch within the bounds is feasible and tracked exactly. */
  lemma IntendedAdmitsEveryDispatch(name: string, compType: string, b: Bounds, target: int, p: int)
    requires b.lower <= target <= b.upper && b.lower <= p <= b.upper
    ensures Feasible(StorageVariables(name, compType, b, target), IntendedDeviationConstraints(name, compType),
                     TrackingAssignment(name, compType, target, p))
  {
    var x := TrackingAssignment(name, compType, target, p);
    var pw, t := VarName(name, compType, ET_ELECTRICITY), VarName(name, compType, "target");
    var dp, dn := VarName(name, compType, "deviation_pos"), VarName(name, compType, "deviation_neg");
    StorageNamesDistinct(name, compType);
    assert x[pw] == p && x[t] == target;
    assert x[dp] == (if p > target then p - target else 0);
    assert x[dn] == (if p < target then target - p else 0);
    var cs := IntendedDeviationConstraints(name, compType);
    EvalPair(Term(1, pw), Term(-1, t), x);
    EvalPair(Term(1, t), Term(-1, pw), x);
    EvalSingle(Term(1, dp), x);
    EvalSingle(Term(1, dn), x);
    assert Satisfies(x, cs[0]) && Satisfies(x, cs[1]);
  }

  /** With the intended constraints the slacks bound the over- and under-delivery from above. */
  lemma IntendedDeviationsCoverGap(name: string, compType: string, b: Bounds, target: int, x: map<string, int>)
    requires VarName(name, compType, ET_ELECTRICITY) in x
    requires VarName(name, compType, "deviation_pos") in x && VarName(name, compType, "deviation_neg") in x
    requires Feasible(StorageVariables(name, compType, b, target), IntendedDeviationConstraints(name, compType), x)
    ensures var p := x[VarName(name, compType, ET_ELECTRICITY)];
      && x[VarName(name, compType, "deviation_pos")] >= p - target
      && x[VarName(name, compType, "deviation_neg")] >= target - p
      && x[VarName(name, compType, "deviation_pos")] + x[VarName(name, compType, "deviation_neg")]
         >= (if p >= target then p - target else target - p)
  {
    var vs := StorageVariables(name, compType, b, target);
    var cs := IntendedDeviationConstraints(name, compType);
    var pw, t := VarName(name, compType, ET_ELECTRICITY), VarName(name, compType, "target");
    var dp, dn := VarName(name, compType, "deviation_pos"), VarName(name, compType, "deviation_neg");
    assert WithinBounds(x, vs[0]) && WithinBounds(x, vs[1]) && WithinBounds(x, vs[2]) && WithinBounds(x, vs[3]);
    assert Satisfies(x, cs[0]) && Satisfies(x, cs[1]);
    EvalPair(Term(1, pw), Term(-1, t), x);
    EvalPair(Term(1, t), Term(-1, pw), x);
    EvalSingle(Term(1, dp), x);
    EvalSingle(Term(1, dn), x);
  }

  /** The names `define_constraints` looks up, in the order it looks them up. */
  function Lookups(name: string, compType: string): seq<string> {
    [VarName(name, compType, ET_ELECTRICITY), VarName(name, compType, "target"),
     VarName(name, compType, "deviation_pos"), VarName(name, compType, "deviation_neg")]
  }

  /** The first name `define_constraints` looks up that the model lacks, in lookup order. */
  function MissingLookup(vars: seq<Var>, name: string, compType: string): (r: Option<string>)
    ensures r.Some? ==> r.value in Lookups(name, compType) && !Declares(vars, r.value)
    ensures r.None? <==> forall j | 0 <= j < 4 :: Declares(vars, Lookups(name, compType)[j])
    ensures forall k | 0 <= k < 4 && !Declares(vars, Lookups(name, compType)[k]) &&
                       (forall j | 0 <= j < k :: Declares(vars, Lookups(name, compType)[j])) ::
              r == Some(Lookups(name, compType)[k])
  {
    var ls := Lookups(name, compType);
    if !Declares(vars, ls[0]) then Some(ls[0])
    else if !Declares(vars, ls[1]) then Some(ls[1])
    else if !Declares(vars, ls[2]) then Some(ls[2])
    else if !Declares(vars, ls[3]) then Some(ls[3])
    else None
  }

  /** After storage `define_variables`, every lookup of `define_constraints` succeeds. */
  lemma ConstraintLookupsSucceed(vars: seq<Var>, name: string, compType: string, b: Bounds, target: int)
    ensures MissingLookup(vars + StorageVariables(name, compType, b, target), name, compType) == None
  {
    var vs := StorageVariables(name, compType, b, target);
    var ls := Lookups(name, compType);
    forall j | 0 <= j < 4
      ensures Declares(vars + vs, ls[j])
    {
      assert vs[j].name == ls[j];
      assert Find(vs, ls[j]).Some?;
      DeclaresAppend(vars, vs, ls[j]);
    }
  }

  /** Registers the four storage variables. */
  method DefineStorageVariables(model: LinearModel, name: string, compType: string, b: Bounds, target: int)
    modifies model
    ensures model.variables == old(model.variables) + StorageVariables(name, compType, b, target)
    ensures model.constraints == old(model.constraints)
  {
    DefineElectricityVariable(model, name, compType, b.lower, b.upper);
    model.AddVariable(VarName(name, compType, "target"), target, target, true);
    model.AddVariable(VarName(name, compType, "deviation_pos"), 0, b.upper - target, true);
    model.AddVariable(VarName(name, compType, "deviation_neg"), 0, target - b.lower, true);
  }

  /** Looks up the four storage variables and, if all exist, adds the two deviation constraints. */
  method DefineDeviationConstraints(model: LinearModel, name: string, compType: string)
    returns (outcome: Outcome<Error>)
    modifies model
    ensures var missing := MissingLookup(old(model.variables), name, compType);
      && (outcome.Pass? <==> missing.None?)
      && (outcome.Fail? ==> outcome == Fail(MissingVariable(missing.value)))
    ensures outcome.Pass? ==> model.constraints == old(model.constraints) + DeviationConstraints(name, compType)
    ensures outcome.Fail? ==> model.constraints == old(model.constraints)
    ensures model.variables == old(model.variables)
  {
    var missing := MissingLookup(model.variables, name, compType);
    if missing.Some? {
      return Fail(MissingVariable(missing.value));
    }
    var cs := DeviationConstraints(name, compType);
    model.AddConstraint(cs[0]);
    model.AddConstraint(cs[1]);
    outcome := Pass;
  }

  /** The corrected registration: the same lookups, then the intended constraints. */
  method DefineIntendedDeviationConstraints(model: LinearModel, name: string, compType: string)
    returns (outcome: Outcome<Error>)
    modifies model
    ensures var missing := MissingLookup(old(model.variables), name, compType);
      && (outcome.Pass? <==> missing.None?)
      && (outcome.Fail? ==> outcome == Fail(MissingVariable(missing.value)))
    ensures outcome.Pass? ==>
      model.constraints == old(model.constraints) + IntendedDeviationConstraints(name, compType)
    ensures outcome.Fail? ==> model.constraints == old(model.constraints)
    ensures model.variables == old(model.variables)
  {
    var missing := MissingLookup(model.variables, name, compType);
    if missing.Some? {
      return Fail(MissingVariable(missing.value));
    }
    var cs := IntendedDeviationConstraints(name, compType);
    model.AddConstraint(cs[0]);
    model.AddConstraint(cs[1]);
    outcome := Pass;
  }

  /** How an unset component type appears inside an f-string. */
  function Rendered(compType: Option<string>): (r: string)
    ensures compType.Some? ==> r == compType.value
    ensures r == "None" <==> compType == None || compType == Some("None")
  {
    match compType
    case None => "None"
    case Some(s) => s
  }

  // ---------------------------------------------------------------------
  // Storage components
  // ---------------------------------------------------------------------

  /** An electric vehicle, charged at home, optionally able to feed back (v2g). */
  class Ev {
    const name: string
    const target: int
    const available: bool
    const capacity: int
    const chargingPower: int
    const efficiency: real
    const v2g: bool
    const dtSeconds: real
    /** State of charge at the step, net of the energy the trip consumes during it. */
    const soc: int
    const energyToFull: int
    const lower: int
    const upper: int
    var compType: Option<string>

    constructor (name: string, target: int, available: bool, energyConsumed: int, capacity: int,
                 chargingHome: int, efficiency: real, v2g: bool, dtSeconds: real, socSnapshot: int)
      requires available ==> efficiency != 0.0 && dtSeconds != 0.0
      ensures this.name == name && this.target == target && this.available == available
      ensures this.capacity == capacity && this.chargingPower == chargingHome
      ensures this.efficiency == efficiency && this.v2g == v2g && this.dtSeconds == dtSeconds
      ensures soc == socSnapshot - energyConsumed && energyToFull == capacity - soc
      ensures EvBounds(available, v2g, capacity, soc, chargingPower, efficiency, dtSeconds) == Ok(Bounds(lower, upper))
      ensures compType == None
    {
      this.name := name;
      this.target := target;
      this.available := available;
      this.capacity := capacity;
      this.chargingPower := chargingHome;
      this.efficiency := efficiency;
      this.v2g := v2g;
      this.dtSeconds := dtSeconds;
      var s := socSnapshot - energyConsumed;
      this.soc := s;
      this.energyToFull := capacity - s;
      var b := EvBounds(available, v2g, capacity, s, chargingHome, efficiency, dtSeconds);
      this.lower := b.value.lower;
      this.upper := b.value.upper;
      this.compType := None;
    }

    /** Records the component type and registers power, target and the two deviations. */
    method DefineVariables(model: LinearModel, compType: string)
      modifies this, model
      ensures this.compType == Some(compType)
      ensures model.variables == old(model.variables) + StorageVariables(name, compType, Bounds(lower, upper), target)
      ensures model.constraints == old(model.constraints)
    {
      this.compType := Some(compType);
      DefineStorageVariables(model, name, compType, Bounds(lower, upper), target);
    }

    /** Adds the two deviation constraints, as written, over the recorded component type's names. */
    method DefineConstraints(model: LinearModel) returns (outcome: Outcome<Error>)
      modifies model
      ensures var missing := MissingLookup(old(model.variables), name, Rendered(compType));
        && (outcome.Pass? <==> missing.None?)
        && (outcome.Fail? ==> outcome == Fail(MissingVariable(missing.value)))
      ensures outcome.Pass? ==>
        model.constraints == old(model.constraints) + DeviationConstraints(name, Rendered(compType))
      ensures outcome.Fail? ==> model.constraints == old(model.constraints)
      ensures model.variables == old(model.variables)
    {
      outcome := DefineDeviationConstraints(model, name, Rendered(compType));
    }
  }

  /** A generic store; `Battery`, `Psh` and `Hydrogen` add nothing to it. */
  class SimpleBattery {
    const name: string
    const target: int
    const capacity: int
    const chargingPower: int
    const efficiency: real
    /** Read from the sizing, but no bound depends on them. */
    const b2g: bool
    const g2b: bool
    const dtSeconds: real
    const soc: int
    const energyToFull: int
    const lower: int
    const upper: int
    var compType: Option<string>

    constructor (name: string, target: int, capacity: int, power: int, efficiency: real,
                 b2g: bool, g2b: bool, dtSeconds: real, soc: int)
      requires efficiency != 0.0 && dtSeconds != 0.0
      ensures this.name == name && this.target == target && this.capacity == capacity
      ensures this.chargingPower == power && this.efficiency == efficiency
      ensures this.b2g == b2g && this.g2b == g2b && this.dtSeconds == dtSeconds
      ensures this.soc == soc && energyToFull == capacity - soc
      ensures BatteryBounds(capacity, soc, power, efficiency, dtSeconds) == Ok(Bounds(lower, upper))
      ensures compType == None
    {
      this.name := name;
      this.target := target;
      this.capacity := capacity;
      this.chargingPower := power;
      this.efficiency := efficiency;
      this.b2g := b2g;
      this.g2b := g2b;
      this.dtSeconds := dtSeconds;
      this.soc := soc;
      this.energyToFull := capacity - soc;
      var b := BatteryBounds(capacity, soc, power, efficiency, dtSeconds);
      this.lower := b.value.lower;
      this.upper := b.value.upper;
      this.compType := None;
    }

    /** Records the component type and registers power, target and the two deviations. */
    method DefineVariables(model: LinearModel, compType: string)
      modifies this, model
      ensures this.compType == Some(compType)
      ensures model.variables == old(model.variables) + StorageVariables(name, compType, Bounds(lower, upper), target)
      ensures model.constraints == old(model.constraints)
    {
      this.compType := Some(compType);
      DefineStorageVariables(model, name, compType, Bounds(lower, upper), target);
    }

    /** Adds the two deviation constraints, as written, over the recorded component type's names. */
    method DefineConstraints(model: LinearModel) returns (outcome: Outcome<Error>)
      modifies model
      ensures var missing := MissingLookup(old(model.variables), name, Rendered(compType));
        && (outcome.Pass? <==> missing.None?)
        && (outcome.Fail? ==> outcome == Fail(MissingVariable(missing.value)))
      ensures outcome.Pass? ==>
        model.constraints == old(model.constraints) + DeviationConstraints(name, Rendered(compType))
      ensures outcome.Fail? ==> model.constraints == old(model.constraints)
      ensures model.variables == old(model.variables)
    {
      outcome := DefineDeviationConstraints(model, name, Rendered(compType));
    }
  }

  /** Registering an EV's variables and then its constraints always succeeds. */
  method RegisterEv(ev: Ev, model: LinearModel, compType: string)
    returns (outcome: Outcome<Error>)
    modifies ev, model
    ensures outcome == Pass
    ensures ev.compType == Some(compType)
    ensures model.variables == old(model.variables)
      + StorageVariables(ev.name, compType, Bounds(ev.lower, ev.upper), ev.target)
    ensures model.constraints == old(model.constraints) + DeviationConstraints(ev.name, compType)
  {
    ev.DefineVariables(model, compType);
    ConstraintLookupsSucceed(old(model.variables), ev.name, compType, Bounds(ev.lower, ev.upper), ev.target);
    outcome := ev.DefineConstraints(model);
  }

  /** Registering a battery's variables and then its constraints always succeeds. */
  method RegisterBattery(battery: SimpleBattery, model: LinearModel, compType: string)
    returns (outcome: Outcome<Error>)
    modifies battery, model
    ensures outcome == Pass
    ensures battery.compType == Some(compType)
    ensures model.variables == old(model.variables)
      + StorageVariables(battery.name, compType, Bounds(battery.lower, battery.upper), battery.target)
    ensures model.constraints == old(model.constraints) + DeviationConstraints(battery.name, compType)
  {
    battery.DefineVariables(model, compType);
    ConstraintLookupsSucceed(old(model.variables), battery.name, compType,
                             Bounds(battery.lower, battery.upper), battery.target);
    outcome := battery.DefineConstraints(model);
  }
}
