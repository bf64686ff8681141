/**
 * Constants shared by the controller components: unit and time conversion
 * factors, carrier (energy type) tags, market types, operation modes, plant
 * tags, and the two closed lookup tables COMP_MAP and TRADED_ENERGY.
 *
 * Python floats such as 1e-6 and 1 / 3600 are modelled as the exact reals
 * they denote; integer-valued Python constants stay `int`.
 */
module Constants {

  // Unit constants
  const WH_TO_MWH: real := 0.000001
  const MWH_TO_WH: real := 1000000.0
  const WH_TO_KWH: real := 0.001
  const KWH_TO_WH: real := 1000.0
  const PERCENT_TO_FRACTION: real := 0.01
  const FRACTION_TO_PERCENT: real := 100.0
  const E5_TO_FRACTION: real := 0.00001
  const FRACTION_TO_E5: real := 100000.0
  const PERCENT_TO_E5: real := 0.001
  const E5_TO_PERCENT: real := 1000.0
  /** The percent/E5 factors obtained by going through fractions. */
  const INTENDED_PERCENT_TO_E5: real := 1000.0
  const INTENDED_E5_TO_PERCENT: real := 0.001

  // Time constants
  const SECONDS_TO_HOURS: real := 1.0 / 3600.0
  const HOURS_TO_SECONDS: int := 3600
  const SECONDS_TO_MINUTES: real := 1.0 / 60.0
  const MINUTES_TO_SECONDS: int := 60
  const MINUTES_TO_HOURS: real := 1.0 / 60.0
  const HOURS_TO_MINUTES: int := 60
  const MINUTES_TO_DAYS: real := 1.0 / 1440.0
  const DAYS_TO_MINUTES: int := 1440
  const SECONDS_TO_DAYS: real := 1.0 / 86400.0
  const DAYS_TO_SECONDS: int := 86400
  const HOURS_TO_DAYS: real := 1.0 / 24.0
  const DAYS_TO_HOURS: int := 24

  // Money constants
  const EURO_TO_CENT: int := 100
  const CENT_TO_EURO: real := 1.0 / 100.0
  const EUR_KWH_TO_UNIT_WH: real := 100000.0

  // Energy types (carrier tags)
  const ET_ELECTRICITY: string := "power"
  const ET_HEAT: string := "heat"
  const ET_COOLING: string := "cold"
  const ET_H2: string := "h2"

  // Market types
  const MT_LEM: string := "lem"
  const MT_LFM: string := "lfm"
  const MT_LHM: string := "lhm"
  const MT_LCM: string := "lcm"
  const MT_LH2M: string := "lh2m"
  const MT_WHOLESALE: string := "wholesale"
  const MT_BALANCING: string := "balancing"

  /** The carrier each local market trades. */
  const TRADED_ENERGY: map<string, string> := map[
    MT_LEM := ET_ELECTRICITY,
    MT_LFM := ET_ELECTRICITY,
    MT_LHM := ET_HEAT,
    MT_LCM := ET_COOLING,
    MT_LH2M := ET_H2
  ]

  // Operation modes
  const OM_GENERATION: string := "gen"
  const OM_LOAD: string := "load"
  const OM_STORAGE: string := "storage"

  // Plant tags
  const P_INFLEXIBLE_LOAD: string := "inflexible_load"
  const P_FLEXIBLE_LOAD: string := "flexible_load"
  const P_HEAT: string := "heat"
  const P_DHW: string := "dhw"
  const P_PV: string := "pv"
  const P_WIND: string := "wind"
  const P_FIXED_GEN: string := "fixed_gen"
  const P_HP: string := "hp"
  const P_EV: string := "ev"
  const P_BATTERY: string := "battery"
  const P_PSH: string := "psh"
  const P_HYDROGEN: string := "hydrogen"
  const P_HEAT_STORAGE: string := "heat_storage"

  const CARRIERS: set<string> := {ET_ELECTRICITY, ET_HEAT, ET_COOLING, ET_H2}
  const MODES: set<string> := {OM_GENERATION, OM_LOAD, OM_STORAGE}
  const PLANT_TAGS: seq<string> := [
    P_INFLEXIBLE_LOAD, P_FLEXIBLE_LOAD, P_HEAT, P_DHW, P_PV, P_WIND, P_FIXED_GEN,
    P_HP, P_EV, P_BATTERY, P_PSH, P_HYDROGEN, P_HEAT_STORAGE
  ]

  /** For each plant tag, the operation mode it has on each carrier it touches. */
  const COMP_MAP: map<string, map<string, string>> := map[
    // Electricity
    P_INFLEXIBLE_LOAD := map[ET_ELECTRICITY := OM_LOAD],
    P_FLEXIBLE_LOAD := map[ET_ELECTRICITY := OM_LOAD],
    P_PV := map[ET_ELECTRICITY := OM_GENERATION],
    P_WIND := map[ET_ELECTRICITY := OM_GENERATION],
    P_FIXED_GEN := map[ET_ELECTRICITY := OM_GENERATION],
    P_EV := map[ET_ELECTRICITY := OM_STORAGE],
    P_BATTERY := map[ET_ELECTRICITY := OM_STORAGE],
    P_PSH := map[ET_ELECTRICITY := OM_STORAGE],
    P_HYDROGEN := map[ET_ELECTRICITY := OM_STORAGE],
    // Heat
    P_HEAT := map[ET_HEAT := OM_LOAD],
    P_DHW := map[ET_HEAT := OM_LOAD],
    P_HEAT_STORAGE := map[ET_ELECTRICITY := OM_STORAGE],
    // Hybrid
    P_HP := map[ET_ELECTRICITY := OM_LOAD, ET_HEAT := OM_GENERATION]
  ]

  /** The four carrier tags are pairwise distinct, so names built from them differ per carrier. */
  lemma CarrierTagsDistinct()
    ensures ET_ELECTRICITY == "power" && ET_HEAT == "heat"
    ensures |CARRIERS| == 4
  {
  }

  /** Each conversion factor multiplied by its inverse is exactly one. */
  lemma ConversionInverses()
    ensures SECONDS_TO_HOURS * HOURS_TO_SECONDS as real == 1.0
    ensures SECONDS_TO_MINUTES * MINUTES_TO_SECONDS as real == 1.0
    ensures MINUTES_TO_HOURS * HOURS_TO_MINUTES as real == 1.0
    ensures MINUTES_TO_DAYS * DAYS_TO_MINUTES as real == 1.0
    ensures SECONDS_TO_DAYS * DAYS_TO_SECONDS as real == 1.0
    ensures HOURS_TO_DAYS * DAYS_TO_HOURS as real == 1.0
    ensures WH_TO_MWH * MWH_TO_WH == 1.0
    ensures WH_TO_KWH * KWH_TO_WH == 1.0
    ensures PERCENT_TO_FRACTION * FRACTION_TO_PERCENT == 1.0
    ensures E5_TO_FRACTION * FRACTION_TO_E5 == 1.0
    ensures PERCENT_TO_E5 * E5_TO_PERCENT == 1.0
    ensures CENT_TO_EURO * EURO_TO_CENT as real == 1.0
  {
  }

  /** The time factors compose: converting through an intermediate unit gives the direct factor. */
  lemma TimeConversionsCompose()
    ensures SECONDS_TO_MINUTES * MINUTES_TO_HOURS == SECONDS_TO_HOURS
    ensures SECONDS_TO_HOURS * HOURS_TO_DAYS == SECONDS_TO_DAYS
    ensures MINUTES_TO_HOURS * HOURS_TO_DAYS == MINUTES_TO_DAYS
    ensures HOURS_TO_MINUTES * MINUTES_TO_SECONDS == HOURS_TO_SECONDS
    ensures DAYS_TO_HOURS * HOURS_TO_SECONDS == DAYS_TO_SECONDS
    ensures DAYS_TO_HOURS * HOURS_TO_MINUTES == DAYS_TO_MINUTES
  {
  }

  /**
   * As written, the percent/E5 factors do not compose: percent to fraction to
   * E5 multiplies by 1000, which is `E5_TO_PERCENT`, not `PERCENT_TO_E5`.
   */
  lemma PercentE5Swapped()
    ensures PERCENT_TO_FRACTION * FRACTION_TO_E5 == E5_TO_PERCENT != PERCENT_TO_E5
    ensures E5_TO_FRACTION * FRACTION_TO_PERCENT == PERCENT_TO_E5 != E5_TO_PERCENT
  {
  }

  /** The intended factors compose through fractions and are still inverse to each other. */
  lemma IntendedPercentE5Compose()
    ensures PERCENT_TO_FRACTION * FRACTION_TO_E5 == INTENDED_PERCENT_TO_E5
    ensures E5_TO_FRACTION * FRACTION_TO_PERCENT == INTENDED_E5_TO_PERCENT
    ensures INTENDED_PERCENT_TO_E5 * INTENDED_E5_TO_PERCENT == 1.0
  {
  }

  /** The thirteen plant tags are pairwise distinct. */
  lemma PlantTagsDistinct()
    ensures |PLANT_TAGS| == 13
    ensures forall i, j | 0 <= i < j < |PLANT_TAGS| :: PLANT_TAGS[i] != PLANT_TAGS[j]
  {
  }

  /** COMP_MAP is closed: its keys are exactly the plant tags. */
  lemma CompMapCoversPlantTags()
    ensures COMP_MAP.Keys == set t | t in PLANT_TAGS
  {
  }

  /** Every COMP_MAP entry maps at least one carrier, and only carriers, to operation modes. */
  lemma CompMapEntriesWellTyped()
    ensures forall p | p in COMP_MAP :: 1 <= |COMP_MAP[p]| && COMP_MAP[p].Keys <= CARRIERS && COMP_MAP[p].Values <= MODES
  {
  }

  /** The heat pump is the only plant on two carriers: it loads electricity and generates heat. */
  lemma HeatPumpOnlyHybrid()
    ensures COMP_MAP[P_HP] == map[ET_ELECTRICITY := OM_LOAD, ET_HEAT := OM_GENERATION]
    ensures forall p | p in COMP_MAP && p != P_HP :: |COMP_MAP[p]| == 1
  {
  }

  /** Electricity entries: storage, generation and load families. */
  lemma ElectricityEntries()
    ensures forall p | p in {P_EV, P_BATTERY, P_PSH, P_HYDROGEN} :: COMP_MAP[p] == map[ET_ELECTRICITY := OM_STORAGE]
    ensures forall p | p in {P_PV, P_WIND, P_FIXED_GEN} :: COMP_MAP[p] == map[ET_ELECTRICITY := OM_GENERATION]
    ensures forall p | p in {P_INFLEXIBLE_LOAD, P_FLEXIBLE_LOAD} :: COMP_MAP[p] == map[ET_ELECTRICITY := OM_LOAD]
  {
  }

  /** Heat and hot-water demand are heat loads; heat storage is entered on electricity, as written. */
  lemma HeatEntries()
    ensures COMP_MAP[P_HEAT] == map[ET_HEAT := OM_LOAD]
    ensures COMP_MAP[P_DHW] == map[ET_HEAT := OM_LOAD]
    ensures COMP_MAP[P_HEAT_STORAGE] == map[ET_ELECTRICITY := OM_STORAGE]
  {
  }

  /** Each local market trades one carrier. */
  lemma TradedEnergyEntries()
    ensures TRADED_ENERGY.Keys == {MT_LEM, MT_LFM, MT_LHM, MT_LCM, MT_LH2M}
    ensures TRADED_ENERGY[MT_LEM] == ET_ELECTRICITY && TRADED_ENERGY[MT_LFM] == ET_ELECTRICITY
    ensures TRADED_ENERGY[MT_LHM] == ET_HEAT && TRADED_ENERGY[MT_LCM] == ET_COOLING
    ensures TRADED_ENERGY[MT_LH2M] == ET_H2
    ensures TRADED_ENERGY.Values <= CARRIERS
  {
  }
}
