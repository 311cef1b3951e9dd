/**
 * The recommendation agent's rule-based suggestion lists: transportation
 * alternatives chosen by trip distance, home energy improvements chosen by
 * home type, and dietary changes chosen by environmental concern. Each list
 * is built by appending fixed entries in a fixed order.
 */
module Suggestions {
  import opened Prelude

  // ---------------------------------------------------------------------------
  // Transportation

  datatype Alternative = Alternative(option: string, impact: string, feasibility: string)

  /** Walking or cycling is offered for trips of at most this many miles. */
  const WalkingMiles: real := 3.0
  /** Public transit is offered for trips of at most this many miles. */
  const TransitMiles: real := 15.0

  const WalkOrBike := Alternative("Walk or Bike", "Near zero carbon emissions, health benefits",
                                  "High for short distances")
  const PublicTransit := Alternative("Public Transit", "Significantly lower emissions than driving alone",
                                     "Check local transit availability")
  const ElectricVehicle := Alternative("Electric Vehicle", "Zero direct emissions, lower overall emissions",
                                       "Consider charging infrastructure")
  const Carpooling := Alternative("Carpooling", "Reduces per-person emissions by sharing rides",
                                  "Coordinate with colleagues or neighbors")

  /**
   * `suggest_transportation_alternatives`: walking or cycling for short
   * trips, public transit for medium ones, and always an electric vehicle
   * and carpooling, in that order, at the end.
   */
  function TransportationAlternatives(distanceMiles: real): (r: seq<Alternative>)
    ensures WalkOrBike in r <==> distanceMiles <= WalkingMiles
    ensures PublicTransit in r <==> distanceMiles <= TransitMiles
    ensures |r| >= 2 && r[|r| - 2] == ElectricVehicle && r[|r| - 1] == Carpooling
    ensures |r| == 2 + (if distanceMiles <= WalkingMiles then 1 else 0) + (if distanceMiles <= TransitMiles then 1 else 0)
    ensures distanceMiles <= WalkingMiles ==> r[0] == WalkOrBike
    ensures forall a :: a in r ==> a in [WalkOrBike, PublicTransit, ElectricVehicle, Carpooling]
  {
    (if distanceMiles <= WalkingMiles then [WalkOrBike] else []) +
    (if distanceMiles <= TransitMiles then [PublicTransit] else []) +
    [ElectricVehicle, Carpooling]
  }

  /** A shorter trip is offered every alternative a longer one is, and possibly more. */
  lemma ShorterTripsGetMore(shorter: real, longer: real)
    requires shorter <= longer
    ensures forall a :: a in TransportationAlternatives(longer) ==> a in TransportationAlternatives(shorter)
    ensures |TransportationAlternatives(longer)| <= |TransportationAlternatives(shorter)|
  {
  }

  // ---------------------------------------------------------------------------
  // Home energy

  datatype Improvement = Improvement(action: string, benefit: string, cost: string, difficulty: string)

  const LedLighting := Improvement("Upgrade to LED lighting", "Uses 75% less energy than traditional bulbs",
                                   "Low upfront cost", "Easy DIY")
  const Thermostat := Improvement("Install a programmable thermostat", "Can save 10-15% on heating/cooling costs",
                                  "Moderate cost", "Moderate installation")
  const Insulation := Improvement("Improve insulation", "Significant long-term energy savings",
                                  "Higher upfront cost", "Professional installation recommended")
  const SolarPanels := Improvement("Consider solar panels",
                                   "Renewable energy source, potential for selling back to grid",
                                   "High upfront cost but long-term savings", "Professional installation required")

  /** A home type, compared case-insensitively, that gets the structural improvements. */
  predicate StandaloneHome(homeType: string) {
    Lower(homeType) in ["house", "detached"]
  }

  /**
   * `suggest_energy_efficiency_improvements`: LED lighting and a
   * programmable thermostat always; insulation and solar panels as well for
   * a house or detached home. The current energy source plays no part.
   */
  function EnergyEfficiencyImprovements(homeType: string, currentEnergySource: string): (r: seq<Improvement>)
    ensures |r| >= 2 && r[0] == LedLighting && r[1] == Thermostat
    ensures Insulation in r <==> StandaloneHome(homeType)
    ensures SolarPanels in r <==> StandaloneHome(homeType)
    ensures |r| == if StandaloneHome(homeType) then 4 else 2
  {
    [LedLighting, Thermostat] + if StandaloneHome(homeType) then [Insulation, SolarPanels] else []
  }

  /** The energy source does not change the suggestions. */
  lemma EnergySourceIgnored(homeType: string, a: string, b: string)
    ensures EnergyEfficiencyImprovements(homeType, a) == EnergyEfficiencyImprovements(homeType, b)
  {
  }

  /** The home type is read without regard to letter case. */
  lemma HomeTypeIgnoresCase(homeType: string, source: string)
    ensures EnergyEfficiencyImprovements(Lower(homeType), source) == EnergyEfficiencyImprovements(homeType, source)
  {
    LowerIdempotent(homeType);
  }

  // ---------------------------------------------------------------------------
  // Diet

  datatype DietaryChange = DietaryChange(change: string, impact: string, suggestion: string)

  const ReduceMeat := DietaryChange("Reduce meat consumption",
                                    "Animal agriculture contributes significantly to greenhouse gases",
                                    "Try 'Meatless Mondays' or plant-based alternatives")
  const LocalFoods := DietaryChange("Choose locally sourced foods", "Reduces transportation emissions",
                                    "Shop at farmers markets or join a CSA")
  const ReduceFoodWaste := DietaryChange("Reduce food waste",
                                         "Significant water savings as food waste represents wasted water resources",
                                         "Plan meals, store food properly, compost scraps")
  const PlantBased := DietaryChange("Choose plant-based options",
                                    "Plant-based foods generally require less water than animal products",
                                    "Replace some animal products with plant proteins")
  const MinimizePackaging := DietaryChange("Minimize packaging", "Reduces waste generation",
                                           "Buy in bulk, choose minimal packaging, bring reusable bags")

  /**
   * `suggest_dietary_changes`: the concern "carbon" (matched exactly) adds
   * less meat and local food, "water" adds less food waste and plant-based
   * options, and minimal packaging always comes last.
   */
  function DietaryChanges(environmentalConcern: string): (r: seq<DietaryChange>)
    ensures |r| >= 1 && r[|r| - 1] == MinimizePackaging
    ensures ReduceMeat in r <==> environmentalConcern == "carbon"
    ensures LocalFoods in r <==> environmentalConcern == "carbon"
    ensures ReduceFoodWaste in r <==> environmentalConcern == "water"
    ensures PlantBased in r <==> environmentalConcern == "water"
    ensures |r| == if environmentalConcern in ["carbon", "water"] then 3 else 1
  {
    (if environmentalConcern == "carbon" then [ReduceMeat, LocalFoods] else []) +
    (if environmentalConcern == "water" then [ReduceFoodWaste, PlantBased] else []) +
    [MinimizePackaging]
  }

  /** Any other concern, "waste" included, gets only the packaging advice. */
  lemma OtherConcernsGetPackagingOnly(environmentalConcern: string)
    requires environmentalConcern != "carbon" && environmentalConcern != "water"
    ensures DietaryChanges(environmentalConcern) == [MinimizePackaging]
  {
  }
}
