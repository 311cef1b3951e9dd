/**
 * The carbon calculator tools (src/tools/carbon_calculator.py): three
 * guard-then-formula estimates in pounds of CO2, the total with its
 * breakdown, and a unit conversion that adds a sentence of context.
 *
 * A `ValueError` the source raises is the `ValueError` outcome; `round(x, 2)`
 * and `round(x, 6)` are `Prelude.Round`.
 */
module Carbon {
  import opened Prelude
  import Units

  /** A tool's return value, or the message of the `ValueError` it raises. */
  datatype Outcome<T> = Ok(value: T) | ValueError(message: string)

  /** `calculate_transportation_carbon`: 19.6 lbs of CO2 per gallon of petrol. */
  function TransportationCarbon(milesDriven: real, vehicleMpg: real): (r: Outcome<real>)
    ensures r.ValueError? <==> milesDriven < 0.0 || vehicleMpg <= 0.0
    ensures milesDriven < 0.0 ==> r == ValueError("Miles driven must be non-negative")
    ensures milesDriven >= 0.0 && vehicleMpg <= 0.0 ==> r == ValueError("Vehicle MPG must be positive")
    ensures r.Ok? ==> r.value >= 0.0
  {
    if milesDriven < 0.0 then ValueError("Miles driven must be non-negative")
    else if vehicleMpg <= 0.0 then ValueError("Vehicle MPG must be positive")
    else
      var gallonsUsed := milesDriven / vehicleMpg;
      RoundNonNegative(gallonsUsed * 19.6, 2);
      Ok(Round(gallonsUsed * 19.6, 2))
  }

  /** Driving further in the same car never emits less. */
  lemma TransportationMonotoneInMiles(m1: real, m2: real, mpg: real)
    requires 0.0 <= m1 <= m2 && mpg > 0.0
    ensures TransportationCarbon(m1, mpg).value <= TransportationCarbon(m2, mpg).value
  {
    DivMono(m1, m2, mpg);
    RoundMono(m1 / mpg * 19.6, m2 / mpg * 19.6, 2);
  }

  /** A more efficient car never emits more over the same distance. */
  lemma TransportationAntitoneInMpg(miles: real, mpg1: real, mpg2: real)
    requires miles >= 0.0 && 0.0 < mpg1 <= mpg2
    ensures TransportationCarbon(miles, mpg2).value <= TransportationCarbon(miles, mpg1).value
  {
    assert miles / mpg2 <= miles / mpg1 by {
      assert miles / mpg1 - miles / mpg2 == miles * (mpg2 - mpg1) / (mpg1 * mpg2);
      ScaleMono(miles, 0.0, mpg2 - mpg1);
    }
    RoundMono(miles / mpg2 * 19.6, miles / mpg1 * 19.6, 2);
  }

  /** The emission factor per passenger mile of each class; None for an unlisted class. */
  function ClassFactor(flightClass: string): (r: Option<real>)
    ensures r.Some? ==> 0.44 <= r.value <= 0.88
  {
    if flightClass == "economy" then Some(0.44)
    else if flightClass == "premium_economy" then Some(0.50)
    else if flightClass == "business" then Some(0.66)
    else if flightClass == "first" then Some(0.88)
    else None
  }

  /** `emission_factors.get(flight_class.lower(), 0.44)` */
  function FlightFactor(flightClass: string): (r: real)
    ensures 0.44 <= r <= 0.88
    ensures ClassFactor(Lower(flightClass)).None? ==> r == 0.44
  {
    var f := ClassFactor(Lower(flightClass));
    if f.Some? then f.value else 0.44
  }

  /** `calculate_flight_carbon` */
  function FlightCarbon(milesFlown: real, flightClass: string): (r: Outcome<real>)
    ensures r.ValueError? <==> milesFlown < 0.0
    ensures r.ValueError? ==> r.message == "Miles flown must be non-negative"
    ensures r.Ok? ==> r.value >= 0.0
  {
    if milesFlown < 0.0 then ValueError("Miles flown must be non-negative")
    else
      ScaleMono(FlightFactor(flightClass), 0.0, milesFlown);
      RoundNonNegative(milesFlown * FlightFactor(flightClass), 2);
      Ok(Round(milesFlown * FlightFactor(flightClass), 2))
  }

  /** The class is matched case-insensitively. */
  lemma FlightClassCaseInsensitive(milesFlown: real, flightClass: string)
    ensures FlightCarbon(milesFlown, Upper(flightClass)) == FlightCarbon(milesFlown, flightClass)
  {
    UpperLower(flightClass);
  }

  /** A class the table does not list is charged like economy. */
  lemma UnknownClassIsEconomy(milesFlown: real, flightClass: string)
    requires ClassFactor(Lower(flightClass)).None?
    ensures FlightCarbon(milesFlown, flightClass) == FlightCarbon(milesFlown, "economy")
  {
    LowerOfLower("economy");
  }

  /** Economy has the smallest factor and first class the largest. */
  lemma ExtremeFactors()
    ensures FlightFactor("economy") == 0.44 && FlightFactor("first") == 0.88
  {
    LowerOfLower("economy");
    LowerOfLower("first");
  }

  /** Over the same distance no class emits less than economy or more than first. */
  lemma FlightClassBounds(milesFlown: real, flightClass: string)
    requires milesFlown >= 0.0
    ensures FlightCarbon(milesFlown, "economy").value <= FlightCarbon(milesFlown, flightClass).value
    ensures FlightCarbon(milesFlown, flightClass).value <= FlightCarbon(milesFlown, "first").value
  {
    ExtremeFactors();
    var f := FlightFactor(flightClass);
    LargerFactorEmitsMore(milesFlown, 0.44, f);
    LargerFactorEmitsMore(milesFlown, f, 0.88);
  }

  /** Over the same distance a larger factor never gives a smaller rounded amount. */
  lemma LargerFactorEmitsMore(milesFlown: real, f: real, g: real)
    requires milesFlown >= 0.0 && f <= g
    ensures Round(milesFlown * f, 2) <= Round(milesFlown * g, 2)
  {
    ScaleMono(milesFlown, f, g);
    RoundMono(milesFlown * f, milesFlown * g, 2);
  }

  /** The factor of each energy source; None for an unlisted source. */
  function SourceFactor(energySource: string): (r: Option<real>)
    ensures r.Some? ==> 0.0 < r.value <= 1.5
  {
    if energySource == "grid" then Some(1.0)
    else if energySource == "solar" then Some(0.1)
    else if energySource == "wind" then Some(0.05)
    else if energySource == "hydro" then Some(0.08)
    else if energySource == "coal" then Some(1.5)
    else if energySource == "natural_gas" then Some(0.9)
    else if energySource == "nuclear" then Some(0.05)
    else None
  }

  /** `source_factors.get(energy_source.lower(), 1.0)` */
  function EnergySourceFactor(energySource: string): (r: real)
    ensures 0.0 < r <= 1.5
    ensures SourceFactor(Lower(energySource)).None? ==> r == 1.0
  {
    var f := SourceFactor(Lower(energySource));
    if f.Some? then f.value else 1.0
  }

  /** The unrounded estimate: the non-renewable kWh times 0.954 lbs per kWh times the source factor. */
  function HomeEnergyLbs(kwhUsed: real, renewableRatio: real, energySource: string): real {
    kwhUsed * (1.0 - renewableRatio) * 0.954 * EnergySourceFactor(energySource)
  }

  /** `calculate_home_energy_carbon` */
  function HomeEnergyCarbon(kwhUsed: real, renewableRatio: real, energySource: string): (r: Outcome<real>)
    ensures r.ValueError? <==> kwhUsed < 0.0 || renewableRatio < 0.0 || renewableRatio > 1.0
    ensures kwhUsed < 0.0 ==> r == ValueError("kWh used must be non-negative")
    ensures kwhUsed >= 0.0 && (renewableRatio < 0.0 || renewableRatio > 1.0) ==>
      r == ValueError("Renewable ratio must be between 0 and 1")
    ensures r.Ok? ==> r.value >= 0.0
  {
    if kwhUsed < 0.0 then ValueError("kWh used must be non-negative")
    else if !(0.0 <= renewableRatio <= 1.0) then ValueError("Renewable ratio must be between 0 and 1")
    else
      HomeEnergyNonNegative(kwhUsed, renewableRatio, energySource);
      Ok(Round(HomeEnergyLbs(kwhUsed, renewableRatio, energySource), 2))
  }

  lemma HomeEnergyNonNegative(kwhUsed: real, renewableRatio: real, energySource: string)
    requires kwhUsed >= 0.0 && 0.0 <= renewableRatio <= 1.0
    ensures Round(HomeEnergyLbs(kwhUsed, renewableRatio, energySource), 2) >= 0.0
  {
    var n := kwhUsed * (1.0 - renewableRatio);
    ScaleMono(kwhUsed, 0.0, 1.0 - renewableRatio);
    ScaleMono(0.954 * EnergySourceFactor(energySource), 0.0, n);
    assert n * 0.954 * EnergySourceFactor(energySource) == 0.954 * EnergySourceFactor(energySource) * n;
    RoundNonNegative(HomeEnergyLbs(kwhUsed, renewableRatio, energySource), 2);
  }

  /** All-renewable energy emits nothing, whatever the source. */
  lemma FullyRenewableEmitsNothing(kwhUsed: real, energySource: string)
    requires kwhUsed >= 0.0
    ensures HomeEnergyCarbon(kwhUsed, 1.0, energySource) == Ok(0.0)
  {
    assert HomeEnergyLbs(kwhUsed, 1.0, energySource) == 0.0;
    RoundZero(2);
  }

  /** A larger renewable share never emits more. */
  lemma HomeEnergyAntitoneInRatio(kwhUsed: real, r1: real, r2: real, energySource: string)
    requires kwhUsed >= 0.0 && 0.0 <= r1 <= r2 <= 1.0
    ensures HomeEnergyCarbon(kwhUsed, r2, energySource).value
         <= HomeEnergyCarbon(kwhUsed, r1, energySource).value
  {
    var k := 0.954 * EnergySourceFactor(energySource);
    ScaleMono(kwhUsed, 1.0 - r2, 1.0 - r1);
    ScaleMono(k, kwhUsed * (1.0 - r2), kwhUsed * (1.0 - r1));
    assert HomeEnergyLbs(kwhUsed, r1, energySource) == k * (kwhUsed * (1.0 - r1));
    assert HomeEnergyLbs(kwhUsed, r2, energySource) == k * (kwhUsed * (1.0 - r2));
    RoundMono(HomeEnergyLbs(kwhUsed, r2, energySource), HomeEnergyLbs(kwhUsed, r1, energySource), 2);
  }

  /** An unlisted source is charged like the grid. */
  lemma UnknownSourceIsGrid(kwhUsed: real, renewableRatio: real, energySource: string)
    requires SourceFactor(Lower(energySource)).None?
    ensures HomeEnergyCarbon(kwhUsed, renewableRatio, energySource)
         == HomeEnergyCarbon(kwhUsed, renewableRatio, "grid")
  {
    LowerOfLower("grid");
    assert EnergySourceFactor(energySource) == EnergySourceFactor("grid") == 1.0;
    assert HomeEnergyLbs(kwhUsed, renewableRatio, energySource) == HomeEnergyLbs(kwhUsed, renewableRatio, "grid");
  }

  /** The dict `calculate_total_carbon` returns; the breakdown lists (source, lbs) in insertion order. */
  datatype TotalReport = TotalReport(totalCarbon: real, breakdown: seq<(string, real)>, timestamp: Time)

  /** One breakdown entry, present only for a non-zero amount. */
  function EntryIfNonZero(source: string, lbs: real): (r: seq<(string, real)>)
    ensures r == [] <==> lbs == 0.0
  {
    if lbs != 0.0 then [(source, lbs)] else []
  }

  /** The sum of a breakdown's amounts. */
  function SumOf(entries: seq<(string, real)>): real {
    if entries == [] then 0.0 else entries[0].1 + SumOf(entries[1..])
  }

  lemma {:induction false} SumOfAppend(a: seq<(string, real)>, b: seq<(string, real)>)
    ensures SumOf(a + b) == SumOf(a) + SumOf(b)
  {
    if a == [] {
      assert a + b == b;
    } else {
      assert (a + b)[0] == a[0];
      assert (a + b)[1..] == a[1..] + b;
      SumOfAppend(a[1..], b);
    }
  }

  /** `calculate_total_carbon`; the clock reading is passed in. */
  function CalculateTotalCarbon(transportation: real, flight: real, homeEnergy: real, now: Time): (r: TotalReport)
    ensures r.timestamp == now
    ensures |r.breakdown| <= 3
  {
    TotalReport(Round(transportation + flight + homeEnergy, 2),
                EntryIfNonZero("transportation", transportation)
                  + EntryIfNonZero("flight", flight)
                  + EntryIfNonZero("home_energy", homeEnergy),
                now)
  }

  /**
   * The breakdown has an entry for a source exactly when its amount is
   * non-zero, carrying that amount, and the sources keep their order.
   */
  lemma BreakdownOmitsZeros(transportation: real, flight: real, homeEnergy: real, now: Time)
    ensures var b := CalculateTotalCarbon(transportation, flight, homeEnergy, now).breakdown;
      && (("transportation", transportation) in b <==> transportation != 0.0)
      && (("flight", flight) in b <==> flight != 0.0)
      && (("home_energy", homeEnergy) in b <==> homeEnergy != 0.0)
      && (forall e :: e in b ==> e.1 != 0.0)
      && (forall e :: e in b ==> e.0 in {"transportation", "flight", "home_energy"})
      && Distinct(seq(|b|, i requires 0 <= i < |b| => b[i].0))
  {
  }

  /** Dropping the zero amounts loses nothing: the total is the rounded sum of the breakdown. */
  lemma TotalIsSumOfBreakdown(transportation: real, flight: real, homeEnergy: real, now: Time)
    ensures var r := CalculateTotalCarbon(transportation, flight, homeEnergy, now);
      r.totalCarbon == Round(SumOf(r.breakdown), 2)
  {
    var a := EntryIfNonZero("transportation", transportation);
    var b := EntryIfNonZero("flight", flight);
    var c := EntryIfNonZero("home_energy", homeEnergy);
    SumOfAppend(a, b);
    SumOfAppend(a + b, c);
  }

  /** `round(x, 2)` is within half a cent of x. */
  lemma RoundTwoClose(x: real)
    ensures x - 0.005 <= Round(x, 2) <= x + 0.005
  {
    assert Pow10(2) == 100.0 by {
      assert Pow10(1) == 10.0 * Pow10(0);
    }
    var n := FloorOf(x * 100.0 + 0.5);
    RoundAtDef(x, 100.0);
    assert Round(x, 2) == n as real / 100.0;
  }

  /** The reported total differs from the exact sum by at most half a cent. */
  lemma TotalIsCloseToSum(transportation: real, flight: real, homeEnergy: real, now: Time)
    ensures var s := transportation + flight + homeEnergy;
      var r := CalculateTotalCarbon(transportation, flight, homeEnergy, now);
      s - 0.005 <= r.totalCarbon <= s + 0.005
  {
    RoundTwoClose(transportation + flight + homeEnergy);
  }

  // ---------------------------------------------------------------------------
  // convert_units_with_context of the carbon calculator

  /** The dict the carbon calculator's `convert_units_with_context` returns. */
  datatype ContextConversion = ContextConversion(originalValue: real, originalUnit: string,
                                                 convertedValue: real, convertedUnit: string,
                                                 contextualInfo: string)

  const DistanceUnits: seq<string> := ["miles", "kilometers", "meters", "feet", "yards"]
  const WeightUnits: seq<string> := ["pounds", "kilograms", "grams", "ounces"]
  const EnergyUnits: seq<string> := ["kwh", "kilowatt_hours", "megajoules", "btu", "calories"]
  const VolumeUnits: seq<string> := ["gallons", "liters", "cubic_meters", "milliliters"]

  /** The sentence chosen by the lower-cased units: both must be in the same list. */
  function CategorySentence(f: string, t: string): string {
    if f in DistanceUnits && t in DistanceUnits then "Distance conversion between imperial and metric systems."
    else if f in WeightUnits && t in WeightUnits then "Weight conversion between imperial and metric systems."
    else if f in EnergyUnits && t in EnergyUnits then "Energy conversion between different energy measurement systems."
    else if f in VolumeUnits && t in VolumeUnits then "Volume conversion between imperial and metric systems."
    else "Unit conversion between different measurement systems."
  }

  /**
   * `convert_units_with_context`. The units are NOT alias-expanded, and
   * every failure of `convert_units` is re-raised with the units named;
   * `show` is `str()` on a float, used by the f-string.
   */
  function ConvertUnitsWithContext(fromValue: real, fromUnit: string, toUnit: string,
                                   show: real -> string): (r: Outcome<ContextConversion>)
    ensures var c := Units.ConvertUnits(fromValue, fromUnit, toUnit);
      && (r.ValueError? <==> c.NotSupported?)
      && (r.ValueError? ==>
            r.message == "Unable to convert from " + fromUnit + " to " + toUnit + ": " + c.message)
      && (r.Ok? ==>
            && r.value.originalValue == fromValue && r.value.originalUnit == fromUnit
            && r.value.convertedUnit == toUnit && r.value.convertedValue == Round(c.value, 6))
  {
    match Units.ConvertUnits(fromValue, fromUnit, toUnit)
    case NotSupported(message) =>
      ValueError("Unable to convert from " + fromUnit + " to " + toUnit + ": " + message)
    case Converted(x) =>
      var info := "Converted " + show(fromValue) + " " + fromUnit + " to " + show(x) + " " + toUnit + ". ";
      Ok(ContextConversion(fromValue, fromUnit, Round(x, 6), toUnit,
                           info + CategorySentence(Lower(fromUnit), Lower(toUnit))))
  }

  /** The category table, looked up by a name's own spelling. */
  lemma CategoryOfSpelling(n: Units.Name)
    ensures Units.UnitCategory(Units.Spelling(n))
         == if Units.CategoryOf(n).Some? then Units.CategoryName(Units.CategoryOf(n).value) else "unknown"
  {
    Units.SpellingsAreLower(n);
    Units.NameOfSpelling(n);
  }

  /** A unit spelled as a listed name has that name's category. */
  lemma ListedAs(u: string, n: Units.Name, category: string)
    requires Units.Spelling(n) == u && Units.CategoryOf(n).Some?
    requires Units.CategoryName(Units.CategoryOf(n).value) == category
    ensures Units.UnitCategory(u) == category
  {
    CategoryOfSpelling(n);
  }

  /** A listed distance unit has the distance category of the unit tables, and so on for each list. */
  lemma DistanceListed(u: string)
    requires u in DistanceUnits
    ensures Units.UnitCategory(u) == "distance"
  {
    var i :| 0 <= i < |DistanceUnits| && DistanceUnits[i] == u;
    DistanceListedAt(i);
  }

  lemma DistanceListedAt(i: int)
    requires 0 <= i < |DistanceUnits|
    ensures Units.UnitCategory(DistanceUnits[i]) == "distance"
  {
    if i == 0 {
      ListedAs(DistanceUnits[i], Units.Miles, "distance");
    } else if i == 1 {
      ListedAs(DistanceUnits[i], Units.Kilometers, "distance");
    } else if i == 2 {
      ListedAs(DistanceUnits[i], Units.Meters, "distance");
    } else if i == 3 {
      ListedAs(DistanceUnits[i], Units.Feet, "distance");
    } else {
      ListedAs(DistanceUnits[i], Units.Yards, "distance");
    }
  }

  lemma WeightListed(u: string)
    requires u in WeightUnits
    ensures Units.UnitCategory(u) == "weight"
  {
    var i :| 0 <= i < |WeightUnits| && WeightUnits[i] == u;
    WeightListedAt(i);
  }

  lemma WeightListedAt(i: int)
    requires 0 <= i < |WeightUnits|
    ensures Units.UnitCategory(WeightUnits[i]) == "weight"
  {
    if i == 0 {
      ListedAs(WeightUnits[i], Units.Pounds, "weight");
    } else if i == 1 {
      ListedAs(WeightUnits[i], Units.Kilograms, "weight");
    } else if i == 2 {
      ListedAs(WeightUnits[i], Units.Grams, "weight");
    } else {
      ListedAs(WeightUnits[i], Units.Ounces, "weight");
    }
  }

  lemma EnergyListed(u: string)
    requires u in EnergyUnits
    ensures Units.UnitCategory(u) == "energy"
  {
    var i :| 0 <= i < |EnergyUnits| && EnergyUnits[i] == u;
    EnergyListedAt(i);
  }

  lemma EnergyListedAt(i: int)
    requires 0 <= i < |EnergyUnits|
    ensures Units.UnitCategory(EnergyUnits[i]) == "energy"
  {
    if i == 0 {
      ListedAs(EnergyUnits[i], Units.Kwh, "energy");
    } else if i == 1 {
      ListedAs(EnergyUnits[i], Units.KilowattHours, "energy");
    } else if i == 2 {
      ListedAs(EnergyUnits[i], Units.Megajoules, "energy");
    } else if i == 3 {
      ListedAs(EnergyUnits[i], Units.Btu, "energy");
    } else {
      ListedAs(EnergyUnits[i], Units.Calories, "energy");
    }
  }

  lemma VolumeListed(u: string)
    requires u in VolumeUnits
    ensures Units.UnitCategory(u) == "volume"
  {
    var i :| 0 <= i < |VolumeUnits| && VolumeUnits[i] == u;
    VolumeListedAt(i);
  }

  lemma VolumeListedAt(i: int)
    requires 0 <= i < |VolumeUnits|
    ensures Units.UnitCategory(VolumeUnits[i]) == "volume"
  {
    if i == 0 {
      ListedAs(VolumeUnits[i], Units.Gallons, "volume");
    } else if i == 1 {
      ListedAs(VolumeUnits[i], Units.Liters, "volume");
    } else if i == 2 {
      ListedAs(VolumeUnits[i], Units.CubicMeters, "volume");
    } else {
      ListedAs(VolumeUnits[i], Units.Milliliters, "volume");
    }
  }

  /**
   * The sentence's lists agree with the category table: two units of the
   * distance list (which picks the distance sentence) are both distances
   * there, and so on for each list.
   */
  lemma SentenceAgreesWithCategories(fromUnit: string, toUnit: string)
    ensures var f, t := Lower(fromUnit), Lower(toUnit);
      var cf, ct := Units.UnitCategory(fromUnit), Units.UnitCategory(toUnit);
      && (f in DistanceUnits && t in DistanceUnits ==> cf == ct == "distance")
      && (f in WeightUnits && t in WeightUnits ==> cf == ct == "weight")
      && (f in EnergyUnits && t in EnergyUnits ==> cf == ct == "energy")
      && (f in VolumeUnits && t in VolumeUnits ==> cf == ct == "volume")
  {
    ListedByCategory(fromUnit);
    ListedByCategory(toUnit);
  }

  /** One unit's list and its category. */
  lemma ListedByCategory(unit: string)
    ensures var u, c := Lower(unit), Units.UnitCategory(unit);
      && (u in DistanceUnits ==> c == "distance")
      && (u in WeightUnits ==> c == "weight")
      && (u in EnergyUnits ==> c == "energy")
      && (u in VolumeUnits ==> c == "volume")
  {
    var u := Lower(unit);
    LowerIdempotent(unit);
    assert Units.UnitCategory(u) == Units.UnitCategory(unit);
    if u in DistanceUnits {
      DistanceListed(u);
    } else if u in WeightUnits {
      WeightListed(u);
    } else if u in EnergyUnits {
      EnergyListed(u);
    } else if u in VolumeUnits {
      VolumeListed(u);
    }
  }

  /** Unlike the unit converter tool, this one does not expand aliases: "mi" to "km" raises. */
  lemma AliasesRaise(fromValue: real, show: real -> string)
    ensures ConvertUnitsWithContext(fromValue, "mi", "km", show).ValueError?
    ensures Units.ConvertWithContext(fromValue, "mi", "km").ConversionSucceeded?
  {
    Units.AliasesAreNotInTables(fromValue);
    Units.AliasesExpandedFirst(fromValue);
  }

  /** Equal units (up to case) always succeed and report the value rounded, even for unlisted units. */
  lemma SameUnitSucceeds(fromValue: real, unit: string, show: real -> string)
    ensures var r := ConvertUnitsWithContext(fromValue, unit, Upper(unit), show);
      r.Ok? && r.value.convertedValue == Round(fromValue, 6)
  {
    Units.SameUnitIsIdentity(fromValue, unit);
  }
}
