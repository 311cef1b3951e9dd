/**
 * Unit conversion (ecoagent/utils/unit_conversion.py) and the unit converter
 * tool (src/tools/unit_converter.py): the four factor tables merged into one,
 * `convert_units` with its direct-then-reverse lookup, the alias and
 * category tables, the four input normalisers and the tool that expands
 * aliases and checks categories before converting.
 *
 * The tables are keyed by `Name`, one constructor per spelling they list;
 * a unit argument is any string, and the string is looked up with `NameOf`.
 * Every factor is a decimal literal read as an exact real, and `round(x, 6)`
 * is `Prelude.Round`.
 */
module Units {
  import opened Prelude

  /**
   * Every unit name and alias the tables mention. A unit is written as a
   * string; `NameOf` recognises the ones listed here.
   */
  datatype Name =
    | Miles | Kilometers | Meters | Feet | Yards | Centimeters | Millimeters | Inches
    | Pounds | Kilograms | Grams | Ounces | MetricTons | Kwh | Megajoules | Btu
    | Calories | Kilocalories | Gallons | Liters | CubicMeters | Milliliters | Quarts | Pints
    | Cups | FluidOunces | Mi | Km | M | Ft | Yd | Lb
    | Lbs | Kg | Kilos | G | Oz | KilowattHours | Mj | Cal
    | Gal | Gals | L | Litres | Ml | Millilitres | M3 | CubicMetres

  /** The lower-case spelling the tables use. */
  function Spelling(n: Name): string {
    match n
    case Miles => "miles"
    case Kilometers => "kilometers"
    case Meters => "meters"
    case Feet => "feet"
    case Yards => "yards"
    case Centimeters => "centimeters"
    case Millimeters => "millimeters"
    case Inches => "inches"
    case Pounds => "pounds"
    case Kilograms => "kilograms"
    case Grams => "grams"
    case Ounces => "ounces"
    case MetricTons => "metric_tons"
    case Kwh => "kwh"
    case Megajoules => "megajoules"
    case Btu => "btu"
    case Calories => "calories"
    case Kilocalories => "kilocalories"
    case Gallons => "gallons"
    case Liters => "liters"
    case CubicMeters => "cubic_meters"
    case Milliliters => "milliliters"
    case Quarts => "quarts"
    case Pints => "pints"
    case Cups => "cups"
    case FluidOunces => "fluid_ounces"
    case Mi => "mi"
    case Km => "km"
    case M => "m"
    case Ft => "ft"
    case Yd => "yd"
    case Lb => "lb"
    case Lbs => "lbs"
    case Kg => "kg"
    case Kilos => "kilos"
    case G => "g"
    case Oz => "oz"
    case KilowattHours => "kilowatt_hours"
    case Mj => "mj"
    case Cal => "cal"
    case Gal => "gal"
    case Gals => "gals"
    case L => "l"
    case Litres => "litres"
    case Ml => "ml"
    case Millilitres => "millilitres"
    case M3 => "m3"
    case CubicMetres => "cubic_metres"
  }

  /** The category names `get_unit_category` returns, apart from "unknown". */
  datatype Category = Distance | Weight | Energy | Volume

  function CategoryName(c: Category): string {
    match c
    case Distance => "distance"
    case Weight => "weight"
    case Energy => "energy"
    case Volume => "volume"
  }

  /** `DISTANCE_CONVERSIONS`, None for a missing key. */
  function DistanceFactor(a: Name, b: Name): (r: Option<real>)
    ensures r.Some? ==> r.value > 0.0
  {
    match (a, b)
    case (Miles, Kilometers) => Some(1.60934)
    case (Miles, Meters) => Some(1609.34)
    case (Miles, Feet) => Some(5280.0)
    case (Miles, Yards) => Some(1760.0)
    case (Kilometers, Miles) => Some(0.621371)
    case (Kilometers, Meters) => Some(1000.0)
    case (Kilometers, Centimeters) => Some(100000.0)
    case (Kilometers, Millimeters) => Some(1000000.0)
    case (Meters, Miles) => Some(0.000621371)
    case (Meters, Kilometers) => Some(0.001)
    case (Meters, Centimeters) => Some(100.0)
    case (Meters, Millimeters) => Some(1000.0)
    case (Meters, Feet) => Some(3.28084)
    case (Meters, Yards) => Some(1.09361)
    case (Feet, Miles) => Some(0.000189394)
    case (Feet, Kilometers) => Some(0.0003048)
    case (Feet, Meters) => Some(0.3048)
    case (Feet, Inches) => Some(12.0)
    case (Yards, Miles) => Some(0.000568182)
    case (Yards, Kilometers) => Some(0.0009144)
    case (Yards, Meters) => Some(0.9144)
    case (Yards, Feet) => Some(3.0)
    case _ => None
  }

  /** `WEIGHT_CONVERSIONS`, None for a missing key. */
  function WeightFactor(a: Name, b: Name): (r: Option<real>)
    ensures r.Some? ==> r.value > 0.0
  {
    match (a, b)
    case (Pounds, Kilograms) => Some(0.453592)
    case (Pounds, Grams) => Some(453.592)
    case (Pounds, Ounces) => Some(16.0)
    case (Kilograms, Pounds) => Some(2.20462)
    case (Kilograms, Grams) => Some(1000.0)
    case (Kilograms, MetricTons) => Some(0.001)
    case (Kilograms, Ounces) => Some(35.274)
    case (Grams, Pounds) => Some(0.00220462)
    case (Grams, Kilograms) => Some(0.001)
    case (Grams, Ounces) => Some(0.035274)
    case _ => None
  }

  /** `ENERGY_CONVERSIONS`, None for a missing key. */
  function EnergyFactor(a: Name, b: Name): (r: Option<real>)
    ensures r.Some? ==> r.value > 0.0
  {
    match (a, b)
    case (Kwh, Megajoules) => Some(3.6)
    case (Kwh, Btu) => Some(3412.14)
    case (Kwh, Calories) => Some(860421.0)
    case (Kwh, Kilocalories) => Some(860.421)
    case (Megajoules, Kwh) => Some(0.277778)
    case (Megajoules, Btu) => Some(947.817)
    case (Megajoules, Calories) => Some(239006.0)
    case (Btu, Kwh) => Some(0.000293071)
    case (Btu, Megajoules) => Some(0.00105506)
    case (Btu, Calories) => Some(252.164)
    case _ => None
  }

  /** `VOLUME_CONVERSIONS`, None for a missing key. */
  function VolumeFactor(a: Name, b: Name): (r: Option<real>)
    ensures r.Some? ==> r.value > 0.0
  {
    match (a, b)
    case (Gallons, Liters) => Some(3.78541)
    case (Gallons, CubicMeters) => Some(0.00378541)
    case (Gallons, Quarts) => Some(4.0)
    case (Gallons, Pints) => Some(8.0)
    case (Gallons, Cups) => Some(16.0)
    case (Gallons, FluidOunces) => Some(128.0)
    case (Liters, Gallons) => Some(0.264172)
    case (Liters, CubicMeters) => Some(0.001)
    case (Liters, Milliliters) => Some(1000.0)
    case (Liters, Cups) => Some(4.22675)
    case (Liters, FluidOunces) => Some(33.814)
    case _ => None
  }

  /** `UNIT_ALIASES.get(n)` */
  function AliasOf(n: Name): Option<Name> {
    match n
    case Mi => Some(Miles)
    case Km => Some(Kilometers)
    case M => Some(Meters)
    case Ft => Some(Feet)
    case Yd => Some(Yards)
    case Lb => Some(Pounds)
    case Lbs => Some(Pounds)
    case Kg => Some(Kilograms)
    case Kilos => Some(Kilograms)
    case G => Some(Grams)
    case Oz => Some(Ounces)
    case KilowattHours => Some(Kwh)
    case Mj => Some(Megajoules)
    case Gal => Some(Gallons)
    case Gals => Some(Gallons)
    case L => Some(Liters)
    case Litres => Some(Liters)
    case Ml => Some(Milliliters)
    case Millilitres => Some(Milliliters)
    case M3 => Some(CubicMeters)
    case CubicMetres => Some(CubicMeters)
    case _ => None
  }

  /** `UNIT_CATEGORIES.get(n)`; None where the dict has no entry. */
  function CategoryOf(n: Name): Option<Category> {
    match n
    case Miles | Mi | Kilometers | Km | Meters | M | Feet | Ft | Yards | Yd => Some(Distance)
    case Pounds | Lbs | Lb | Kilograms | Kg | Kilos | Grams | G | Ounces | Oz => Some(Weight)
    case Kwh | KilowattHours | Megajoules | Mj | Btu | Calories | Cal => Some(Energy)
    case Gallons | Gal | Gals | Liters | L | Litres | CubicMeters | M3 | CubicMetres | Milliliters | Ml | Millilitres => Some(Volume)
    case _ => None
  }

  /** Reads a spelling back: by its length first, then by its letters. */
  function Decode(s: string): Option<Name> {
    if |s| == 1 then
      if s == "m" then Some(M)
      else if s == "g" then Some(G)
      else if s == "l" then Some(L)
      else None
    else if |s| == 2 then
      if s == "mi" then Some(Mi)
      else if s == "km" then Some(Km)
      else if s == "ft" then Some(Ft)
      else if s == "yd" then Some(Yd)
      else if s == "lb" then Some(Lb)
      else if s == "kg" then Some(Kg)
      else if s == "oz" then Some(Oz)
      else if s == "mj" then Some(Mj)
      else if s == "ml" then Some(Ml)
      else if s == "m3" then Some(M3)
      else None
    else if |s| == 3 then
      if s == "kwh" then Some(Kwh)
      else if s == "btu" then Some(Btu)
      else if s == "lbs" then Some(Lbs)
      else if s == "cal" then Some(Cal)
      else if s == "gal" then Some(Gal)
      else None
    else if |s| == 4 then
      if s == "feet" then Some(Feet)
      else if s == "cups" then Some(Cups)
      else if s == "gals" then Some(Gals)
      else None
    else if |s| == 5 then
      if s == "miles" then Some(Miles)
      else if s == "yards" then Some(Yards)
      else if s == "grams" then Some(Grams)
      else if s == "pints" then Some(Pints)
      else if s == "kilos" then Some(Kilos)
      else None
    else if |s| == 6 then
      if s == "meters" then Some(Meters)
      else if s == "inches" then Some(Inches)
      else if s == "pounds" then Some(Pounds)
      else if s == "ounces" then Some(Ounces)
      else if s == "liters" then Some(Liters)
      else if s == "quarts" then Some(Quarts)
      else if s == "litres" then Some(Litres)
      else None
    else if |s| == 7 then
      if s == "gallons" then Some(Gallons)
      else None
    else if |s| == 8 then
      if s == "calories" then Some(Calories)
      else None
    else if |s| == 9 then
      if s == "kilograms" then Some(Kilograms)
      else None
    else if |s| == 10 then
      if s == "kilometers" then Some(Kilometers)
      else if s == "megajoules" then Some(Megajoules)
      else None
    else if |s| == 11 then
      if s == "centimeters" then Some(Centimeters)
      else if s == "millimeters" then Some(Millimeters)
      else if s == "metric_tons" then Some(MetricTons)
      else if s == "milliliters" then Some(Milliliters)
      else if s == "millilitres" then Some(Millilitres)
      else None
    else if |s| == 12 then
      if s == "kilocalories" then Some(Kilocalories)
      else if s == "cubic_meters" then Some(CubicMeters)
      else if s == "fluid_ounces" then Some(FluidOunces)
      else if s == "cubic_metres" then Some(CubicMetres)
      else None
    else if |s| == 14 then
      if s == "kilowatt_hours" then Some(KilowattHours)
      else None
    else None
  }

  /** Each spelling reads back as its name (one lemma per group of names). */
  lemma DecodeSpelling(n: Name)
    ensures Decode(Spelling(n)) == Some(n)
  {
    if n in {Miles, Kilometers, Meters, Feet, Yards, Centimeters, Millimeters, Inches, Mi, Km, M, Ft, Yd} {
      DecodeDistanceSpelling(n);
    } else if n in {Pounds, Kilograms, Grams, Ounces, MetricTons, Lb, Lbs, Kg, Kilos, G, Oz} {
      DecodeWeightSpelling(n);
    } else if n in {Kwh, Megajoules, Btu, Calories, Kilocalories, KilowattHours, Mj, Cal} {
      DecodeEnergySpelling(n);
    } else if n in {Gallons, Liters, CubicMeters, Milliliters, Quarts, Pints, Cups, FluidOunces} {
      DecodeLiquidSpelling(n);
    } else {
      DecodeVolumeAliasSpelling(n);
    }
  }

  lemma DecodeDistanceSpelling(n: Name)
    requires n in {Miles, Kilometers, Meters, Feet, Yards, Centimeters, Millimeters, Inches, Mi, Km, M, Ft, Yd}
    ensures Decode(Spelling(n)) == Some(n)
  {
  }

  lemma DecodeWeightSpelling(n: Name)
    requires n in {Pounds, Kilograms, Grams, Ounces, MetricTons, Lb, Lbs, Kg, Kilos, G, Oz}
    ensures Decode(Spelling(n)) == Some(n)
  {
  }

  lemma DecodeEnergySpelling(n: Name)
    requires n in {Kwh, Megajoules, Btu, Calories, Kilocalories, KilowattHours, Mj, Cal}
    ensures Decode(Spelling(n)) == Some(n)
  {
  }

  lemma DecodeLiquidSpelling(n: Name)
    requires n in {Gallons, Liters, CubicMeters, Milliliters, Quarts, Pints, Cups, FluidOunces}
    ensures Decode(Spelling(n)) == Some(n)
  {
  }

  lemma DecodeVolumeAliasSpelling(n: Name)
    requires n in {Gal, Gals, L, Litres, Ml, Millilitres, M3, CubicMetres}
    ensures Decode(Spelling(n)) == Some(n)
  {
  }

  /** No two names are spelled alike, since each spelling reads back as its name. */
  lemma SpellingInjective(a: Name, b: Name)
    requires Spelling(a) == Spelling(b)
    ensures a == b
  {
    DecodeSpelling(a);
    DecodeSpelling(b);
  }

  lemma SpellingsDiffer(a: Name, b: Name)
    requires a != b
    ensures Spelling(a) != Spelling(b)
  {
    if Spelling(a) == Spelling(b) {
      SpellingInjective(a, b);
    }
  }

  /** Every spelling is already lower-case (one lemma per group of names). */
  lemma DistanceSpellingsAreLower(n: Name)
    requires n in {Miles, Kilometers, Meters, Feet, Yards, Centimeters, Millimeters, Inches, Mi, Km, M, Ft, Yd}
    ensures NoUpperAscii(Spelling(n))
  {
  }

  lemma WeightSpellingsAreLower(n: Name)
    requires n in {Pounds, Kilograms, Grams, Ounces, MetricTons, Lb, Lbs, Kg, Kilos, G, Oz}
    ensures NoUpperAscii(Spelling(n))
  {
  }

  lemma EnergySpellingsAreLower(n: Name)
    requires n in {Kwh, Megajoules, Btu, Calories, Kilocalories, KilowattHours, Mj, Cal}
    ensures NoUpperAscii(Spelling(n))
  {
  }

  lemma VolumeSpellingsAreLower(n: Name)
    requires n in {Gallons, Liters, CubicMeters, Milliliters, Quarts, Pints, Cups, FluidOunces, Gal, Gals, L, Litres, Ml, Millilitres, M3, CubicMetres}
    ensures NoUpperAscii(Spelling(n))
  {
  }

  lemma SpellingsAreLower(n: Name)
    ensures NoUpperAscii(Spelling(n))
    ensures Lower(Spelling(n)) == Spelling(n)
  {
    if n in {Miles, Kilometers, Meters, Feet, Yards, Centimeters, Millimeters, Inches, Mi, Km, M, Ft, Yd} {
      DistanceSpellingsAreLower(n);
    } else if n in {Pounds, Kilograms, Grams, Ounces, MetricTons, Lb, Lbs, Kg, Kilos, G, Oz} {
      WeightSpellingsAreLower(n);
    } else if n in {Kwh, Megajoules, Btu, Calories, Kilocalories, KilowattHours, Mj, Cal} {
      EnergySpellingsAreLower(n);
    } else {
      VolumeSpellingsAreLower(n);
    }
    LowerOfLower(Spelling(n));
  }

  /** The name a (lower-case) key spells, if the tables list it. */
  function NameOf(s: string): (r: Option<Name>)
    ensures r.Some? ==> Spelling(r.value) == s
    ensures r.None? ==> forall n :: Spelling(n) != s
  {
    if exists n :: Spelling(n) == s then
      var n :| Spelling(n) == s;
      assert forall m :: Spelling(m) == s ==> m == n by {
        forall m | Spelling(m) == s ensures m == n {
          SpellingInjective(m, n);
        }
      }
      Some(n)
    else None
  }

  lemma NameOfSpelling(n: Name)
    ensures NameOf(Spelling(n)) == Some(n)
  {
    var r := NameOf(Spelling(n));
    SpellingInjective(r.value, n);
  }

  /** The entry of one category's table. */
  function TableFactor(c: Category, a: Name, b: Name): (r: Option<real>)
    ensures r.Some? ==> r.value > 0.0
  {
    match c
    case Distance => DistanceFactor(a, b)
    case Weight => WeightFactor(a, b)
    case Energy => EnergyFactor(a, b)
    case Volume => VolumeFactor(a, b)
  }

  /**
   * The merged `all_conversions` dict: it is updated with the distance,
   * weight, energy and volume tables in turn, so a later table's entry would
   * win; the four share no key.
   */
  function Factor(a: Name, b: Name): (r: Option<real>)
    ensures r.Some? ==> r.value > 0.0
    ensures r.Some? <==> exists c :: TableFactor(c, a, b).Some?
  {
    if VolumeFactor(a, b).Some? then assert TableFactor(Volume, a, b).Some?; VolumeFactor(a, b)
    else if EnergyFactor(a, b).Some? then assert TableFactor(Energy, a, b).Some?; EnergyFactor(a, b)
    else if WeightFactor(a, b).Some? then assert TableFactor(Weight, a, b).Some?; WeightFactor(a, b)
    else if DistanceFactor(a, b).Some? then assert TableFactor(Distance, a, b).Some?; DistanceFactor(a, b)
    else
      assert forall c :: TableFactor(c, a, b).None?;
      None
  }

  /** Each key is in exactly one table. */
  lemma TablesAreDisjoint(c: Category, d: Category, a: Name, b: Name)
    requires TableFactor(c, a, b).Some? && TableFactor(d, a, b).Some?
    ensures c == d
  {
  }

  /** `all_conversions.get((f, t))` for lower-case keys. */
  function Entry(f: string, t: string): (r: Option<real>)
    ensures r.Some? ==> r.value > 0.0
  {
    match (NameOf(f), NameOf(t))
    case (Some(a), Some(b)) => Factor(a, b)
    case _ => None
  }

  /** The outcome of `convert_units`: the value, or the ValueError's message. */
  datatype Conversion = Converted(value: real) | NotSupported(message: string)

  /** `convert_units(value, from_unit, to_unit)`: the units are lower-cased first. */
  function ConvertUnits(value: real, fromUnit: string, toUnit: string): Conversion {
    ConvertLowered(value, Lower(fromUnit), Lower(toUnit))
  }

  /** The body of `convert_units` after lower-casing. */
  function ConvertLowered(value: real, f: string, t: string): Conversion {
    if f == t then Converted(value)
    else if Entry(f, t).Some? then Converted(Round(value * Entry(f, t).value, 6))
    else if Entry(t, f).Some? then Converted(Round(value / Entry(t, f).value, 6))
    else NotSupported("Conversion from " + f + " to " + t + " is not supported")
  }

  /**
   * A conversion fails exactly when the lower-cased names differ and no
   * table has an entry for the pair in either direction; the message names
   * the lower-cased units.
   */
  lemma UnsupportedExactly(value: real, fromUnit: string, toUnit: string)
    ensures var f, t := Lower(fromUnit), Lower(toUnit);
      var r := ConvertUnits(value, fromUnit, toUnit);
      && (r.NotSupported? <==> f != t && Entry(f, t).None? && Entry(t, f).None?)
      && (r.NotSupported? ==> r.message == "Conversion from " + f + " to " + t + " is not supported")
  {
  }

  /** Upper-case, lower-case or mixed spellings convert alike. */
  lemma ConvertCaseInsensitive(value: real, fromUnit: string, toUnit: string)
    ensures ConvertUnits(value, fromUnit, toUnit) == ConvertUnits(value, Lower(fromUnit), Lower(toUnit))
  {
    LowerIdempotent(fromUnit);
    LowerIdempotent(toUnit);
  }

  /** Two spellings of one unit give the value back, even for a unit no table lists. */
  lemma SameUnitIsIdentity(value: real, unit: string)
    ensures ConvertUnits(value, unit, Upper(unit)) == Converted(value)
  {
    UpperLower(unit);
  }

  /** The conversion table entries that DirectEntryWins reads. */
  lemma DirectEntryWinsEntries()
    ensures Entry("miles", "kilometers") == Some(1.60934) && Entry("kilometers", "miles") == Some(0.621371)
  {
    EntryOfSpellings(Miles, Kilometers);
    EntryOfSpellings(Kilometers, Miles);
  }

  /** Miles to kilometres has entries both ways; the direct factor wins. */
  lemma DirectEntryWins(v: real)
    ensures Entry("kilometers", "miles") == Some(0.621371)
    ensures ConvertUnits(v, "miles", "kilometers") == Converted(Round(v * 1.60934, 6))
  {
    DirectEntryWinsEntries();
    LowerOfLower("miles");
    LowerOfLower("kilometers");
    ConvertDirect(v, "miles", "kilometers");
  }

  /** A direct entry multiplies by its factor. */
  lemma ConvertDirect(v: real, f: string, t: string)
    requires f != t && Entry(f, t).Some?
    ensures ConvertLowered(v, f, t) == Converted(Round(v * Entry(f, t).value, 6))
  {
  }

  /** Without a direct entry, a reverse entry divides by its factor. */
  lemma ConvertReverse(v: real, f: string, t: string)
    requires f != t && Entry(f, t).None? && Entry(t, f).Some?
    ensures ConvertLowered(v, f, t) == Converted(Round(v / Entry(t, f).value, 6))
  {
  }

  // ---------------------------------------------------------------------------
  // Aliases and categories

  /** No alias target is itself an alias. */
  lemma AliasTargetsAreFinal(n: Name)
    requires AliasOf(n).Some?
    ensures AliasOf(AliasOf(n).value).None?
  {
  }

  /** `expand_unit_alias(unit)` */
  function ExpandUnitAlias(unit: string): (r: string)
    ensures NoUpperAscii(r)
  {
    var u := Lower(unit);
    LowerIdempotent(unit);
    match NameOf(u)
    case Some(n) =>
      if AliasOf(n).Some? then SpellingsAreLower(AliasOf(n).value); Spelling(AliasOf(n).value) else u
    case None => u
  }

  /** Known aliases map to their full names; any other unit is only lower-cased. */
  lemma ExpandAliasCases(unit: string)
    ensures var u := Lower(unit);
      && (NameOf(u).Some? && AliasOf(NameOf(u).value).Some? ==>
            ExpandUnitAlias(unit) == Spelling(AliasOf(NameOf(u).value).value))
      && (NameOf(u).None? || AliasOf(NameOf(u).value).None? ==> ExpandUnitAlias(unit) == u)
  {
  }

  /** Expanding twice is expanding once. */
  lemma ExpandIdempotent(unit: string)
    ensures ExpandUnitAlias(ExpandUnitAlias(unit)) == ExpandUnitAlias(unit)
  {
    var u := Lower(unit);
    LowerIdempotent(unit);
    var r := ExpandUnitAlias(unit);
    if NameOf(u).Some? && AliasOf(NameOf(u).value).Some? {
      var t := AliasOf(NameOf(u).value).value;
      assert r == Spelling(t);
      AliasTargetsAreFinal(NameOf(u).value);
      SpellingsAreLower(t);
      NameOfSpelling(t);
    } else {
      assert r == u;
    }
  }

  /** `get_unit_category(unit)` */
  function UnitCategory(unit: string): (r: string)
    ensures r == "unknown" || r in {"distance", "weight", "energy", "volume"}
  {
    match NameOf(Lower(unit))
    case Some(n) => if CategoryOf(n).Some? then CategoryName(CategoryOf(n).value) else "unknown"
    case None => "unknown"
  }

  /** An unlisted unit has the "unknown" category. */
  lemma UnlistedCategoryIsUnknown(unit: string)
    requires NameOf(Lower(unit)).None? || CategoryOf(NameOf(Lower(unit)).value).None?
    ensures UnitCategory(unit) == "unknown"
  {
  }

  /** Every alias is listed, with the same category as its full name. */
  lemma AliasesKeepCategory(n: Name)
    requires AliasOf(n).Some?
    ensures CategoryOf(n).Some?
    ensures CategoryOf(AliasOf(n).value) == CategoryOf(n)
  {
  }

  /** Expanding an alias never changes a unit's category. */
  lemma CategoryOfExpanded(unit: string)
    ensures UnitCategory(ExpandUnitAlias(unit)) == UnitCategory(unit)
  {
    var u := Lower(unit);
    LowerIdempotent(unit);
    var r := ExpandUnitAlias(unit);
    LowerOfLower(r);
    if NameOf(u).Some? && AliasOf(NameOf(u).value).Some? {
      var t := AliasOf(NameOf(u).value).value;
      NameOfSpelling(t);
      AliasesKeepCategory(NameOf(u).value);
    }
  }

  /**
   * Both units of every table entry belong to that table's category, or to
   * none: no entry converts between two different known categories.
   */
  lemma EntriesAreCompatible(c: Category, a: Name, b: Name)
    requires TableFactor(c, a, b).Some?
    ensures CategoryOf(a) == Some(c)
    ensures CategoryOf(b) == Some(c) || CategoryOf(b).None?
  {
    match c
    case Distance => DistanceEntriesAreCompatible(a, b);
    case Weight => WeightEntriesAreCompatible(a, b);
    case Energy => EnergyEntriesAreCompatible(a, b);
    case Volume => VolumeEntriesAreCompatible(a, b);
  }

  lemma DistanceEntriesAreCompatible(a: Name, b: Name)
    requires DistanceFactor(a, b).Some?
    ensures CategoryOf(a) == Some(Distance)
    ensures CategoryOf(b) == Some(Distance) || CategoryOf(b).None?
  {
  }

  lemma WeightEntriesAreCompatible(a: Name, b: Name)
    requires WeightFactor(a, b).Some?
    ensures CategoryOf(a) == Some(Weight)
    ensures CategoryOf(b) == Some(Weight) || CategoryOf(b).None?
  {
  }

  lemma EnergyEntriesAreCompatible(a: Name, b: Name)
    requires EnergyFactor(a, b).Some?
    ensures CategoryOf(a) == Some(Energy)
    ensures CategoryOf(b) == Some(Energy) || CategoryOf(b).None?
  {
  }

  lemma VolumeEntriesAreCompatible(a: Name, b: Name)
    requires VolumeFactor(a, b).Some?
    ensures CategoryOf(a) == Some(Volume)
    ensures CategoryOf(b) == Some(Volume) || CategoryOf(b).None?
  {
  }

  /** The result of `get_supported_units`: one table (None: the empty dict), or all four by name. */
  datatype SupportedUnits = OneCategory(table: Option<Category>) | EveryCategory

  /** `get_supported_units(category)`; None and "" are falsy and ask for every table. */
  function GetSupportedUnits(category: Option<string>): (r: SupportedUnits)
    ensures r.EveryCategory? <==> category.None? || category.value == ""
    ensures r.OneCategory? && r.table.Some? ==> CategoryName(r.table.value) == category.value
    ensures r == OneCategory(None) <==>
      category.Some? && category.value != "" && forall c :: CategoryName(c) != category.value
  {
    if category.None? || category.value == "" then EveryCategory
    else if category.value == "distance" then OneCategory(Some(Distance))
    else if category.value == "weight" then OneCategory(Some(Weight))
    else if category.value == "energy" then OneCategory(Some(Energy))
    else if category.value == "volume" then OneCategory(Some(Volume))
    else OneCategory(None)
  }

  // ---------------------------------------------------------------------------
  // Input normalisation

  /** The (value, unit) pair a `normalize_*_input` function returns. */
  type Measure = (real, string)

  /**
   * `convert_units` between two different listed names spelled as the tables
   * spell them looks the pair up in the merged table, both ways round.
   */
  lemma ConvertListed(v: real, a: Name, b: Name)
    requires a != b
    ensures var f, t := Spelling(a), Spelling(b);
      && f != t
      && ConvertUnits(v, f, t) == ConvertLowered(v, f, t)
      && Entry(f, t) == Factor(a, b) && Entry(t, f) == Factor(b, a)
  {
    var f, t := Spelling(a), Spelling(b);
    SpellingsAreLower(a);
    SpellingsAreLower(b);
    SpellingsDiffer(a, b);
    EntryOfSpellings(a, b);
    EntryOfSpellings(b, a);
  }

  /** The merged table, looked up by the spellings of two names. */
  lemma EntryOfSpellings(a: Name, b: Name)
    ensures Entry(Spelling(a), Spelling(b)) == Factor(a, b)
  {
    NameOfSpelling(a);
    NameOfSpelling(b);
  }

  // The conversions the four normalisers perform, one pair at a time.

  /** The conversion table entries that MetersToKilometers reads. */
  lemma MetersToKilometersEntries()
    ensures Entry("meters", "kilometers") == Some(0.001)
  {
    EntryOfSpellings(Meters, Kilometers);
  }

  lemma MetersToKilometers(v: real)
    ensures ConvertUnits(v, "meters", "kilometers") == Converted(Round(v * 0.001, 6))
  {
    MetersToKilometersEntries();
    LowerOfLower("meters");
    LowerOfLower("kilometers");
    ConvertDirect(v, "meters", "kilometers");
  }

  /** The conversion table entries that FeetToKilometers reads. */
  lemma FeetToKilometersEntries()
    ensures Entry("feet", "kilometers") == Some(0.0003048)
  {
    EntryOfSpellings(Feet, Kilometers);
  }

  lemma FeetToKilometers(v: real)
    ensures ConvertUnits(v, "feet", "kilometers") == Converted(Round(v * 0.0003048, 6))
  {
    FeetToKilometersEntries();
    LowerOfLower("feet");
    LowerOfLower("kilometers");
    ConvertDirect(v, "feet", "kilometers");
  }

  /** The conversion table entries that GramsToKilograms reads. */
  lemma GramsToKilogramsEntries()
    ensures Entry("grams", "kilograms") == Some(0.001)
  {
    EntryOfSpellings(Grams, Kilograms);
  }

  lemma GramsToKilograms(v: real)
    ensures ConvertUnits(v, "grams", "kilograms") == Converted(Round(v * 0.001, 6))
  {
    GramsToKilogramsEntries();
    LowerOfLower("grams");
    LowerOfLower("kilograms");
    ConvertDirect(v, "grams", "kilograms");
  }

  /** The conversion table entries that OuncesToPounds reads. */
  lemma OuncesToPoundsEntries()
    ensures Entry("ounces", "pounds") == None && Entry("pounds", "ounces") == Some(16.0)
  {
    EntryOfSpellings(Ounces, Pounds);
    EntryOfSpellings(Pounds, Ounces);
  }

  /** Ounces to pounds has only the reverse entry, so the value is divided. */
  lemma OuncesToPounds(v: real)
    ensures Entry("ounces", "pounds") == None
    ensures ConvertUnits(v, "ounces", "pounds") == Converted(Round(v / 16.0, 6))
  {
    OuncesToPoundsEntries();
    LowerOfLower("ounces");
    LowerOfLower("pounds");
    ConvertReverse(v, "ounces", "pounds");
  }

  /** The conversion table entries that MegajoulesToKwh reads. */
  lemma MegajoulesToKwhEntries()
    ensures Entry("megajoules", "kwh") == Some(0.277778)
  {
    EntryOfSpellings(Megajoules, Kwh);
  }

  lemma MegajoulesToKwh(v: real)
    ensures ConvertUnits(v, "megajoules", "kwh") == Converted(Round(v * 0.277778, 6))
  {
    MegajoulesToKwhEntries();
    LowerOfLower("megajoules");
    LowerOfLower("kwh");
    ConvertDirect(v, "megajoules", "kwh");
  }

  /** The conversion table entries that BtuToKwh reads. */
  lemma BtuToKwhEntries()
    ensures Entry("btu", "kwh") == Some(0.000293071)
  {
    EntryOfSpellings(Btu, Kwh);
  }

  lemma BtuToKwh(v: real)
    ensures ConvertUnits(v, "btu", "kwh") == Converted(Round(v * 0.000293071, 6))
  {
    BtuToKwhEntries();
    LowerOfLower("btu");
    LowerOfLower("kwh");
    ConvertDirect(v, "btu", "kwh");
  }

  /** The conversion table entries that CaloriesToKwh reads. */
  lemma CaloriesToKwhEntries()
    ensures Entry("calories", "kwh") == None && Entry("kwh", "calories") == Some(860421.0)
  {
    EntryOfSpellings(Calories, Kwh);
    EntryOfSpellings(Kwh, Calories);
  }

  lemma CaloriesToKwh(v: real)
    ensures ConvertUnits(v, "calories", "kwh") == Converted(Round(v / 860421.0, 6))
  {
    CaloriesToKwhEntries();
    LowerOfLower("calories");
    LowerOfLower("kwh");
    ConvertReverse(v, "calories", "kwh");
  }

  /** The conversion table entries that CubicMetersToLiters reads. */
  lemma CubicMetersToLitersEntries()
    ensures Entry("cubic_meters", "liters") == None && Entry("liters", "cubic_meters") == Some(0.001)
  {
    EntryOfSpellings(CubicMeters, Liters);
    EntryOfSpellings(Liters, CubicMeters);
  }

  lemma CubicMetersToLiters(v: real)
    ensures ConvertUnits(v, "cubic_meters", "liters") == Converted(Round(v / 0.001, 6))
  {
    CubicMetersToLitersEntries();
    LowerOfLower("cubic_meters");
    LowerOfLower("liters");
    ConvertReverse(v, "cubic_meters", "liters");
  }

  /** The conversion table entries that MillilitersToLiters reads. */
  lemma MillilitersToLitersEntries()
    ensures Entry("milliliters", "liters") == None && Entry("liters", "milliliters") == Some(1000.0)
  {
    EntryOfSpellings(Milliliters, Liters);
    EntryOfSpellings(Liters, Milliliters);
  }

  lemma MillilitersToLiters(v: real)
    ensures ConvertUnits(v, "milliliters", "liters") == Converted(Round(v / 1000.0, 6))
  {
    MillilitersToLitersEntries();
    LowerOfLower("milliliters");
    LowerOfLower("liters");
    ConvertReverse(v, "milliliters", "liters");
  }

  /*
   * The normalisers below write out the value `convert_units` returns for
   * each fixed pair they pass it (MetersToKilometers and its siblings prove
   * each one); DistanceAgreesWithConversion and its siblings prove that every
   * recognised unit is normalised to what converting it gives.
   */

  /** The spellings `normalize_distance_input` recognises after lower-casing. */
  predicate IsDistanceInput(unit: string) {
    NameOf(Lower(unit)) in {Some(Miles), Some(Mi), Some(Kilometers), Some(Km), Some(Meters), Some(M), Some(Feet), Some(Ft)}
  }

  /** `normalize_distance_input`: miles stay miles, everything else is kilometers. */
  function NormalizeDistance(v: real, unit: string): (r: Measure)
    ensures r.1 == "miles" || r.1 == "kilometers"
    ensures !IsDistanceInput(unit) ==> r == (v, "kilometers")
  {
    match NameOf(Lower(unit))
    case Some(Miles) | Some(Mi) => (v, "miles")
    case Some(Kilometers) | Some(Km) => (v, "kilometers")
    case Some(Meters) | Some(M) => (Round(v * 0.001, 6), "kilometers")
    case Some(Feet) | Some(Ft) => (Round(v * 0.0003048, 6), "kilometers")
    case _ => (v, "kilometers")
  }

  predicate IsWeightInput(unit: string) {
    NameOf(Lower(unit)) in {Some(Pounds), Some(Lbs), Some(Lb), Some(Kilograms), Some(Kg), Some(Kilos),
                            Some(Grams), Some(G), Some(Ounces), Some(Oz)}
  }

  /** `normalize_weight_input`: pounds and ounces become pounds, everything else kilograms. */
  function NormalizeWeight(v: real, unit: string): (r: Measure)
    ensures r.1 == "pounds" || r.1 == "kilograms"
    ensures !IsWeightInput(unit) ==> r == (v, "kilograms")
  {
    match NameOf(Lower(unit))
    case Some(Pounds) | Some(Lbs) | Some(Lb) => (v, "pounds")
    case Some(Kilograms) | Some(Kg) | Some(Kilos) => (v, "kilograms")
    case Some(Grams) | Some(G) => (Round(v * 0.001, 6), "kilograms")
    case Some(Ounces) | Some(Oz) => (Round(v / 16.0, 6), "pounds")
    case _ => (v, "kilograms")
  }

  predicate IsEnergyInput(unit: string) {
    NameOf(Lower(unit)) in {Some(Kwh), Some(KilowattHours), Some(Megajoules), Some(Mj), Some(Btu), Some(Calories), Some(Cal)}
  }

  /** `normalize_energy_input`: everything becomes kWh. */
  function NormalizeEnergy(v: real, unit: string): (r: Measure)
    ensures r.1 == "kwh"
    ensures !IsEnergyInput(unit) ==> r == (v, "kwh")
  {
    match NameOf(Lower(unit))
    case Some(Kwh) | Some(KilowattHours) => (v, "kwh")
    case Some(Megajoules) | Some(Mj) => (Round(v * 0.277778, 6), "kwh")
    case Some(Btu) => (Round(v * 0.000293071, 6), "kwh")
    case Some(Calories) | Some(Cal) => (Round(v / 860421.0, 6), "kwh")
    case _ => (v, "kwh")
  }

  predicate IsVolumeInput(unit: string) {
    NameOf(Lower(unit)) in {Some(Gallons), Some(Gal), Some(Gals), Some(Liters), Some(L), Some(Litres),
                            Some(CubicMeters), Some(M3), Some(CubicMetres), Some(Milliliters), Some(Ml), Some(Millilitres)}
  }

  /** `normalize_volume_input`: gallons stay gallons, everything else is liters. */
  function NormalizeVolume(v: real, unit: string): (r: Measure)
    ensures r.1 == "gallons" || r.1 == "liters"
    ensures !IsVolumeInput(unit) ==> r == (v, "liters")
  {
    match NameOf(Lower(unit))
    case Some(Gallons) | Some(Gal) | Some(Gals) => (v, "gallons")
    case Some(Liters) | Some(L) | Some(Litres) => (v, "liters")
    case Some(CubicMeters) | Some(M3) | Some(CubicMetres) =>
      (Round(v / 0.001, 6), "liters")
    case Some(Milliliters) | Some(Ml) | Some(Millilitres) =>
      (Round(v / 1000.0, 6), "liters")
    case _ => (v, "liters")
  }

  /** Expanding a listed name: an alias becomes its target, a full name stays. */
  lemma ExpandName(unit: string, n: Name)
    requires NameOf(Lower(unit)) == Some(n)
    ensures ExpandUnitAlias(unit) == if AliasOf(n).Some? then Spelling(AliasOf(n).value) else Spelling(n)
  {
  }

  /** A full name converts to itself. */
  lemma ConvertSame(v: real, n: Name)
    ensures ConvertUnits(v, Spelling(n), Spelling(n)) == Converted(v)
  {
  }

  /** How a unit of one listed group is expanded and normalised. */
  lemma DistanceMilesShape(v: real, unit: string)
    requires NameOf(Lower(unit)) == Some(Miles) || NameOf(Lower(unit)) == Some(Mi)
    ensures ExpandUnitAlias(unit) == "miles" && NormalizeDistance(v, unit) == (v, "miles")
  {
    ExpandName(unit, NameOf(Lower(unit)).value);
  }

  lemma DistanceKilometersShape(v: real, unit: string)
    requires NameOf(Lower(unit)) == Some(Kilometers) || NameOf(Lower(unit)) == Some(Km)
    ensures ExpandUnitAlias(unit) == "kilometers" && NormalizeDistance(v, unit) == (v, "kilometers")
  {
    ExpandName(unit, NameOf(Lower(unit)).value);
  }

  lemma DistanceMetersShape(v: real, unit: string)
    requires NameOf(Lower(unit)) == Some(Meters) || NameOf(Lower(unit)) == Some(M)
    ensures ExpandUnitAlias(unit) == "meters" && NormalizeDistance(v, unit) == (Round(v * 0.001, 6), "kilometers")
  {
    ExpandName(unit, NameOf(Lower(unit)).value);
  }

  lemma DistanceFeetShape(v: real, unit: string)
    requires NameOf(Lower(unit)) == Some(Feet) || NameOf(Lower(unit)) == Some(Ft)
    ensures ExpandUnitAlias(unit) == "feet" && NormalizeDistance(v, unit) == (Round(v * 0.0003048, 6), "kilometers")
  {
    ExpandName(unit, NameOf(Lower(unit)).value);
  }

  lemma WeightPoundsShape(v: real, unit: string)
    requires NameOf(Lower(unit)) == Some(Pounds) || NameOf(Lower(unit)) == Some(Lbs) || NameOf(Lower(unit)) == Some(Lb)
    ensures ExpandUnitAlias(unit) == "pounds" && NormalizeWeight(v, unit) == (v, "pounds")
  {
    ExpandName(unit, NameOf(Lower(unit)).value);
  }

  lemma WeightKilogramsShape(v: real, unit: string)
    requires NameOf(Lower(unit)) == Some(Kilograms) || NameOf(Lower(unit)) == Some(Kg) || NameOf(Lower(unit)) == Some(Kilos)
    ensures ExpandUnitAlias(unit) == "kilograms" && NormalizeWeight(v, unit) == (v, "kilograms")
  {
    ExpandName(unit, NameOf(Lower(unit)).value);
  }

  lemma WeightGramsShape(v: real, unit: string)
    requires NameOf(Lower(unit)) == Some(Grams) || NameOf(Lower(unit)) == Some(G)
    ensures ExpandUnitAlias(unit) == "grams" && NormalizeWeight(v, unit) == (Round(v * 0.001, 6), "kilograms")
  {
    ExpandName(unit, NameOf(Lower(unit)).value);
  }

  lemma WeightOuncesShape(v: real, unit: string)
    requires NameOf(Lower(unit)) == Some(Ounces) || NameOf(Lower(unit)) == Some(Oz)
    ensures ExpandUnitAlias(unit) == "ounces" && NormalizeWeight(v, unit) == (Round(v / 16.0, 6), "pounds")
  {
    ExpandName(unit, NameOf(Lower(unit)).value);
  }

  lemma EnergyKwhShape(v: real, unit: string)
    requires NameOf(Lower(unit)) == Some(Kwh) || NameOf(Lower(unit)) == Some(KilowattHours)
    ensures ExpandUnitAlias(unit) == "kwh" && NormalizeEnergy(v, unit) == (v, "kwh")
  {
    ExpandName(unit, NameOf(Lower(unit)).value);
  }

  lemma EnergyMegajoulesShape(v: real, unit: string)
    requires NameOf(Lower(unit)) == Some(Megajoules) || NameOf(Lower(unit)) == Some(Mj)
    ensures ExpandUnitAlias(unit) == "megajoules" && NormalizeEnergy(v, unit) == (Round(v * 0.277778, 6), "kwh")
  {
    ExpandName(unit, NameOf(Lower(unit)).value);
  }

  lemma EnergyBtuShape(v: real, unit: string)
    requires NameOf(Lower(unit)) == Some(Btu)
    ensures ExpandUnitAlias(unit) == "btu" && NormalizeEnergy(v, unit) == (Round(v * 0.000293071, 6), "kwh")
  {
    ExpandName(unit, NameOf(Lower(unit)).value);
  }

  lemma EnergyCaloriesShape(v: real, unit: string)
    requires NameOf(Lower(unit)) == Some(Calories)
    ensures ExpandUnitAlias(unit) == "calories" && NormalizeEnergy(v, unit) == (Round(v / 860421.0, 6), "kwh")
  {
    ExpandName(unit, NameOf(Lower(unit)).value);
  }

  lemma VolumeGallonsShape(v: real, unit: string)
    requires NameOf(Lower(unit)) == Some(Gallons) || NameOf(Lower(unit)) == Some(Gal) || NameOf(Lower(unit)) == Some(Gals)
    ensures ExpandUnitAlias(unit) == "gallons" && NormalizeVolume(v, unit) == (v, "gallons")
  {
    ExpandName(unit, NameOf(Lower(unit)).value);
  }

  lemma VolumeLitersShape(v: real, unit: string)
    requires NameOf(Lower(unit)) == Some(Liters) || NameOf(Lower(unit)) == Some(L) || NameOf(Lower(unit)) == Some(Litres)
    ensures ExpandUnitAlias(unit) == "liters" && NormalizeVolume(v, unit) == (v, "liters")
  {
    ExpandName(unit, NameOf(Lower(unit)).value);
  }

  lemma VolumeCubicMetersShape(v: real, unit: string)
    requires NameOf(Lower(unit)) == Some(CubicMeters) || NameOf(Lower(unit)) == Some(M3) || NameOf(Lower(unit)) == Some(CubicMetres)
    ensures ExpandUnitAlias(unit) == "cubic_meters" && NormalizeVolume(v, unit) == (Round(v / 0.001, 6), "liters")
  {
    ExpandName(unit, NameOf(Lower(unit)).value);
  }

  lemma VolumeMillilitersShape(v: real, unit: string)
    requires NameOf(Lower(unit)) == Some(Milliliters) || NameOf(Lower(unit)) == Some(Ml) || NameOf(Lower(unit)) == Some(Millilitres)
    ensures ExpandUnitAlias(unit) == "milliliters" && NormalizeVolume(v, unit) == (Round(v / 1000.0, 6), "liters")
  {
    ExpandName(unit, NameOf(Lower(unit)).value);
  }

  /**
   * For a recognised distance unit, the normalised value is what converting
   * the alias-expanded unit into the normalised unit gives.
   */
  lemma DistanceAgreesWithConversion(v: real, unit: string)
    requires IsDistanceInput(unit)
    ensures ConvertUnits(v, ExpandUnitAlias(unit), NormalizeDistance(v, unit).1) == Converted(NormalizeDistance(v, unit).0)
  {
    var n := NameOf(Lower(unit)).value;
    if n == Miles || n == Mi {
      DistanceMilesShape(v, unit);
      ConvertSame(v, Miles);
    } else if n == Kilometers || n == Km {
      DistanceKilometersShape(v, unit);
      ConvertSame(v, Kilometers);
    } else if n == Meters || n == M {
      DistanceMetersShape(v, unit);
      MetersToKilometers(v);
    } else {
      DistanceFeetShape(v, unit);
      FeetToKilometers(v);
    }
  }

  lemma WeightAgreesWithConversion(v: real, unit: string)
    requires IsWeightInput(unit)
    ensures ConvertUnits(v, ExpandUnitAlias(unit), NormalizeWeight(v, unit).1) == Converted(NormalizeWeight(v, unit).0)
  {
    var n := NameOf(Lower(unit)).value;
    if n == Pounds || n == Lbs || n == Lb {
      WeightPoundsShape(v, unit);
      ConvertSame(v, Pounds);
    } else if n == Kilograms || n == Kg || n == Kilos {
      WeightKilogramsShape(v, unit);
      ConvertSame(v, Kilograms);
    } else if n == Grams || n == G {
      WeightGramsShape(v, unit);
      GramsToKilograms(v);
    } else {
      WeightOuncesShape(v, unit);
      OuncesToPounds(v);
    }
  }

  /** The same holds for energy, except for "cal", which is no alias (see CalIsNotAnAlias). */
  lemma EnergyAgreesWithConversion(v: real, unit: string)
    requires IsEnergyInput(unit) && NameOf(Lower(unit)) != Some(Cal)
    ensures ConvertUnits(v, ExpandUnitAlias(unit), NormalizeEnergy(v, unit).1) == Converted(NormalizeEnergy(v, unit).0)
  {
    var n := NameOf(Lower(unit)).value;
    if n == Kwh || n == KilowattHours {
      EnergyKwhShape(v, unit);
      ConvertSame(v, Kwh);
    } else if n == Megajoules || n == Mj {
      EnergyMegajoulesShape(v, unit);
      MegajoulesToKwh(v);
    } else if n == Btu {
      EnergyBtuShape(v, unit);
      BtuToKwh(v);
    } else {
      EnergyCaloriesShape(v, unit);
      CaloriesToKwh(v);
    }
  }

  lemma VolumeAgreesWithConversion(v: real, unit: string)
    requires IsVolumeInput(unit)
    ensures ConvertUnits(v, ExpandUnitAlias(unit), NormalizeVolume(v, unit).1) == Converted(NormalizeVolume(v, unit).0)
  {
    var n := NameOf(Lower(unit)).value;
    if n == Gallons || n == Gal || n == Gals {
      VolumeGallonsShape(v, unit);
      ConvertSame(v, Gallons);
    } else if n == Liters || n == L || n == Litres {
      VolumeLitersShape(v, unit);
      ConvertSame(v, Liters);
    } else if n == CubicMeters || n == M3 || n == CubicMetres {
      VolumeCubicMetersShape(v, unit);
      CubicMetersToLiters(v);
    } else {
      VolumeMillilitersShape(v, unit);
      MillilitersToLiters(v);
    }
  }

  /** "cal" is normalised as calories, but it is no alias, and no table lists it against kWh. */
  lemma CalIsNormalisedAsCalories(v: real)
    ensures NormalizeEnergy(v, "cal") == (Round(v / 860421.0, 6), "kwh")
  {
    EnergySpellingsAreLower(Cal);
    LowerOfLower("cal");
    NameOfSpelling(Cal);
  }

  lemma CalIsNotAnAlias()
    ensures ExpandUnitAlias("cal") == "cal"
  {
    LowerOfLower("cal");
    NameOfSpelling(Cal);
  }

  lemma CalDoesNotConvert(v: real)
    ensures ConvertUnits(v, "cal", "kwh").NotSupported?
  {
    ConvertListed(v, Cal, Kwh);
    assert Factor(Cal, Kwh) == None && Factor(Kwh, Cal) == None;
  }

  // ---------------------------------------------------------------------------
  // The unit converter tool (src/tools/unit_converter.py)

  /** The dict `convert_units_with_context` returns: a result, or an error with the inputs. */
  datatype ConversionReport =
    | ConversionSucceeded(originalValue: real, originalUnit: string, convertedValue: real,
                          convertedUnit: string, category: string, context: string,
                          expandedFrom: string, expandedTo: string)
    | ConversionFailed(error: string, originalValue: real, originalUnit: string, targetUnit: string)

  /** `category_examples.get(category, default)` */
  function CategoryContext(category: string): string {
    if category == "distance" then "Distance conversions help compare imperial and metric measurements"
    else if category == "weight" then "Weight conversions assist in comparing different measurement systems"
    else if category == "energy" then "Energy conversions allow comparison across different energy measurement units"
    else if category == "volume" then "Volume conversions help compare liquid and capacity measurements"
    else "Unit conversion between different measurement systems"
  }

  /** `convert_units_with_context` of the unit converter tool; it never raises. */
  function ConvertWithContext(fromValue: real, fromUnit: string, toUnit: string): (r: ConversionReport)
    ensures r.originalValue == fromValue && r.originalUnit == fromUnit
    ensures r.ConversionFailed? ==> r.targetUnit == toUnit
    ensures r.ConversionSucceeded? ==>
      && r.convertedUnit == toUnit
      && r.expandedFrom == ExpandUnitAlias(fromUnit) && r.expandedTo == ExpandUnitAlias(toUnit)
      && r.category == UnitCategory(fromUnit) && r.context == CategoryContext(r.category)
  {
    var ef, et := ExpandUnitAlias(fromUnit), ExpandUnitAlias(toUnit);
    var cf, ct := UnitCategory(ef), UnitCategory(et);
    CategoryOfExpanded(fromUnit);
    if cf != ct && cf != "unknown" && ct != "unknown" then
      ConversionFailed("Cannot convert between incompatible unit categories: " + cf + " and " + ct,
                       fromValue, fromUnit, toUnit)
    else
      match ConvertUnits(fromValue, ef, et)
      case NotSupported(message) => ConversionFailed(message, fromValue, fromUnit, toUnit)
      case Converted(x) =>
        ConversionSucceeded(fromValue, fromUnit, Round(x, 6), toUnit, cf, CategoryContext(cf), ef, et)
  }

  /** Units of two different known categories are refused before any conversion. */
  lemma IncompatibleCategoriesRefused(fromValue: real, fromUnit: string, toUnit: string)
    requires UnitCategory(fromUnit) != "unknown" && UnitCategory(toUnit) != "unknown"
    requires UnitCategory(fromUnit) != UnitCategory(toUnit)
    ensures ConvertWithContext(fromValue, fromUnit, toUnit) ==
      ConversionFailed("Cannot convert between incompatible unit categories: "
                         + UnitCategory(fromUnit) + " and " + UnitCategory(toUnit),
                       fromValue, fromUnit, toUnit)
  {
    CategoryOfExpanded(fromUnit);
    CategoryOfExpanded(toUnit);
  }

  /** When either category is unknown the check is skipped and the conversion decides. */
  lemma UnknownCategorySkipsCheck(fromValue: real, fromUnit: string, toUnit: string)
    requires UnitCategory(fromUnit) == "unknown" || UnitCategory(toUnit) == "unknown"
    ensures var c := ConvertUnits(fromValue, ExpandUnitAlias(fromUnit), ExpandUnitAlias(toUnit));
      ConvertWithContext(fromValue, fromUnit, toUnit).ConversionFailed? <==> c.NotSupported?
  {
    CategoryOfExpanded(fromUnit);
    CategoryOfExpanded(toUnit);
  }

  /** The category string of an entry's two lower-case keys passes the check. */
  lemma EntryPassesCheck(f: string, t: string)
    requires Entry(f, t).Some?
    ensures var cf, ct := UnitCategory(f), UnitCategory(t);
      cf == ct || cf == "unknown" || ct == "unknown"
  {
    var a, b := NameOf(f).value, NameOf(t).value;
    var c :| TableFactor(c, a, b).Some?;
    EntriesAreCompatible(c, a, b);
    SpellingsAreLower(a);
    SpellingsAreLower(b);
  }

  /**
   * The category check only ever refuses pairs the tables could not convert
   * anyway: the tool succeeds exactly when `convert_units` succeeds on the
   * expanded names, and then reports that value rounded once more.
   */
  lemma CategoryCheckOnlyChangesTheMessage(fromValue: real, fromUnit: string, toUnit: string)
    ensures var c := ConvertUnits(fromValue, ExpandUnitAlias(fromUnit), ExpandUnitAlias(toUnit));
      var r := ConvertWithContext(fromValue, fromUnit, toUnit);
      && (r.ConversionSucceeded? <==> c.Converted?)
      && (r.ConversionSucceeded? ==> r.convertedValue == Round(c.value, 6))
  {
    var ef, et := ExpandUnitAlias(fromUnit), ExpandUnitAlias(toUnit);
    LowerOfLower(ef);
    LowerOfLower(et);
    if ef != et {
      if Entry(ef, et).Some? {
        EntryPassesCheck(ef, et);
      } else if Entry(et, ef).Some? {
        EntryPassesCheck(et, ef);
      }
    }
  }

  /** A conversion through the tables is already rounded to six places. */
  lemma TableResultIsRounded(v: real, f: string, t: string)
    requires f != t && ConvertLowered(v, f, t).Converted?
    ensures Round(ConvertLowered(v, f, t).value, 6) == ConvertLowered(v, f, t).value
  {
    if Entry(f, t).Some? {
      ConvertDirect(v, f, t);
      RoundIdempotent(v * Entry(f, t).value, 6);
    } else {
      ConvertReverse(v, f, t);
      RoundIdempotent(v / Entry(t, f).value, 6);
    }
  }

  /** A conversion through the tables is not changed by the tool's second rounding. */
  lemma TableValueReportedUnchanged(fromValue: real, fromUnit: string, toUnit: string)
    requires ExpandUnitAlias(fromUnit) != ExpandUnitAlias(toUnit)
    requires ConvertWithContext(fromValue, fromUnit, toUnit).ConversionSucceeded?
    ensures ConvertWithContext(fromValue, fromUnit, toUnit).convertedValue ==
      ConvertUnits(fromValue, ExpandUnitAlias(fromUnit), ExpandUnitAlias(toUnit)).value
  {
    var ef, et := ExpandUnitAlias(fromUnit), ExpandUnitAlias(toUnit);
    CategoryCheckOnlyChangesTheMessage(fromValue, fromUnit, toUnit);
    LowerOfLower(ef);
    LowerOfLower(et);
    TableResultIsRounded(fromValue, ef, et);
  }

  /** No table lists an alias: "mi" to "km" is not supported by `convert_units`. */
  lemma AliasesAreNotInTables(v: real)
    ensures ConvertUnits(v, "mi", "km").NotSupported?
  {
    LowerOfLower("mi");
    LowerOfLower("km");
    NameOfSpelling(Mi);
    NameOfSpelling(Km);
    assert Factor(Mi, Km) == None && Factor(Km, Mi) == None;
  }

  /** Aliases are expanded first: "mi" to "km" converts although no table lists either alias. */
  lemma AliasesExpandedFirst(v: real)
    ensures var r := ConvertWithContext(v, "mi", "km");
      && r.ConversionSucceeded?
      && r.convertedValue == Round(v * 1.60934, 6)
      && r.category == "distance"
      && r.expandedFrom == "miles" && r.expandedTo == "kilometers"
  {
    ExpandMiKm();
    DirectEntryWins(v);
    CategoryCheckOnlyChangesTheMessage(v, "mi", "km");
    CategoryOfExpanded("mi");
    RoundIdempotent(v * 1.60934, 6);
  }

  lemma ExpandMiKm()
    ensures ExpandUnitAlias("mi") == "miles" && ExpandUnitAlias("km") == "kilometers"
    ensures UnitCategory("miles") == "distance" && UnitCategory("kilometers") == "distance"
  {
    LowerOfLower("mi");
    LowerOfLower("km");
    NameOfSpelling(Mi);
    NameOfSpelling(Km);
    ExpandName("mi", Mi);
    ExpandName("km", Km);
    LowerOfLower("miles");
    LowerOfLower("kilometers");
    NameOfSpelling(Miles);
    NameOfSpelling(Kilometers);
  }
}
