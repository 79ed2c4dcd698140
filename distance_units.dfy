/**
 * The table of linear distance units (studio.jkb.DistanceUnits): each unit has a
 * display name, a singular name, an abbreviation and a scale factor that says how
 * many of the unit make one inch.  Conversion goes through inches:
 * value / scale(from) * scale(to).
 *
 * The source stores the factors as doubles; here they are exact reals, so the
 * identities below hold exactly instead of up to rounding.
 */
module DistanceUnits {

  datatype DistanceUnit = Inches | Feet | Yards | Millimeters | Centimeters | Meters

  /** Declaration order of the enum, as DistanceUnits.values() returns it. */
  const Values: seq<DistanceUnit> := [Inches, Feet, Yards, Millimeters, Centimeters, Meters]

  function Name(u: DistanceUnit): string
  {
    match u
    case Inches => "Inches"
    case Feet => "Feet"
    case Yards => "Yards"
    case Millimeters => "Millimeters"
    case Centimeters => "Centimeters"
    case Meters => "Meters"
  }

  function Singular(u: DistanceUnit): string
  {
    match u
    case Inches => "Inch"
    case Feet => "Foot"
    case Yards => "Yard"
    case Millimeters => "Millimeter"
    case Centimeters => "Centimeter"
    case Meters => "Meter"
  }

  function Abbrev(u: DistanceUnit): string
  {
    match u
    case Inches => "in"
    case Feet => "ft"
    case Yards => "yd"
    case Millimeters => "mm"
    case Centimeters => "cm"
    case Meters => "m"
  }

  /** Units per inch; strictly positive, so every conversion is defined. */
  function ScaleFactor(u: DistanceUnit): (r: real)
    ensures r > 0.0
    ensures u == Inches <==> r == 1.0
  {
    match u
    case Inches => 1.0
    case Feet => 1.0 / 12.0
    case Yards => 1.0 / 36.0
    case Millimeters => 25.4
    case Centimeters => 2.54
    case Meters => 0.0254
  }

  /** DistanceUnits.convert: total over all units and values. */
  function Convert(from: DistanceUnit, to: DistanceUnit, value: real): (r: real)
    ensures r * ScaleFactor(from) == value * ScaleFactor(to)
  {
    value / ScaleFactor(from) * ScaleFactor(to)
  }

  /** this.to(to, value): converts a value given in `unit` into `to`. */
  function To(unit: DistanceUnit, to: DistanceUnit, value: real): (r: real)
    ensures r * ScaleFactor(unit) == value * ScaleFactor(to)
  {
    Convert(unit, to, value)
  }

  /** this.from(from, value): converts a value given in `from` into `unit`. */
  function From(unit: DistanceUnit, from: DistanceUnit, value: real): (r: real)
    ensures r * ScaleFactor(from) == value * ScaleFactor(unit)
  {
    Convert(from, unit, value)
  }

  /** getOptionsSingular: the singular names, in declaration order. */
  function OptionsSingular(): (r: seq<string>)
    ensures r == ["Inch", "Foot", "Yard", "Millimeter", "Centimeter", "Meter"]
  {
    seq(|Values|, i requires 0 <= i < |Values| => Singular(Values[i]))
  }

  /** Converting into the same unit is the identity. */
  lemma ConvertSameUnit(u: DistanceUnit, v: real)
    ensures Convert(u, u, v) == v
  {
  }

  /** Converting a -> b -> a gives back the value. */
  lemma ConvertRoundTrip(a: DistanceUnit, b: DistanceUnit, v: real)
    ensures Convert(b, a, Convert(a, b, v)) == v
  {
  }

  /** Converting a -> b -> c is converting a -> c. */
  lemma ConvertComposes(a: DistanceUnit, b: DistanceUnit, c: DistanceUnit, v: real)
    ensures Convert(b, c, Convert(a, b, v)) == Convert(a, c, v)
  {
  }

  /** `to` and `from` are the same conversion seen from either end. */
  lemma ToFromAgree(a: DistanceUnit, b: DistanceUnit, v: real)
    ensures To(a, b, v) == From(b, a, v) == Convert(a, b, v)
  {
  }
}
