/**
 * The older copy of the unit table (jkbstudio.DistanceUnits): the same six units
 * and factors, without singular names.
 */
module LegacyDistanceUnits {
  import DistanceUnits

  datatype DistanceUnit = Inches | Feet | Yards | Millimeters | Centimeters | Meters

  function Name(u: DistanceUnit): string
  {
    match u
    case Inches => "Inches"
    case Feet => "Feet"
    case Yards => "Yards"
    case Millimeters => "Millimeters"
    case Centimeters => "Centimeters"
    case Meters => "Meters"
  }

  function Abbrev(u: DistanceUnit): string
  {
    match u
    case Inches => "in"
    case Feet => "ft"
    case Yards => "yd"
    case Millimeters => "mm"
    case Centimeters => "cm"
    case Meters => "m"
  }

  /** Units per inch; Inches is the pivot and every factor is positive. */
  function ScaleFactor(u: DistanceUnit): (r: real)
    ensures r > 0.0
    ensures u == Inches <==> r == 1.0
  {
    match u
    case Inches => 1.0
    case Feet => 1.0 / 12.0
    case Yards => 1.0 / 36.0
    case Millimeters => 25.4
    case Centimeters => 2.54
    case Meters => 0.0254
  }

  function Convert(from: DistanceUnit, to: DistanceUnit, value: real): (r: real)
    ensures r * ScaleFactor(from) == value * ScaleFactor(to)
  {
    value / ScaleFactor(from) * ScaleFactor(to)
  }

  function To(unit: DistanceUnit, to: DistanceUnit, value: real): (r: real)
    ensures r * ScaleFactor(unit) == value * ScaleFactor(to)
  {
    Convert(unit, to, value)
  }

  function From(unit: DistanceUnit, from: DistanceUnit, value: real): (r: real)
    ensures r * ScaleFactor(from) == value * ScaleFactor(unit)
  {
    Convert(from, unit, value)
  }

  lemma ConvertSameUnit(u: DistanceUnit, v: real)
    ensures Convert(u, u, v) == v
  {
  }

  lemma ConvertRoundTrip(a: DistanceUnit, b: DistanceUnit, v: real)
    ensures Convert(b, a, Convert(a, b, v)) == v
  {
  }

  /** The unit of the same name in the newer table. */
  function Current(u: DistanceUnit): DistanceUnits.DistanceUnit
  {
    match u
    case Inches => DistanceUnits.Inches
    case Feet => DistanceUnits.Feet
    case Yards => DistanceUnits.Yards
    case Millimeters => DistanceUnits.Millimeters
    case Centimeters => DistanceUnits.Centimeters
    case Meters => DistanceUnits.Meters
  }

  /** The two copies of the table convert identically. */
  lemma AgreesWithCurrentTable(a: DistanceUnit, b: DistanceUnit, v: real)
    ensures Name(a) == DistanceUnits.Name(Current(a))
    ensures Abbrev(a) == DistanceUnits.Abbrev(Current(a))
    ensures ScaleFactor(a) == DistanceUnits.ScaleFactor(Current(a))
    ensures Convert(a, b, v) == DistanceUnits.Convert(Current(a), Current(b), v)
  {
  }
}
