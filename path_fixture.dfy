/**
 * PathFixture of studio.jkb.svg: turns a parsed SVG path into a list of
 * coordinates in model units, measures it, and places the fixture's points
 * along it, either one per coordinate, a fixed number spread evenly, or one per
 * spacing / density step.
 *
 * Math.sqrt is not part of this model: the Euclidean norm sqrt(dx*dx + dy*dy)
 * that Coordinate.dist computes is held as the function `norm`, of which only
 * non-negativity is used.  LXUtils is not part of this
 * model either; its lerp and constrain are taken as v1 + (v2 - v1) * amt and
 * "below min gives min, above max gives max".  The LX transform a point is set
 * through is left out: a placed point is its position in model units.
 */
module PathFixture {
  import opened Wrappers
  import opened Path2D
  import opened DistanceUnits
  import PathLexer
  import SvgUtils

  const MAX_POINTS: int := 4096
  const INT_MAX: int := 0x7fff_ffff

  datatype PointMode = Direct | Density | Spacing | NumPoints

  /** A path coordinate; distPrev, distOverall and n are filled in by CalcCoordsLength. */
  datatype Coordinate = Coordinate(x: real, y: real, distPrev: real, distOverall: real, n: real)

  /** new Coordinate(x, y): the measured fields start at 0. */
  function NewCoordinate(x: real, y: real): Coordinate
  {
    Coordinate(x, y, 0.0, 0.0, 0.0)
  }

  /** Where a point is put, in model units. */
  datatype Position = Position(x: real, y: real)

  function PositionOf(c: Coordinate): Position
  {
    Position(c.x, c.y)
  }

  ghost predicate NonNegative(norm: (real, real) -> real)
  {
    forall dx, dy :: norm(dx, dy) >= 0.0
  }

  /** Coordinate.dist: the norm of the difference of the two positions. */
  function Dist(a: Coordinate, b: Coordinate, norm: (real, real) -> real): real
  {
    norm(a.x - b.x, a.y - b.y)
  }

  /** LXUtils.lerp. */
  function Lerp(a: real, b: real, amt: real): (r: real)
    ensures amt == 0.0 ==> r == a
    ensures amt == 1.0 ==> r == b
  {
    a + (b - a) * amt
  }

  /** Coordinate.lerp: a new coordinate; the receiver is a value and stays as it is. */
  function CoordLerp(c: Coordinate, that: Coordinate, amt: real): (r: Coordinate)
    ensures amt == 0.0 ==> PositionOf(r) == PositionOf(c)
    ensures amt == 1.0 ==> PositionOf(r) == PositionOf(that)
  {
    NewCoordinate(Lerp(c.x, that.x, amt), Lerp(c.y, that.y, amt))
  }

  /** LXUtils.constrain. */
  function Constrain(v: real, lo: real, hi: real): (r: real)
    requires lo <= hi
    ensures lo <= r <= hi
    ensures lo <= v <= hi ==> r == v
    ensures v < lo ==> r == lo
    ensures v > hi ==> r == hi
  {
    if v < lo then lo else if v > hi then hi else v
  }

  // ---------------------------------------------------------------------------
  // Parameters
  // ---------------------------------------------------------------------------

  /** The fixture's metrics parameters. */
  datatype Parameters = Parameters(
    pathUnits: DistanceUnit,
    modelUnits: DistanceUnit,
    mode: PointMode,
    numPoints: int,
    spacing: real,
    spacingUnits: DistanceUnit,
    density: real,
    densityUnits: DistanceUnit,
    reversePath: bool,
    padStart: real,
    padEnd: real)

  const Defaults := Parameters(Inches, Inches, Spacing, 10, 1.0, Inches, 60.0, Meters, false, 0.0, 0.0)

  /** The ranges the parameters are declared with; LX keeps each value inside its range. */
  predicate InRange(p: Parameters)
  {
    && 1 <= p.numPoints <= MAX_POINTS
    && 0.1 <= p.spacing <= 1000.0
    && 0.1 <= p.density <= 1000.0
    && 0.0 <= p.padStart <= 10000.0
    && 0.0 <= p.padEnd <= 10000.0
  }

  /** One parameter taking a new value. */
  datatype Change =
    | SetPathUnits(units: DistanceUnit)
    | SetModelUnits(units: DistanceUnit)
    | SetPointMode(mode: PointMode)
    | SetNumPoints(count: int)
    | SetSpacing(value: real)
    | SetSpacingUnits(units: DistanceUnit)
    | SetDensity(value: real)
    | SetDensityUnits(units: DistanceUnit)
    | SetReversePath(flag: bool)
    | SetPadStart(value: real)
    | SetPadEnd(value: real)

  function Apply(p: Parameters, c: Change): Parameters
  {
    match c
    case SetPathUnits(u) => p.(pathUnits := u)
    case SetModelUnits(u) => p.(modelUnits := u)
    case SetPointMode(m) => p.(mode := m)
    case SetNumPoints(n) => p.(numPoints := n)
    case SetSpacing(v) => p.(spacing := v)
    case SetSpacingUnits(u) => p.(spacingUnits := u)
    case SetDensity(v) => p.(density := v)
    case SetDensityUnits(u) => p.(densityUnits := u)
    case SetReversePath(b) => p.(reversePath := b)
    case SetPadStart(v) => p.(padStart := v)
    case SetPadEnd(v) => p.(padEnd := v)
  }

  // ---------------------------------------------------------------------------
  // Sizing
  // ---------------------------------------------------------------------------

  /** getActiveLength: the path length minus both paddings, never below 0. */
  function ActiveLength(coordsLength: real, padStart: real, padEnd: real): (r: real)
    ensures r >= 0.0
    ensures r >= coordsLength - padStart - padEnd
    ensures r == 0.0 || r == coordsLength - padStart - padEnd
  {
    if coordsLength - padStart - padEnd > 0.0 then coordsLength - padStart - padEnd else 0.0
  }

  /** The density setting as a distance between points: 1/density, or 0 for a density that is not positive. */
  function DensitySpacing(density: real): (r: real)
    ensures density > 0.0 ==> r * density == 1.0
    ensures density <= 0.0 ==> r == 0.0
  {
    if density > 0.0 then 1.0 / density else 0.0
  }

  /** getModelSpacing: the distance between points in model units, in Density or Spacing mode. */
  function ModelSpacing(p: Parameters): real
  {
    if p.mode == Density then From(p.modelUnits, p.densityUnits, DensitySpacing(p.density))
    else From(p.modelUnits, p.spacingUnits, p.spacing)
  }

  /** Java's (int) cast of a non-negative double: truncation, saturating at Integer.MAX_VALUE. */
  function IntCast(v: real): (r: int)
    requires v >= 0.0
    ensures 0 <= r <= INT_MAX
    ensures v < INT_MAX as real ==> r as real <= v < r as real + 1.0
    ensures v >= INT_MAX as real ==> r == INT_MAX
  {
    if v >= INT_MAX as real then INT_MAX else v.Floor
  }

  /** refreshSizeForSpacing: how many spacing steps fit in the active length. */
  function SizeForSpacing(p: Parameters, coordsLength: real): int
  {
    var modelSpacing := ModelSpacing(p);
    if modelSpacing > 0.0 then IntCast(ActiveLength(coordsLength, p.padStart, p.padEnd) / modelSpacing) else 0
  }

  /** size(): the number of points the fixture has. */
  function Size(p: Parameters, sizeForSpacingMode: int, coordinateCount: nat): int
  {
    match p.mode
    case NumPoints => p.numPoints
    case Density => sizeForSpacingMode
    case Spacing => sizeForSpacingMode
    case Direct => coordinateCount
  }

  /** Size for Spacing/Density mode is floor(active length / spacing), below Integer.MAX_VALUE, and 0 without a positive spacing. */
  lemma SizeForSpacingIsFloor(p: Parameters, coordsLength: real)
    ensures SizeForSpacing(p, coordsLength) >= 0
    ensures ModelSpacing(p) <= 0.0 ==> SizeForSpacing(p, coordsLength) == 0
    ensures ModelSpacing(p) > 0.0 && ActiveLength(coordsLength, p.padStart, p.padEnd) / ModelSpacing(p) < INT_MAX as real ==>
      SizeForSpacing(p, coordsLength) == (ActiveLength(coordsLength, p.padStart, p.padEnd) / ModelSpacing(p)).Floor
  {
  }

  lemma PositiveRatio(r: real, a: real, b: real)
    requires a > 0.0 && b > 0.0 && r * a == b
    ensures r > 0.0
  {
    if r <= 0.0 {
      assert false;
    }
  }

  /** A positive distance converted to another unit stays positive. */
  lemma FromPositive(unit: DistanceUnit, from: DistanceUnit, v: real)
    requires v > 0.0
    ensures From(unit, from, v) > 0.0
  {
    var sf := ScaleFactor(from);
    var su := ScaleFactor(unit);
    assert From(unit, from, v) * sf == v * su;
    assert v * su > 0.0;
    PositiveRatio(From(unit, from, v), sf, v * su);
  }

  /** With the declared ranges the spacing is positive in both modes, so the size never takes the 0 branch. */
  lemma ModelSpacingPositive(p: Parameters)
    requires InRange(p)
    ensures ModelSpacing(p) > 0.0
  {
    if p.mode == Density {
      PositiveRatio(DensitySpacing(p.density), p.density, 1.0);
      FromPositive(p.modelUnits, p.densityUnits, DensitySpacing(p.density));
    } else {
      FromPositive(p.modelUnits, p.spacingUnits, p.spacing);
    }
  }

  /** A path of length 0 (in particular no path at all) has no room for a point in Spacing or Density mode. */
  lemma EmptyPathHasNoSpacingPoints(p: Parameters)
    requires InRange(p)
    ensures SizeForSpacing(p, 0.0) == 0
  {
  }

  // ---------------------------------------------------------------------------
  // Flattening and measuring
  // ---------------------------------------------------------------------------

  /** rebuildCoordinates: every moveTo and lineTo end point, converted to model units; curves and closes give nothing. */
  function Flatten(path: Path, pathUnits: DistanceUnit, modelUnits: DistanceUnit): seq<Coordinate>
    decreases |path|
  {
    if path == [] then []
    else
      var init := Flatten(path[..|path| - 1], pathUnits, modelUnits);
      match path[|path| - 1]
      case SegMoveTo(x, y) => init + [NewCoordinate(To(pathUnits, modelUnits, x), To(pathUnits, modelUnits, y))]
      case SegLineTo(x, y) => init + [NewCoordinate(To(pathUnits, modelUnits, x), To(pathUnits, modelUnits, y))]
      case _ => init
  }

  predicate IsVertex(s: Segment)
  {
    s.SegMoveTo? || s.SegLineTo?
  }

  /** The moveTo and lineTo segments of a path, in order. */
  function Vertices(path: Path): (r: seq<Segment>)
    ensures forall k :: 0 <= k < |r| ==> IsVertex(r[k])
    decreases |path|
  {
    if path == [] then []
    else Vertices(path[..|path| - 1]) + (if IsVertex(path[|path| - 1]) then [path[|path| - 1]] else [])
  }

  /** One coordinate per moveTo or lineTo, holding its end point in model units, and nothing else. */
  lemma {:induction false} FlattenIsOnePerVertex(path: Path, pathUnits: DistanceUnit, modelUnits: DistanceUnit)
    ensures |Flatten(path, pathUnits, modelUnits)| == |Vertices(path)|
    ensures forall k :: 0 <= k < |Vertices(path)| ==>
      var c := Flatten(path, pathUnits, modelUnits)[k];
      c == NewCoordinate(To(pathUnits, modelUnits, Vertices(path)[k].x), To(pathUnits, modelUnits, Vertices(path)[k].y))
    decreases |path|
  {
    if path != [] {
      FlattenIsOnePerVertex(path[..|path| - 1], pathUnits, modelUnits);
    }
  }

  /** The sum of the distances between consecutive coordinates. */
  function PathLength(cs: seq<Coordinate>, norm: (real, real) -> real): real
    decreases |cs|
  {
    if |cs| <= 1 then 0.0 else PathLength(cs[..|cs| - 1], norm) + Dist(cs[|cs| - 1], cs[|cs| - 2], norm)
  }

  /** Coordinate k after the first loop of calcCoordsLength. */
  function Tally(cs: seq<Coordinate>, k: nat, norm: (real, real) -> real): Coordinate
    requires k < |cs|
  {
    cs[k].(distPrev := if k == 0 then 0.0 else Dist(cs[k], cs[k - 1], norm), distOverall := PathLength(cs[..k + 1], norm))
  }

  /** Coordinate k after the second loop: its distance from the start as a fraction of the whole length. */
  function Normalised(c: Coordinate, total: real): Coordinate
  {
    c.(n := if total > 0.0 then c.distOverall / total else 0.0)
  }

  /** A distance from the start between 0 and the whole length gives a fraction in [0, 1]; 0 gives 0 and the whole length gives 1. */
  lemma NormalisedRange(c: Coordinate, total: real)
    ensures c.distOverall == 0.0 ==> Normalised(c, total).n == 0.0
    ensures total > 0.0 && 0.0 <= c.distOverall <= total ==> 0.0 <= Normalised(c, total).n <= 1.0
    ensures total > 0.0 && c.distOverall == total ==> Normalised(c, total).n == 1.0
    ensures total <= 0.0 ==> Normalised(c, total).n == 0.0
  {
    if total > 0.0 && 0.0 <= c.distOverall <= total {
      var f := c.distOverall / total;
      assert f * total == c.distOverall;
      if f > 1.0 {
        assert f * total > total;
      }
    }
  }

  /** The coordinates after the first loop of calcCoordsLength. */
  function Tallied(cs: seq<Coordinate>, norm: (real, real) -> real): (ts: seq<Coordinate>)
    ensures |ts| == |cs|
  {
    seq(|cs|, k requires 0 <= k < |cs| => Tally(cs, k, norm))
  }

  /** The second loop of calcCoordsLength: every coordinate's normalised position. */
  function NormaliseAll(ts: seq<Coordinate>, total: real): (ms: seq<Coordinate>)
    ensures |ms| == |ts|
  {
    seq(|ts|, k requires 0 <= k < |ts| => Normalised(ts[k], total))
  }

  /** The coordinates as calcCoordsLength leaves them. */
  function Measured(cs: seq<Coordinate>, norm: (real, real) -> real): (ms: seq<Coordinate>)
    ensures |ms| == |cs|
    ensures forall k :: 0 <= k < |cs| ==> PositionOf(ms[k]) == PositionOf(cs[k])
  {
    NormaliseAll(Tallied(cs, norm), PathLength(cs, norm))
  }

  /** One step of the first loop: the prefix through coordinate i is longer by i's distance from i - 1. */
  lemma PathLengthStep(cs: seq<Coordinate>, i: nat, norm: (real, real) -> real)
    requires 1 <= i < |cs|
    ensures PathLength(cs[..i + 1], norm) == PathLength(cs[..i], norm) + Dist(cs[i], cs[i - 1], norm)
    ensures Tally(cs, i, norm) == cs[i].(distPrev := Dist(cs[i], cs[i - 1], norm), distOverall := PathLength(cs[..i], norm) + Dist(cs[i], cs[i - 1], norm))
  {
    assert cs[..i + 1][..i] == cs[..i];
  }

  /** The first loop of calcCoordsLength: running distances along the path. */
  method Accumulate(cs: seq<Coordinate>, norm: (real, real) -> real) returns (ts: seq<Coordinate>, length: real)
    requires cs != []
    ensures ts == Tallied(cs, norm) && length == PathLength(cs, norm)
  {
    ts := cs[0 := cs[0].(distOverall := 0.0, distPrev := 0.0)];
    length := 0.0;
    assert cs[..1][..0] == [];
    var prevCoord := ts[0];
    for i := 1 to |ts|
      invariant |ts| == |cs|
      invariant forall k :: 0 <= k < i ==> ts[k] == Tally(cs, k, norm)
      invariant forall k :: i <= k < |cs| ==> ts[k] == cs[k]
      invariant length == PathLength(cs[..i], norm)
      invariant prevCoord == ts[i - 1]
    {
      var coord := ts[i];
      var distPrev := Dist(coord, prevCoord, norm);
      PathLengthStep(cs, i, norm);
      length := length + distPrev;
      coord := coord.(distPrev := distPrev, distOverall := length);
      ts := ts[i := coord];
      prevCoord := coord;
    }
    assert cs[..|cs|] == cs;
  }

  /** The second loop of calcCoordsLength, with its guard against a zero length. */
  method Normalise(ts: seq<Coordinate>, total: real) returns (ms: seq<Coordinate>)
    ensures ms == NormaliseAll(ts, total)
  {
    ms := ts;
    if total > 0.0 {
      for i := 0 to |ms|
        invariant |ms| == |ts|
        invariant forall k :: 0 <= k < i ==> ms[k] == Normalised(ts[k], total)
        invariant forall k :: i <= k < |ts| ==> ms[k] == ts[k]
      {
        ms := ms[i := ms[i].(n := ms[i].distOverall / total)];
      }
    } else {
      for i := 0 to |ms|
        invariant |ms| == |ts|
        invariant forall k :: 0 <= k < i ==> ms[k] == Normalised(ts[k], total)
        invariant forall k :: i <= k < |ts| ==> ms[k] == ts[k]
      {
        ms := ms[i := ms[i].(n := 0.0)];
      }
    }
  }

  /** The sum of the distPrev fields. */
  function SumDistPrev(ms: seq<Coordinate>): real
    decreases |ms|
  {
    if ms == [] then 0.0 else SumDistPrev(ms[..|ms| - 1]) + ms[|ms| - 1].distPrev
  }

  /** The length depends only on the positions. */
  lemma {:induction false} PathLengthOfPositions(cs: seq<Coordinate>, ds: seq<Coordinate>, norm: (real, real) -> real)
    requires |cs| == |ds| && forall k :: 0 <= k < |cs| ==> PositionOf(cs[k]) == PositionOf(ds[k])
    ensures PathLength(cs, norm) == PathLength(ds, norm)
    decreases |cs|
  {
    if |cs| > 1 {
      PathLengthOfPositions(cs[..|cs| - 1], ds[..|ds| - 1], norm);
      assert Dist(cs[|cs| - 1], cs[|cs| - 2], norm) == Dist(ds[|ds| - 1], ds[|ds| - 2], norm);
    }
  }

  /** The first coordinate starts the path: distPrev = distOverall = n = 0. */
  lemma MeasuredFirst(cs: seq<Coordinate>, norm: (real, real) -> real)
    requires cs != []
    ensures Measured(cs, norm)[0].distPrev == 0.0
    ensures Measured(cs, norm)[0].distOverall == 0.0
    ensures Measured(cs, norm)[0].n == 0.0
  {
    var t := Tally(cs, 0, norm);
    assert PathLength(cs[..1], norm) == 0.0;
    assert Measured(cs, norm)[0] == Normalised(t, PathLength(cs, norm));
    NormalisedRange(t, PathLength(cs, norm));
  }

  /** After the first loop, the length is the sum of every coordinate's distPrev. */
  lemma {:induction false} TalliedSumOfDistPrev(cs: seq<Coordinate>, norm: (real, real) -> real)
    ensures SumDistPrev(Tallied(cs, norm)) == PathLength(cs, norm)
  {
    var ts := Tallied(cs, norm);
    var k := 0;
    while k < |cs|
      invariant k <= |cs|
      invariant SumDistPrev(ts[..k]) == PathLength(cs[..k], norm)
    {
      assert ts[..k + 1][..k] == ts[..k];
      assert cs[..k + 1][..k] == cs[..k];
      if k > 0 {
        assert cs[..k + 1][k] == cs[k] && cs[..k + 1][k - 1] == cs[k - 1];
      }
      k := k + 1;
    }
    assert ts[..|cs|] == ts;
    assert cs[..|cs|] == cs;
  }

  /** The sum reads only the distPrev fields. */
  lemma {:induction false} SumDistPrevOfSameFields(a: seq<Coordinate>, b: seq<Coordinate>)
    requires |a| == |b| && forall k :: 0 <= k < |a| ==> a[k].distPrev == b[k].distPrev
    ensures SumDistPrev(a) == SumDistPrev(b)
    decreases |a|
  {
    if a != [] {
      SumDistPrevOfSameFields(a[..|a| - 1], b[..|b| - 1]);
    }
  }

  /** After calcCoordsLength, the length is the sum of every coordinate's distPrev. */
  lemma LengthIsSumOfDistPrev(cs: seq<Coordinate>, norm: (real, real) -> real)
    ensures SumDistPrev(Measured(cs, norm)) == PathLength(cs, norm)
  {
    TalliedSumOfDistPrev(cs, norm);
    SumDistPrevOfSameFields(Measured(cs, norm), Tallied(cs, norm));
  }

  /** Lengths of prefixes never decrease, and none exceeds the whole. */
  lemma {:induction false} PathLengthMonotone(cs: seq<Coordinate>, i: nat, j: nat, norm: (real, real) -> real)
    requires NonNegative(norm)
    requires i <= j <= |cs|
    ensures PathLength(cs[..i], norm) <= PathLength(cs[..j], norm)
    decreases j - i
  {
    if i < j {
      PathLengthMonotone(cs, i, j - 1, norm);
      if j >= 2 {
        assert cs[..j][..j - 1] == cs[..j - 1];
        assert Dist(cs[..j][j - 1], cs[..j][j - 2], norm) >= 0.0;
      }
    }
  }

  lemma PathLengthNonNegative(cs: seq<Coordinate>, norm: (real, real) -> real)
    requires NonNegative(norm)
    ensures PathLength(cs, norm) >= 0.0
  {
    PathLengthMonotone(cs, 0, |cs|, norm);
    assert cs[..|cs|] == cs;
  }

  /** After calcCoordsLength distOverall never decreases along the list, and the last one is the whole length. */
  lemma DistOverallMonotone(cs: seq<Coordinate>, norm: (real, real) -> real)
    requires NonNegative(norm)
    ensures forall i, j :: 0 <= i <= j < |cs| ==> Measured(cs, norm)[i].distOverall <= Measured(cs, norm)[j].distOverall
    ensures cs != [] ==> Measured(cs, norm)[|cs| - 1].distOverall == PathLength(cs, norm)
  {
    forall i, j | 0 <= i <= j < |cs|
      ensures Measured(cs, norm)[i].distOverall <= Measured(cs, norm)[j].distOverall
    {
      PathLengthMonotone(cs, i + 1, j + 1, norm);
      MeasuredDistOverall(cs, i, norm);
      MeasuredDistOverall(cs, j, norm);
    }
    if cs != [] {
      assert cs[..|cs|] == cs;
      MeasuredDistOverall(cs, |cs| - 1, norm);
    }
  }

  /** Coordinate k's distOverall after calcCoordsLength is the length of the path up to it. */
  lemma MeasuredDistOverall(cs: seq<Coordinate>, k: nat, norm: (real, real) -> real)
    requires k < |cs|
    ensures Measured(cs, norm)[k].distOverall == PathLength(cs[..k + 1], norm)
  {
    assert Measured(cs, norm)[k] == Normalised(Tally(cs, k, norm), PathLength(cs, norm));
  }

  /** After calcCoordsLength every n lies in [0, 1]. */
  lemma NormalInUnit(cs: seq<Coordinate>, norm: (real, real) -> real)
    requires NonNegative(norm)
    ensures forall k :: 0 <= k < |cs| ==> 0.0 <= Measured(cs, norm)[k].n <= 1.0
  {
    forall k | 0 <= k < |cs|
      ensures 0.0 <= Measured(cs, norm)[k].n <= 1.0
    {
      NormalAtInUnit(cs, k, norm);
    }
  }

  /** One coordinate's n lies in [0, 1]. */
  lemma NormalAtInUnit(cs: seq<Coordinate>, k: nat, norm: (real, real) -> real)
    requires NonNegative(norm) && k < |cs|
    ensures 0.0 <= Normalised(Tally(cs, k, norm), PathLength(cs, norm)).n <= 1.0
  {
    assert cs[..|cs|] == cs;
    assert cs[..0] == [];
    PathLengthMonotone(cs, 0, k + 1, norm);
    PathLengthMonotone(cs, k + 1, |cs|, norm);
    NormalisedRange(Tally(cs, k, norm), PathLength(cs, norm));
  }

  /** The last n is 1 on a path of positive length; every n is 0 on a path of length 0. */
  lemma NormalEnds(cs: seq<Coordinate>, norm: (real, real) -> real)
    ensures cs != [] && PathLength(cs, norm) > 0.0 ==> Measured(cs, norm)[|cs| - 1].n == 1.0
    ensures PathLength(cs, norm) == 0.0 ==> forall k :: 0 <= k < |cs| ==> Measured(cs, norm)[k].n == 0.0
  {
    if cs != [] {
      assert cs[..|cs|] == cs;
      MeasuredAt(cs, |cs| - 1, norm);
    }
    forall k | 0 <= k < |cs|
      ensures PathLength(cs, norm) == 0.0 ==> Measured(cs, norm)[k].n == 0.0
    {
      MeasuredAt(cs, k, norm);
    }
  }

  /** Coordinate k after calcCoordsLength: n is 0 on a path of length 0, and 1 where distOverall is the whole positive length. */
  lemma MeasuredAt(cs: seq<Coordinate>, k: nat, norm: (real, real) -> real)
    requires k < |cs|
    ensures PathLength(cs, norm) == 0.0 ==> Measured(cs, norm)[k].n == 0.0
    ensures PathLength(cs, norm) > 0.0 && PathLength(cs[..k + 1], norm) == PathLength(cs, norm) ==> Measured(cs, norm)[k].n == 1.0
  {
    NormalisedRange(Tally(cs, k, norm), PathLength(cs, norm));
  }

  // ---------------------------------------------------------------------------
  // The placement walk
  // ---------------------------------------------------------------------------

  /** Where the walk puts one point: on a coordinate, or a fraction of the way from one coordinate to the next. */
  datatype Placement = OnCoordinate(index: nat) | Between(index: nat, fraction: real)

  predicate Fits(cs: seq<Coordinate>, p: Placement)
  {
    match p
    case OnCoordinate(k) => k < |cs|
    case Between(k, _) => k + 1 < |cs|
  }

  /** The position a placement stands for. */
  function Locate(cs: seq<Coordinate>, p: Placement): Position
    requires Fits(cs, p)
  {
    match p
    case OnCoordinate(k) => PositionOf(cs[k])
    case Between(k, f) => PositionOf(CoordLerp(cs[k], cs[k + 1], f))
  }

  /** The normalised position along the path a placement stands for. */
  function NormalOf(cs: seq<Coordinate>, p: Placement): real
    requires Fits(cs, p)
  {
    match p
    case OnCoordinate(k) => cs[k].n
    case Between(k, f) => Lerp(cs[k].n, cs[k + 1].n, f)
  }

  /** The normalised target of point i: its start padding plus i spacings, clamped to the path. */
  function Target(nPadStart: real, nSpacing: real, i: nat): (r: real)
    ensures 0.0 <= r <= 1.0
  {
    Constrain(nPadStart + i as real * nSpacing, 0.0, 1.0)
  }

  lemma TargetMonotone(nPadStart: real, nSpacing: real, i: nat)
    requires nSpacing >= 0.0
    ensures Target(nPadStart, nSpacing, i) <= Target(nPadStart, nSpacing, i + 1)
  {
    assert (i + 1) as real * nSpacing == i as real * nSpacing + nSpacing;
  }

  lemma BetweenFraction(a: real, b: real, t: real)
    requires a < t < b
    ensures 0.0 < (t - a) / (b - a) < 1.0
    ensures Lerp(a, b, (t - a) / (b - a)) == t
  {
    var f := (t - a) / (b - a);
    assert f * (b - a) == t - a;
    if f >= 1.0 {
      assert false;
    }
    if f <= 0.0 {
      assert false;
    }
  }

  /**
   * The inner loop for one point with target nPoint, from coordinate iCoord: it
   * moves past the coordinates that lie before the target and returns the
   * coordinate it stops at (never one before iCoord) together with the placement.
   */
  function Seek(cs: seq<Coordinate>, iCoord: nat, nPoint: real): (r: (nat, Placement))
    requires iCoord < |cs| && cs[iCoord].n <= nPoint
    ensures iCoord <= r.0 < |cs| && cs[r.0].n <= nPoint && Fits(cs, r.1)
    decreases |cs| - iCoord
  {
    var coord := cs[iCoord];
    if coord.n == nPoint then (iCoord, OnCoordinate(iCoord))
    else if iCoord + 1 == |cs| then (iCoord, OnCoordinate(iCoord))
    else
      var next := cs[iCoord + 1];
      if next.n < nPoint then Seek(cs, iCoord + 1, nPoint)
      else if next.n == nPoint then (iCoord, OnCoordinate(iCoord + 1))
      else (iCoord, Between(iCoord, (nPoint - coord.n) / (next.n - coord.n)))
  }

  /**
   * The search only moves past coordinates that lie before the target; it puts
   * the point on a coordinate at the target, on the last coordinate when it
   * reaches it, or between the coordinate it stops at and the next one.
   */
  lemma {:induction false} SeekStops(cs: seq<Coordinate>, iCoord: nat, nPoint: real)
    requires iCoord < |cs| && cs[iCoord].n <= nPoint
    ensures var r := Seek(cs, iCoord, nPoint);
      && (forall k :: iCoord < k <= r.0 ==> cs[k].n < nPoint)
      && (r.1.OnCoordinate? ==>
        || (r.1.index == r.0 && (cs[r.0].n == nPoint || r.0 == |cs| - 1))
        || (r.1.index == r.0 + 1 && cs[r.0 + 1].n == nPoint))
      && (r.1.Between? ==> r.1.index == r.0)
      && (r.0 == |cs| - 1 ==> r.1 == OnCoordinate(|cs| - 1))
      && ((forall k :: iCoord <= k < |cs| ==> cs[k].n < nPoint) ==> r.1 == OnCoordinate(|cs| - 1))
    decreases |cs| - iCoord
  {
    var coord := cs[iCoord];
    if coord.n != nPoint && iCoord + 1 < |cs| && cs[iCoord + 1].n < nPoint {
      SeekStops(cs, iCoord + 1, nPoint);
    }
  }

  /**
   * An interpolated point lies strictly between its two coordinates, at the
   * fraction (nPoint - coord.n) / (coordNext.n - coord.n); and unless every
   * coordinate lies before the target, the point lands exactly on it.
   */
  lemma {:induction false} SeekLands(cs: seq<Coordinate>, iCoord: nat, nPoint: real)
    requires iCoord < |cs| && cs[iCoord].n <= nPoint
    ensures var p := Seek(cs, iCoord, nPoint).1;
      p.Between? ==>
        && cs[p.index].n < nPoint < cs[p.index + 1].n
        && p.fraction == (nPoint - cs[p.index].n) / (cs[p.index + 1].n - cs[p.index].n)
        && 0.0 < p.fraction < 1.0
    ensures cs[|cs| - 1].n >= nPoint ==> NormalOf(cs, Seek(cs, iCoord, nPoint).1) == nPoint
    decreases |cs| - iCoord
  {
    var coord := cs[iCoord];
    if coord.n != nPoint && iCoord + 1 < |cs| {
      var next := cs[iCoord + 1];
      if next.n < nPoint {
        SeekLands(cs, iCoord + 1, nPoint);
      } else if next.n > nPoint {
        BetweenFraction(coord.n, next.n, nPoint);
      }
    }
  }

  /** The outer loop, from point i on: one placement per point, each search starting where the last one stopped. */
  function Walk(cs: seq<Coordinate>, iCoord: nat, nPadStart: real, nSpacing: real, i: nat, count: nat): (r: seq<Placement>)
    requires iCoord < |cs| && nSpacing >= 0.0 && i <= count
    requires cs[iCoord].n <= Target(nPadStart, nSpacing, i)
    ensures |r| == count - i
    ensures forall k :: 0 <= k < |r| ==> Fits(cs, r[k])
    decreases count - i
  {
    if i == count then []
    else
      var s := Seek(cs, iCoord, Target(nPadStart, nSpacing, i));
      TargetMonotone(nPadStart, nSpacing, i);
      [s.1] + Walk(cs, s.0, nPadStart, nSpacing, i + 1, count)
  }

  /** Every point whose target is not beyond the last coordinate lands exactly on its target. */
  lemma {:induction false} WalkLands(cs: seq<Coordinate>, iCoord: nat, nPadStart: real, nSpacing: real, i: nat, count: nat)
    requires iCoord < |cs| && nSpacing >= 0.0 && i <= count
    requires cs[iCoord].n <= Target(nPadStart, nSpacing, i)
    ensures forall k :: 0 <= k < count - i && cs[|cs| - 1].n >= Target(nPadStart, nSpacing, i + k) ==>
      NormalOf(cs, Walk(cs, iCoord, nPadStart, nSpacing, i, count)[k]) == Target(nPadStart, nSpacing, i + k)
    decreases count - i
  {
    if i < count {
      var r := Walk(cs, iCoord, nPadStart, nSpacing, i, count);
      var s := Seek(cs, iCoord, Target(nPadStart, nSpacing, i));
      SeekLands(cs, iCoord, Target(nPadStart, nSpacing, i));
      TargetMonotone(nPadStart, nSpacing, i);
      var rest := Walk(cs, s.0, nPadStart, nSpacing, i + 1, count);
      WalkLands(cs, s.0, nPadStart, nSpacing, i + 1, count);
      assert r == [s.1] + rest;
      forall k | 0 < k < count - i && cs[|cs| - 1].n >= Target(nPadStart, nSpacing, i + k)
        ensures NormalOf(cs, r[k]) == Target(nPadStart, nSpacing, i + k)
      {
        assert r[k] == rest[k - 1];
        assert i + k == (i + 1) + (k - 1);
      }
    }
  }

  /** The scale factors of _computePointsOnPath: spacing and start padding as fractions of the length. */
  function NormalSpacing(coordsLength: real, spacing: real): real
  {
    if coordsLength == 0.0 then 0.0 else spacing / coordsLength
  }

  function NormalPadStart(coordsLength: real, padStart: real): real
  {
    if coordsLength == 0.0 then 0.0 else Constrain(padStart / coordsLength, 0.0, 1.0)
  }

  /** _computePointsOnPath, as placements of `count` points. */
  function PointsOnPath(cs: seq<Coordinate>, coordsLength: real, padStart: real, spacing: real, count: nat): (r: seq<Placement>)
    requires cs != [] && cs[0].n <= 0.0
    requires coordsLength >= 0.0 && spacing >= 0.0
    ensures |r| == count && forall k :: 0 <= k < count ==> Fits(cs, r[k])
  {
    Walk(cs, 0, NormalPadStart(coordsLength, padStart), NormalSpacing(coordsLength, spacing), 0, count)
  }

  /**
   * On measured coordinates (first n at 0, last n at 1, or every n at 0 when the
   * length is 0) the "ran off the end" branch never places a point: every point
   * lands exactly on its clamped target.
   */
  lemma WalkHitsTargets(cs: seq<Coordinate>, coordsLength: real, padStart: real, spacing: real, count: nat)
    requires cs != [] && cs[0].n <= 0.0 && coordsLength >= 0.0 && spacing >= 0.0
    requires coordsLength > 0.0 ==> cs[|cs| - 1].n == 1.0
    requires coordsLength == 0.0 ==> cs[|cs| - 1].n == 0.0
    ensures forall k :: 0 <= k < count ==>
      NormalOf(cs, PointsOnPath(cs, coordsLength, padStart, spacing, count)[k])
        == Target(NormalPadStart(coordsLength, padStart), NormalSpacing(coordsLength, spacing), k)
  {
    var nPad := NormalPadStart(coordsLength, padStart);
    var nSp := NormalSpacing(coordsLength, spacing);
    NormalSpacingRange(coordsLength, spacing);
    forall k | 0 <= k < count
      ensures cs[|cs| - 1].n >= Target(nPad, nSp, k)
    {
      if coordsLength == 0.0 {
        ZeroLengthTarget(padStart, spacing, k);
      }
    }
    WalkLands(cs, 0, nPad, nSp, 0, count);
    assert PointsOnPath(cs, coordsLength, padStart, spacing, count) == Walk(cs, 0, nPad, nSp, 0, count);
  }

  /** The normalised spacing is never negative, and 0 on a path of length 0. */
  lemma NormalSpacingRange(coordsLength: real, spacing: real)
    requires coordsLength >= 0.0 && spacing >= 0.0
    ensures NormalSpacing(coordsLength, spacing) >= 0.0
    ensures coordsLength == 0.0 ==> NormalSpacing(coordsLength, spacing) == 0.0
  {
  }

  /** On a path of length 0 every target is the start. */
  lemma ZeroLengthTarget(padStart: real, spacing: real, k: nat)
    ensures Target(NormalPadStart(0.0, padStart), NormalSpacing(0.0, spacing), k) == 0.0
  {
    assert k as real * 0.0 == 0.0;
  }

  /** The inner loop of _computePointsOnPath for one target, from coordinate iCoord. */
  method SeekPosition(cs: seq<Coordinate>, iCoord: nat, nPoint: real) returns (stop: nat, position: Position)
    requires iCoord < |cs| && cs[iCoord].n <= nPoint
    ensures stop == Seek(cs, iCoord, nPoint).0
    ensures position == Locate(cs, Seek(cs, iCoord, nPoint).1)
  {
    stop := iCoord;
    var coord := cs[iCoord];
    position := PositionOf(coord);
    while stop < |cs|
      invariant stop < |cs| && coord == cs[stop] && cs[stop].n <= nPoint
      invariant Seek(cs, stop, nPoint) == Seek(cs, iCoord, nPoint)
      decreases |cs| - stop
    {
      if coord.n == nPoint {
        position := PositionOf(coord);
        break;
      }
      if stop + 1 == |cs| {
        position := PositionOf(coord);
        break;
      }
      var coordNext := cs[stop + 1];
      if coordNext.n < nPoint {
        stop := stop + 1;
        coord := coordNext;
      } else if coordNext.n == nPoint {
        position := PositionOf(coordNext);
        break;
      } else {
        var lerp := (nPoint - coord.n) / (coordNext.n - coord.n);
        position := PositionOf(CoordLerp(coord, coordNext, lerp));
        break;
      }
    }
  }

  /** One step of the walk: the next placement, and the rest of the walk from where it stopped. */
  lemma WalkStep(cs: seq<Coordinate>, iCoord: nat, nPadStart: real, nSpacing: real, i: nat, count: nat)
    requires iCoord < |cs| && nSpacing >= 0.0 && i < count
    requires cs[iCoord].n <= Target(nPadStart, nSpacing, i)
    ensures var s := Seek(cs, iCoord, Target(nPadStart, nSpacing, i));
      && s.0 < |cs| && Fits(cs, s.1)
      && cs[s.0].n <= Target(nPadStart, nSpacing, i + 1)
      && Walk(cs, iCoord, nPadStart, nSpacing, i, count) == [s.1] + Walk(cs, s.0, nPadStart, nSpacing, i + 1, count)
  {
    TargetMonotone(nPadStart, nSpacing, i);
  }

  /**
   * The walk of _computePointsOnPath over a non-empty coordinate list: for each
   * point, clamp its target to [0, 1], then move along the coordinates until the
   * target is reached, and put the point there.
   */
  method WalkPoints(cs: seq<Coordinate>, nPadStart: real, nSpacing: real, count: nat) returns (points: seq<Position>)
    requires cs != [] && cs[0].n <= 0.0 && nSpacing >= 0.0
    ensures |points| == count
    ensures forall k :: 0 <= k < count ==> points[k] == Locate(cs, Walk(cs, 0, nPadStart, nSpacing, 0, count)[k])
  {
    ghost var all := Walk(cs, 0, nPadStart, nSpacing, 0, count);
    ghost var placed: seq<Placement> := [];
    var iCoord: nat := 0;
    points := [];
    for i := 0 to count
      invariant iCoord < |cs|
      invariant cs[iCoord].n <= Target(nPadStart, nSpacing, i)
      invariant |points| == |placed| == i
      invariant all == placed + Walk(cs, iCoord, nPadStart, nSpacing, i, count)
      invariant forall k :: 0 <= k < i ==> Fits(cs, placed[k]) && points[k] == Locate(cs, placed[k])
    {
      var nPoint := Target(nPadStart, nSpacing, i);
      ghost var sought := Seek(cs, iCoord, nPoint);
      WalkStep(cs, iCoord, nPadStart, nSpacing, i, count);
      var position;
      iCoord, position := SeekPosition(cs, iCoord, nPoint);
      placed := placed + [sought.1];
      points := points + [position];
    }
  }

  /** _computePointsOnPath once there are coordinates: spacing and padding as fractions of the length, then the walk. */
  method PlaceAlong(cs: seq<Coordinate>, coordsLength: real, padStart: real, spacing: real, count: nat)
    returns (points: seq<Position>)
    requires cs != [] && cs[0].n <= 0.0 && coordsLength >= 0.0 && spacing >= 0.0
    ensures |points| == count
    ensures forall k :: 0 <= k < count ==> points[k] == Locate(cs, PointsOnPath(cs, coordsLength, padStart, spacing, count)[k])
  {
    var nSpacing := NormalSpacing(coordsLength, spacing);
    var nPadStart := NormalPadStart(coordsLength, padStart);
    points := WalkPoints(cs, nPadStart, nSpacing, count);
  }

  /** The spacing computePointGeometry walks with outside DIRECT mode. */
  function WalkSpacing(p: Parameters, coordsLength: real): (r: real)
    requires InRange(p)
    ensures r >= 0.0
  {
    if p.mode == NumPoints then
      var spaces := p.numPoints - 1;
      var active := ActiveLength(coordsLength, p.padStart, p.padEnd);
      if spaces > 0 then active / spaces as real else 0.0
    else
      ModelSpacingPositive(p);
      ModelSpacing(p)
  }

  /** The points of DIRECT mode: one per coordinate. */
  function DirectPoints(cs: seq<Coordinate>): (r: seq<Position>)
    ensures |r| == |cs| && forall k :: 0 <= k < |cs| ==> r[k] == PositionOf(cs[k])
  {
    seq(|cs|, k requires 0 <= k < |cs| => PositionOf(cs[k]))
  }

  /** The DIRECT loop of computePointGeometry: one point per coordinate, in order. */
  method CopyPositions(cs: seq<Coordinate>) returns (points: seq<Position>)
    ensures points == DirectPoints(cs)
  {
    points := [];
    for i := 0 to |cs|
      invariant points == DirectPoints(cs[..i])
    {
      assert cs[..i + 1][..i] == cs[..i];
      points := points + [PositionOf(cs[i])];
    }
    assert cs[..|cs|] == cs;
  }

  /** removeExtension: the file name without the text from its last '.', when that dot is not the first character. */
  function LastIndexOf(s: string, c: char): (r: int)
    ensures -1 <= r < |s|
    ensures r >= 0 ==> s[r] == c
    ensures forall k :: r < k < |s| ==> s[k] != c
    decreases |s|
  {
    if s == [] then -1
    else if s[|s| - 1] == c then |s| - 1
    else LastIndexOf(s[..|s| - 1], c)
  }

  function RemoveExtension(filename: string): (r: string)
    ensures LastIndexOf(filename, '.') > 0 ==> r == filename[..LastIndexOf(filename, '.')] && '.' !in filename[LastIndexOf(filename, '.') + 1..]
    ensures LastIndexOf(filename, '.') <= 0 ==> r == filename
    ensures '.' !in filename ==> r == filename
    ensures r == filename[..|r|]
  {
    var dot := LastIndexOf(filename, '.');
    if dot > 0 then filename[..dot] else filename
  }

  // ---------------------------------------------------------------------------
  // The fixture
  // ---------------------------------------------------------------------------

  /** Exceptions the fixture lets through. */
  datatype FixtureError =
    | Parse(error: PathLexer.ParseError)   // from parseSVGPath
    | NoPath                               // NullPointerException: rebuildCoordinates before any path data

  /** The coordinates a path yields, measured; none while there is no path. */
  function Coordinates(path: Option<Path>, p: Parameters, norm: (real, real) -> real): seq<Coordinate>
  {
    match path
    case None => []
    case Some(segs) => Measured(Flatten(segs, p.pathUnits, p.modelUnits), norm)
  }

  function CoordsLength(path: Option<Path>, p: Parameters, norm: (real, real) -> real): real
  {
    match path
    case None => 0.0
    case Some(segs) => PathLength(Flatten(segs, p.pathUnits, p.modelUnits), norm)
  }

  class PathFixture {
    const norm: (real, real) -> real
    const parse: string -> Option<real>
    var params: Parameters
    var pathData: Option<string>
    var path: Option<Path>
    var coordinates: seq<Coordinate>
    var coordsLength: real
    var sizeForSpacingMode: int

    /**
     * The coordinates are always those of the current path and units, and in
     * Spacing and Density mode the stored size is always the current one.
     */
    ghost predicate Valid()
      reads this
    {
      && NonNegative(norm)
      && InRange(params)
      && coordinates == Coordinates(path, params, norm)
      && coordsLength == CoordsLength(path, params, norm)
      && (params.mode in {Spacing, Density} ==> sizeForSpacingMode == SizeForSpacing(params, coordsLength))
    }

    /** new PathFixture(lx): no path data yet. */
    constructor (norm: (real, real) -> real, parse: string -> Option<real>)
      requires NonNegative(norm)
      ensures Valid()
      ensures this.norm == norm && this.parse == parse
      ensures params == Defaults && pathData == None && path == None
      ensures coordinates == [] && coordsLength == 0.0 && sizeForSpacingMode == 0
    {
      this.norm := norm;
      this.parse := parse;
      params := Defaults;
      pathData := None;
      path := None;
      coordinates := [];
      coordsLength := 0.0;
      sizeForSpacingMode := 0;
    }

    /** calcCoordsLength: measure the coordinates in place. */
    method CalcCoordsLength()
      modifies this
      ensures coordinates == Measured(old(coordinates), norm)
      ensures coordsLength == PathLength(old(coordinates), norm)
      ensures params == old(params) && pathData == old(pathData) && path == old(path)
      ensures sizeForSpacingMode == old(sizeForSpacingMode)
    {
      coordsLength := 0.0;
      if |coordinates| == 0 {
        return;
      }
      var tallied, length := Accumulate(coordinates, norm);
      coordsLength := length;
      coordinates := Normalise(tallied, coordsLength);
    }

    /**
     * rebuildCoordinates: clear the list, add the end point of every moveTo and
     * lineTo in model units, and measure.  Without a path it throws, after
     * clearing the list.
     */
    method RebuildCoordinates() returns (r: Result<(), FixtureError>)
      modifies this
      ensures r.Failure? <==> path.None?
      ensures r.Failure? ==> r.error == NoPath && coordinates == [] && coordsLength == old(coordsLength)
      ensures r.Success? ==> coordinates == Coordinates(path, params, norm) && coordsLength == CoordsLength(path, params, norm)
      ensures params == old(params) && pathData == old(pathData) && path == old(path)
      ensures sizeForSpacingMode == old(sizeForSpacingMode)
    {
      var pathUnits := params.pathUnits;
      var modelUnits := params.modelUnits;
      coordinates := [];
      if path.None? {
        return Failure(NoPath);
      }
      var segs := path.value;
      for i := 0 to |segs|
        invariant coordinates == Flatten(segs[..i], pathUnits, modelUnits)
        invariant params == old(params) && pathData == old(pathData) && path == old(path)
        invariant sizeForSpacingMode == old(sizeForSpacingMode)
      {
        assert segs[..i + 1][..i] == segs[..i];
        match segs[i]
        case SegMoveTo(x, y) =>
          coordinates := coordinates + [NewCoordinate(To(pathUnits, modelUnits, x), To(pathUnits, modelUnits, y))];
        case SegLineTo(x, y) =>
          coordinates := coordinates + [NewCoordinate(To(pathUnits, modelUnits, x), To(pathUnits, modelUnits, y))];
        case _ =>
      }
      assert segs[..|segs|] == segs;
      CalcCoordsLength();
      return Success(());
    }

    /** refreshSizeForSpacing. */
    method RefreshSizeForSpacing()
      modifies this
      ensures sizeForSpacingMode == SizeForSpacing(params, coordsLength)
      ensures params == old(params) && pathData == old(pathData) && path == old(path)
      ensures coordinates == old(coordinates) && coordsLength == old(coordsLength)
    {
      var modelSpacing := ModelSpacing(params);
      if modelSpacing > 0.0 {
        sizeForSpacingMode := IntCast(ActiveLength(coordsLength, params.padStart, params.padEnd) / modelSpacing);
      } else {
        sizeForSpacingMode := 0;
      }
    }

    /** setPathData: keep the text, parse it, rebuild the coordinates and the size. */
    method SetPathData(data: string) returns (r: Result<(), FixtureError>)
      requires Valid()
      modifies this
      ensures Valid()
      ensures pathData == Some(data) && params == old(params)
      ensures r.Failure? <==> SvgUtils.ParsePath(data, parse).Failure?
      ensures r.Failure? ==> path == old(path) && coordinates == old(coordinates) && sizeForSpacingMode == old(sizeForSpacingMode)
      ensures r.Success? ==> path == Some(SvgUtils.ParsePath(data, parse).value.path)
      ensures r.Success? ==> sizeForSpacingMode == SizeForSpacing(params, coordsLength)
    {
      pathData := Some(data);
      var parsed := SvgUtils.ParseSvgPath(data, parse);
      if parsed.Failure? {
        return Failure(Parse(parsed.error));
      }
      path := Some(parsed.value.path);
      var rebuilt := RebuildCoordinates();
      RefreshSizeForSpacing();
      return Success(());
    }

    /**
     * A parameter takes a new value (inside its range) and onParameterChanged
     * runs: a change of units rebuilds the coordinates and the size; in Spacing
     * or Density mode, a change of anything the size depends on refreshes it.
     */
    method SetParameter(c: Change) returns (r: Result<(), FixtureError>)
      requires Valid() && InRange(Apply(params, c))
      modifies this
      ensures Valid()
      ensures params == Apply(old(params), c)
      ensures pathData == old(pathData) && path == old(path)
      ensures r.Failure? <==> (c.SetPathUnits? || c.SetModelUnits?) && path.None?
      ensures r.Failure? ==> r.error == NoPath
    {
      params := Apply(params, c);
      if c.SetPathUnits? || c.SetModelUnits? {
        r := RebuildCoordinates();
        if r.Failure? {
          EmptyPathHasNoSpacingPoints(params);
          return;
        }
        RefreshSizeForSpacing();
      } else if params.mode == Spacing && (c.SetPointMode? || c.SetSpacing? || c.SetSpacingUnits? || c.SetPadStart? || c.SetPadEnd?) {
        RefreshSizeForSpacing();
      } else if params.mode == Density && (c.SetPointMode? || c.SetDensity? || c.SetDensityUnits? || c.SetPadStart? || c.SetPadEnd?) {
        RefreshSizeForSpacing();
      }
      return Success(());
    }

    /** size(). */
    function Count(): (r: int)
      requires Valid()
      reads this
      ensures params.mode == NumPoints ==> r == params.numPoints
      ensures params.mode in {Spacing, Density} ==> r == SizeForSpacing(params, CoordsLength(path, params, norm))
      ensures params.mode == Direct ==> r == |Coordinates(path, params, norm)|
      ensures r >= 0
    {
      Size(params, sizeForSpacingMode, |coordinates|)
    }

    /** _computePointsOnPath: nothing without coordinates, otherwise the walk. */
    method ComputePointsOnPath(count: nat, spacing: real) returns (points: seq<Position>)
      requires Valid() && spacing >= 0.0
      ensures coordinates == [] ==> points == []
      ensures coordinates != [] ==>
        && coordinates[0].n <= 0.0 && coordsLength >= 0.0
        && |points| == count
        && forall k :: 0 <= k < count ==>
          points[k] == Locate(coordinates, PointsOnPath(coordinates, coordsLength, params.padStart, spacing, count)[k])
    {
      if |coordinates| == 0 {
        return [];
      }
      ghost var raw := Flatten(path.value, params.pathUnits, params.modelUnits);
      MeasuredFirst(raw, norm);
      PathLengthNonNegative(raw, norm);
      points := PlaceAlong(coordinates, coordsLength, params.padStart, spacing, count);
    }

    /** computePointGeometry: the positions of the fixture's size() points. */
    method ComputePointGeometry() returns (points: seq<Position>)
      requires Valid()
      ensures params.mode == Direct ==> points == DirectPoints(coordinates)
      ensures params.mode != Direct && coordinates == [] ==> points == []
      ensures params.mode != Direct && coordinates != [] ==>
        && coordinates[0].n <= 0.0 && coordsLength >= 0.0
        && |points| == Count()
        && forall k :: 0 <= k < |points| ==>
          points[k] == Locate(coordinates, PointsOnPath(coordinates, coordsLength, params.padStart, WalkSpacing(params, coordsLength), |points|)[k])
    {
      var count := Count();
      if params.mode == Direct {
        points := CopyPositions(coordinates);
      } else {
        points := ComputePointsOnPath(count, WalkSpacing(params, coordsLength));
      }
    }
  }
}
