/**
 * addArcToPath of jkbstudio.svg.SvgUtils: an SVG elliptical arc turned into
 * cubic Bezier segments, by the endpoint-to-centre conversion of section F.6.5
 * of the SVG 1.1 implementation notes, with the out-of-range radii correction of
 * section F.6.6.
 *
 * java.lang.Math is not part of this model: sqrt, sin, cos, tan and atan2
 * come in a MathLib record, and so do the two floating-point computations
 * built on them: the centre conversion (`centre`) and the control points of
 * one cubic (`bezier`).  The drawing part of addArcToPath (degenerate cases,
 * sweep adjustment, segment count and the curveTo loop) is modelled on top of
 * the record.  Both computations are also written out, as CenterParameters and
 * BezierControls; SourceCentreIsValid shows that the conversion meets the
 * contract ValidMath asks of the record.
 */
module SvgArc {
  import opened Wrappers
  import opened Path2D

  /** The arguments of one addArcToPath call. */
  datatype ArcParams = ArcParams(x0: real, y0: real, rx: real, ry: real, angle: real,
                                 largeArcFlag: bool, sweepFlag: bool, x: real, y: real)

  /** An arc that is neither a repeated point nor drawn as a line. */
  predicate Proper(p: ArcParams)
  {
    !(p.x0 == p.x && p.y0 == p.y) && p.rx != 0.0 && p.ry != 0.0
  }

  /**
   * The centre parameterisation of one arc: corrected radii, centre, and the start
   * angle and raw sweep in degrees, before the sweep is adjusted to the flag.
   */
  datatype ArcCenter = ArcCenter(rx: real, ry: real, cx: real, cy: real, startAngle: real, sweepAngle: real)

  /** The two control points and the endpoint of one curveTo. */
  datatype Controls = Controls(x1: real, y1: real, x2: real, y2: real, x: real, y: real)

  /** Math.PI, the double nearest to pi. */
  const PI: real := 3.141592653589793

  datatype MathLib = MathLib(
    sqrt: real -> real,
    sin: real -> real,
    cos: real -> real,
    tan: real -> real,
    atan2: (real, real) -> real,
    centre: ArcParams -> ArcCenter,
    bezier: (ArcCenter, real, real, real) -> Controls)

  /** What the drawing part needs of the centre conversion: a raw sweep strictly inside one turn. */
  ghost predicate ValidMath(m: MathLib)
  {
    forall p :: Proper(p) ==> -360.0 < m.centre(p).sweepAngle < 360.0
  }

  /** The facts about java.lang.Math that the written-out conversion rests on. */
  ghost predicate TrigFacts(m: MathLib)
  {
    && (forall x :: 0.0 <= x ==> 0.0 <= m.sqrt(x) && m.sqrt(x) * m.sqrt(x) == x)
    && (forall a :: m.sin(a) * m.sin(a) + m.cos(a) * m.cos(a) == 1.0)
    && (forall y, x :: -PI < m.atan2(y, x) <= PI)
  }

  function Abs(x: real): (r: real)
    ensures r >= 0.0 && (r == x || r == -x)
  {
    if x < 0.0 then -x else x
  }

  /** Truncation toward zero, as a (long) cast does. */
  function Trunc(r: real): int
  {
    if r >= 0.0 then r.Floor else -((-r).Floor)
  }

  /** Math.ceil. */
  function Ceil(r: real): (n: int)
    ensures n as real >= r && (n - 1) as real < r
  {
    -((-r).Floor)
  }

  /** The floating remainder `a % m` (sign of the dividend). */
  function FRem(a: real, m: real): real
    requires m != 0.0
  {
    a - m * (Trunc(a / m) as real)
  }

  /** Math.toRadians. */
  function ToRadians(deg: real): real
  {
    deg / 180.0 * PI
  }

  /** Math.toDegrees. */
  function ToDegrees(rad: real): real
  {
    rad * (180.0 / PI)
  }

  /**
   * The sweep as the source adjusts it: a negative sweep for sweepFlag = false,
   * a positive one for sweepFlag = true.
   */
  function AdjustSweep(raw: real, sweepFlag: bool): (r: real)
    requires -360.0 < raw < 360.0
    ensures sweepFlag ==> 0.0 <= r < 360.0
    ensures !sweepFlag ==> -360.0 < r <= 0.0
    ensures r == raw || r == raw - 360.0 || r == raw + 360.0
  {
    if !sweepFlag && raw > 0.0 then raw - 360.0
    else if sweepFlag && raw < 0.0 then raw + 360.0
    else raw
  }

  /** The number of cubics, Math.ceil(|sweep| / 90), by quarter turns (NumSegmentsIsCeil). */
  function NumSegments(sweepAngle: real): (n: int)
    requires -360.0 < sweepAngle < 360.0
    ensures 0 <= n <= 4
    ensures n == 0 <==> sweepAngle == 0.0
  {
    var a := Abs(sweepAngle);
    if a == 0.0 then 0
    else if a <= 90.0 then 1
    else if a <= 180.0 then 2
    else if a <= 270.0 then 3
    else 4
  }

  lemma NumSegmentsIsCeil(sweepAngle: real)
    requires -360.0 < sweepAngle < 360.0
    ensures NumSegments(sweepAngle) == Ceil(Abs(sweepAngle) / 90.0)
  {
    var n := NumSegments(sweepAngle);
    var c := Ceil(Abs(sweepAngle) / 90.0);
    assert (n - 1) as real * 90.0 < Abs(sweepAngle) <= n as real * 90.0;
    assert (c - 1) as real * 90.0 < Abs(sweepAngle) <= c as real * 90.0;
  }

  /** One cubic, from angle a1 to a2 (radians), each spanning deltaRad. */
  function ArcCubic(g: ArcCenter, a1: real, a2: real, deltaRad: real, m: MathLib): (s: Segment)
    ensures s.SegCubicTo?
  {
    var c := m.bezier(g, a1, a2, deltaRad);
    SegCubicTo(c.x1, c.y1, c.x2, c.y2, c.x, c.y)
  }

  /** count cubics, the first starting at angle a1 (radians), each spanning deltaRad. */
  function CubicsFrom(g: ArcCenter, a1: real, deltaRad: real, count: nat, m: MathLib): (segs: seq<Segment>)
    ensures |segs| == count
    ensures forall k :: 0 <= k < count ==> segs[k].SegCubicTo?
    decreases count
  {
    if count == 0 then []
    else [ArcCubic(g, a1, a1 + deltaRad, deltaRad, m)] + CubicsFrom(g, a1 + deltaRad, deltaRad, count - 1, m)
  }

  /** The cubics for a centre parameterisation and an adjusted sweep: NumSegments of them, each spanning sweep / n. */
  function Cubics(g: ArcCenter, sweep: real, m: MathLib): seq<Segment>
    requires -360.0 < sweep < 360.0
  {
    var n := NumSegments(sweep);
    if n == 0 then []
    else CubicsFrom(g, ToRadians(g.startAngle), ToRadians(sweep / n as real), n, m)
  }

  /** The segments addArcToPath draws, in order. */
  function ArcSegments(x0: real, y0: real, rx: real, ry: real, angle: real,
                       largeArcFlag: bool, sweepFlag: bool, x: real, y: real, m: MathLib): (segs: seq<Segment>)
    requires ValidMath(m)
    ensures |segs| <= 4
    ensures forall j :: 0 <= j < |segs| ==> segs[j].SegLineTo? || segs[j].SegCubicTo?
  {
    if x0 == x && y0 == y then []
    else if rx == 0.0 || ry == 0.0 then [SegLineTo(x, y)]
    else
      var g := m.centre(ArcParams(x0, y0, rx, ry, angle, largeArcFlag, sweepFlag, x, y));
      Cubics(g, AdjustSweep(g.sweepAngle, sweepFlag), m)
  }

  /** Appending the arc to a path: the first drawing call throws when the path is still empty. */
  function AddArc(path: Path, x0: real, y0: real, rx: real, ry: real, angle: real,
                  largeArcFlag: bool, sweepFlag: bool, x: real, y: real, m: MathLib): (r: Result<Path, PathError>)
    requires ValidMath(m)
    ensures path != [] ==> r == Success(path + ArcSegments(x0, y0, rx, ry, angle, largeArcFlag, sweepFlag, x, y, m))
    ensures r.Failure? <==> path == [] && ArcSegments(x0, y0, rx, ry, angle, largeArcFlag, sweepFlag, x, y, m) != []
  {
    var segs := ArcSegments(x0, y0, rx, ry, angle, largeArcFlag, sweepFlag, x, y, m);
    if segs == [] then
      assert path + segs == path;
      Success(path)
    else if path == [] then Failure(MissingInitialMoveTo)
    else Success(path + segs)
  }

  /** The drawing loop of addArcToPath: one curveTo per cubic, each starting where the last ended. */
  method DrawCubics(path: Path, g: ArcCenter, start: real, deltaRad: real, count: nat, m: MathLib)
    returns (r: Result<Path, PathError>)
    ensures r == (if count == 0 then Success(path)
                  else if path == [] then Failure(MissingInitialMoveTo)
                  else Success(path + CubicsFrom(g, start, deltaRad, count, m)))
  {
    var angle1 := start;
    ghost var done: seq<Segment> := [];
    var p := path;
    assert path + done == path;
    for i := 0 to count
      invariant p == path + done
      invariant i > 0 ==> path != []
      invariant CubicsFrom(g, start, deltaRad, count, m) == done + CubicsFrom(g, angle1, deltaRad, count - i, m)
    {
      var angle2 := angle1 + deltaRad;
      var cubic := ArcCubic(g, angle1, angle2, deltaRad, m);
      ghost var rest := CubicsFrom(g, angle2, deltaRad, count - i - 1, m);
      assert CubicsFrom(g, angle1, deltaRad, count - i, m) == [cubic] + rest;
      var drawn := Draw(p, cubic);
      if drawn.Failure? {
        return Failure(drawn.error);
      }
      assert done + [cubic] + rest == done + ([cubic] + rest);
      done := done + [cubic];
      p := drawn.value;
      angle1 := angle2;
    }
    assert done + CubicsFrom(g, angle1, deltaRad, 0, m) == done;
    return Success(p);
  }

  /** SvgUtils.addArcToPath. */
  method AddArcToPath(path: Path, x0: real, y0: real, rx: real, ry: real, angle: real,
                      largeArcFlag: bool, sweepFlag: bool, x: real, y: real, m: MathLib)
    returns (r: Result<Path, PathError>)
    requires ValidMath(m)
    ensures r == AddArc(path, x0, y0, rx, ry, angle, largeArcFlag, sweepFlag, x, y, m)
  {
    if x0 == x && y0 == y {
      return Success(path);
    }
    if rx == 0.0 || ry == 0.0 {
      return LineTo(path, x, y);
    }
    var g := m.centre(ArcParams(x0, y0, rx, ry, angle, largeArcFlag, sweepFlag, x, y));
    var sweepAngle := AdjustSweep(g.sweepAngle, sweepFlag);
    var numSegments := Ceil(Abs(sweepAngle) / 90.0);
    NumSegmentsIsCeil(sweepAngle);
    if numSegments == 0 {
      return Success(path);
    }
    var deltaAngle := sweepAngle / numSegments as real;
    r := DrawCubics(path, g, ToRadians(g.startAngle), ToRadians(deltaAngle), numSegments, m);
  }

  /** Each cubic spans at most 90 degrees: NumSegments is ceil(|sweep| / 90). */
  lemma SegmentSpan(sweepAngle: real)
    requires -360.0 < sweepAngle < 360.0 && sweepAngle != 0.0
    ensures Abs(sweepAngle / NumSegments(sweepAngle) as real) <= 90.0
  {
    var n := NumSegments(sweepAngle) as real;
    assert n >= Abs(sweepAngle) / 90.0;
    assert 90.0 * n >= Abs(sweepAngle);
    if sweepAngle > 0.0 {
      assert sweepAngle / n <= 90.0 * n / n;
    } else {
      assert -sweepAngle / n <= 90.0 * n / n;
      assert Abs(sweepAngle / n) == -sweepAngle / n;
    }
  }

  /** The start angle after k steps of deltaRad, accumulated as the drawing loop does. */
  function AngleAfter(a1: real, deltaRad: real, k: nat): real
  {
    if k == 0 then a1 else AngleAfter(a1, deltaRad, k - 1) + deltaRad
  }

  lemma {:induction false} AngleAfterShift(a1: real, deltaRad: real, k: nat)
    ensures AngleAfter(a1 + deltaRad, deltaRad, k) == AngleAfter(a1, deltaRad, k + 1)
  {
    if k > 0 {
      AngleAfterShift(a1, deltaRad, k - 1);
    }
  }

  lemma {:induction false} AngleAfterIsLinear(a1: real, deltaRad: real, k: nat)
    ensures AngleAfter(a1, deltaRad, k) == a1 + k as real * deltaRad
  {
    if k > 0 {
      AngleAfterIsLinear(a1, deltaRad, k - 1);
      var j := (k - 1) as real;
      assert k as real == j + 1.0;
      assert (j + 1.0) * deltaRad == j * deltaRad + deltaRad;
    }
  }

  /** The k-th cubic runs from the k-th to the (k+1)-th accumulated angle. */
  lemma {:induction false} CubicsFromAt(g: ArcCenter, a1: real, deltaRad: real, count: nat, m: MathLib, k: nat)
    requires k < count
    ensures CubicsFrom(g, a1, deltaRad, count, m)[k]
            == ArcCubic(g, AngleAfter(a1, deltaRad, k), AngleAfter(a1, deltaRad, k + 1), deltaRad, m)
    decreases k
  {
    if k > 0 {
      CubicsFromAt(g, a1 + deltaRad, deltaRad, count - 1, m, k - 1);
      AngleAfterShift(a1, deltaRad, k - 1);
      AngleAfterShift(a1, deltaRad, k);
      assert CubicsFrom(g, a1, deltaRad, count, m)[k] == CubicsFrom(g, a1 + deltaRad, deltaRad, count - 1, m)[k - 1];
    }
  }

  lemma SweepSplits(sweepAngle: real, n: int)
    requires n > 0
    ensures n as real * ToRadians(sweepAngle / n as real) == ToRadians(sweepAngle)
  {
    var k := n as real;
    assert k * (sweepAngle / k) == sweepAngle;
  }

  /** The first of count cubics starts at a1, the last ends count steps further. */
  lemma CubicsFromEnds(g: ArcCenter, a1: real, deltaRad: real, count: nat, m: MathLib)
    requires count > 0
    ensures CubicsFrom(g, a1, deltaRad, count, m)[0] == ArcCubic(g, a1, a1 + deltaRad, deltaRad, m)
    ensures CubicsFrom(g, a1, deltaRad, count, m)[count - 1]
            == ArcCubic(g, AngleAfter(a1, deltaRad, count - 1), a1 + count as real * deltaRad, deltaRad, m)
  {
    CubicsFromAt(g, a1, deltaRad, count, m, count - 1);
    AngleAfterIsLinear(a1, deltaRad, count);
  }

  /**
   * The cubics of one arc cover its sweep: the first starts at the start angle, the
   * last ends at start + sweep (in radians).
   */
  lemma CubicsCoverSweep(g: ArcCenter, sweep: real, m: MathLib)
    requires -360.0 < sweep < 360.0 && sweep != 0.0
    ensures |Cubics(g, sweep, m)| == NumSegments(sweep)
    ensures var n := NumSegments(sweep);
            var deltaRad := ToRadians(sweep / n as real);
            var a0 := ToRadians(g.startAngle);
            && Cubics(g, sweep, m)[0] == ArcCubic(g, a0, a0 + deltaRad, deltaRad, m)
            && Cubics(g, sweep, m)[n - 1] == ArcCubic(g, AngleAfter(a0, deltaRad, n - 1), a0 + ToRadians(sweep), deltaRad, m)
  {
    var n := NumSegments(sweep);
    var a0 := ToRadians(g.startAngle);
    var deltaRad := ToRadians(sweep / n as real);
    assert Cubics(g, sweep, m) == CubicsFrom(g, a0, deltaRad, n, m);
    CubicsFromEnds(g, a0, deltaRad, n, m);
    SweepSplits(sweep, n);
    assert a0 + n as real * deltaRad == a0 + ToRadians(sweep);
  }

  /** Identical endpoints: addArcToPath returns before drawing anything. */
  lemma SamePointAddsNothing(path: Path, x0: real, y0: real, rx: real, ry: real, angle: real,
                             largeArcFlag: bool, sweepFlag: bool, m: MathLib)
    requires ValidMath(m)
    ensures AddArc(path, x0, y0, rx, ry, angle, largeArcFlag, sweepFlag, x0, y0, m) == Success(path)
  {
  }

  /** A zero radius: a single straight line to the endpoint, which fails on an empty path. */
  lemma ZeroRadiusDrawsLine(path: Path, x0: real, y0: real, rx: real, ry: real, angle: real,
                            largeArcFlag: bool, sweepFlag: bool, x: real, y: real, m: MathLib)
    requires ValidMath(m)
    requires !(x0 == x && y0 == y) && (rx == 0.0 || ry == 0.0)
    ensures AddArc(path, x0, y0, rx, ry, angle, largeArcFlag, sweepFlag, x, y, m) == LineTo(path, x, y)
  {
  }

  /**
   * A proper arc: the cubics of the centre parameters and the flag-adjusted sweep,
   * none at all when that sweep is zero.
   */
  lemma ProperArcDrawsCubics(x0: real, y0: real, rx: real, ry: real, angle: real,
                             largeArcFlag: bool, sweepFlag: bool, x: real, y: real, m: MathLib)
    requires ValidMath(m)
    requires !(x0 == x && y0 == y) && rx != 0.0 && ry != 0.0
    ensures var g := m.centre(ArcParams(x0, y0, rx, ry, angle, largeArcFlag, sweepFlag, x, y));
            var sweep := AdjustSweep(g.sweepAngle, sweepFlag);
            var segs := ArcSegments(x0, y0, rx, ry, angle, largeArcFlag, sweepFlag, x, y, m);
            && segs == Cubics(g, sweep, m)
            && (sweep == 0.0 <==> segs == [])
            && (forall k :: 0 <= k < |segs| ==> segs[k].SegCubicTo?)
  {
  }

  /** The point at angle a (radians) on the ellipse of the centre parameters. */
  function EllipsePoint(g: ArcCenter, a: real, m: MathLib): (real, real)
  {
    (g.cx + g.rx * m.cos(a), g.cy + g.ry * m.sin(a))
  }

  /** Where a drawing segment ends. */
  function EndPoint(s: Segment): (real, real)
    requires !s.SegClose?
  {
    (s.x, s.y)
  }

  /** With the written-out control points, a cubic ends on the ellipse at its second angle. */
  lemma CubicEndsOnEllipse(g: ArcCenter, a1: real, a2: real, deltaRad: real, m: MathLib)
    requires SourceBezier(m)
    ensures EndPoint(ArcCubic(g, a1, a2, deltaRad, m)) == EllipsePoint(g, a2, m)
  {
    assert m.bezier(g, a1, a2, deltaRad) == BezierControls(g, a1, a2, deltaRad, m);
  }

  /** With the written-out control points, the last cubic ends on the ellipse at start + sweep. */
  lemma CubicsEndOnEllipse(g: ArcCenter, sweep: real, m: MathLib)
    requires SourceBezier(m)
    requires -360.0 < sweep < 360.0 && sweep != 0.0
    ensures var segs := Cubics(g, sweep, m);
            segs != [] && EndPoint(segs[|segs| - 1]) == EllipsePoint(g, ToRadians(g.startAngle) + ToRadians(sweep), m)
  {
    var n := NumSegments(sweep);
    var a0 := ToRadians(g.startAngle);
    var deltaRad := ToRadians(sweep / n as real);
    var segs := Cubics(g, sweep, m);
    var a2 := a0 + ToRadians(sweep);
    CubicsCoverSweep(g, sweep, m);
    assert segs[|segs| - 1] == ArcCubic(g, AngleAfter(a0, deltaRad, n - 1), a2, deltaRad, m);
    CubicEndsOnEllipse(g, AngleAfter(a0, deltaRad, n - 1), a2, deltaRad, m);
  }

  /**
   * With the written-out control points, the last cubic of a proper arc ends on
   * the ellipse of the centre parameters at start + sweep.
   */
  lemma ArcEndsOnEllipse(x0: real, y0: real, rx: real, ry: real, angle: real,
                         largeArcFlag: bool, sweepFlag: bool, x: real, y: real, m: MathLib)
    requires SourceBezier(m) && ValidMath(m)
    requires !(x0 == x && y0 == y) && rx != 0.0 && ry != 0.0
    ensures var g := m.centre(ArcParams(x0, y0, rx, ry, angle, largeArcFlag, sweepFlag, x, y));
            var a := ToRadians(g.startAngle) + ToRadians(AdjustSweep(g.sweepAngle, sweepFlag));
            var segs := ArcSegments(x0, y0, rx, ry, angle, largeArcFlag, sweepFlag, x, y, m);
            segs != [] ==> EndPoint(segs[|segs| - 1]) == EllipsePoint(g, a, m)
  {
    var g := m.centre(ArcParams(x0, y0, rx, ry, angle, largeArcFlag, sweepFlag, x, y));
    var sweep := AdjustSweep(g.sweepAngle, sweepFlag);
    ProperArcDrawsCubics(x0, y0, rx, ry, angle, largeArcFlag, sweepFlag, x, y, m);
    if sweep != 0.0 {
      CubicsEndOnEllipse(g, sweep, m);
    }
  }

  // The centre conversion of F.6.5 and F.6.6, written out.

  /** Rotating by the angle whose cosine and sine are c and s can be undone. */
  lemma RotationInverse(c: real, s: real, dx: real, dy: real)
    requires c * c + s * s == 1.0
    ensures dx == c * (c * dx + s * dy) - s * (-s * dx + c * dy)
    ensures dy == s * (c * dx + s * dy) + c * (-s * dx + c * dy)
  {
    calc {
      c * (c * dx + s * dy) - s * (-s * dx + c * dy);
      (c * c + s * s) * dx;
      dx;
    }
    calc {
      s * (c * dx + s * dy) + c * (-s * dx + c * dy);
      (c * c + s * s) * dy;
      dy;
    }
  }

  /** x * x, the products Px1, Py1, Prx and Pry of the source. */
  function Square(x: real): real
  {
    x * x
  }

  lemma SquarePositive(x: real)
    requires x != 0.0
    ensures Square(x) > 0.0
  {
    calc {
      Square(x);
      x * x;
    >
      0.0;
    }
  }

  lemma SquareNonNegative(x: real)
    ensures Square(x) >= 0.0
  {
    if x != 0.0 {
      SquarePositive(x);
    }
  }

  lemma PositiveProduct(a: real, b: real)
    requires a > 0.0 && b > 0.0
    ensures a * b > 0.0
  {
  }

  /** The denominator of the F.6.5 step 2 radicand. */
  function Denominator(rx1: real, ry1: real, x1: real, y1: real): real
  {
    Square(rx1) * Square(y1) + Square(ry1) * Square(x1)
  }

  lemma RadicandDenominator(rx1: real, ry1: real, x1: real, y1: real)
    requires rx1 > 0.0 && ry1 > 0.0 && (x1 != 0.0 || y1 != 0.0)
    ensures Denominator(rx1, ry1, x1, y1) > 0.0
  {
    SquarePositive(rx1);
    SquarePositive(ry1);
    SquareNonNegative(x1);
    SquareNonNegative(y1);
    if y1 != 0.0 {
      SquarePositive(y1);
    } else {
      SquarePositive(x1);
    }
  }

  lemma DegreesOfAngle(a: real)
    requires -PI < a <= PI
    ensures -180.0 < ToDegrees(a) <= 180.0
  {
  }

  /** F.6.5 step 1: the half-distance between the endpoints, rotated by -angle. */
  function Rotated(x0: real, y0: real, x: real, y: real, angle: real, m: MathLib): (p: (real, real))
    requires TrigFacts(m)
    ensures !(x0 == x && y0 == y) ==> p.0 != 0.0 || p.1 != 0.0
  {
    var angleRad := ToRadians(FRem(angle, 360.0));
    var dx2 := (x0 - x) / 2.0;
    var dy2 := (y0 - y) / 2.0;
    var c := m.cos(angleRad);
    var s := m.sin(angleRad);
    RotationInverse(c, s, dx2, dy2);
    (c * dx2 + s * dy2, -s * dx2 + c * dy2)
  }

  /** F.6.6: the radii grow by sqrt(radiiCheck) when the ellipse is too small to reach the endpoint. */
  function RadiiScale(radiiCheck: real, m: MathLib): (scale: real)
    requires TrigFacts(m)
    ensures scale >= 1.0
    ensures radiiCheck <= 1.0 ==> scale == 1.0
    ensures radiiCheck > 1.0 ==> scale * scale == radiiCheck
  {
    if radiiCheck > 1.0 then
      SqrtAboveOne(m.sqrt(radiiCheck), radiiCheck);
      m.sqrt(radiiCheck)
    else 1.0
  }

  lemma SqrtAboveOne(r: real, v: real)
    requires r >= 0.0 && r * r == v && v > 1.0
    ensures r >= 1.0
  {
    var q := r - 1.0;
    var inv := 1.0 / (r + 1.0);
    assert inv * (r + 1.0) == 1.0;
    assert q * (r + 1.0) == v - 1.0;
    assert inv > 0.0;
    PositiveProduct(v - 1.0, inv);
    assert q == (v - 1.0) * inv;
  }

  lemma ScaledRadius(scale: real, r: real)
    requires scale >= 1.0 && r != 0.0
    ensures scale * Abs(r) >= Abs(r) > 0.0
  {
    assert (scale - 1.0) * Abs(r) >= 0.0;
  }

  /** F.6.6 steps 1-3: absolute radii, scaled up when the ellipse cannot reach the endpoint. */
  function CorrectedRadii(rx: real, ry: real, x1: real, y1: real, m: MathLib): (r: (real, real))
    requires TrigFacts(m)
    requires rx != 0.0 && ry != 0.0
    ensures r.0 >= Abs(rx) > 0.0 && r.1 >= Abs(ry) > 0.0
  {
    var rx0 := Abs(rx);
    var ry0 := Abs(ry);
    SquarePositive(rx0); SquarePositive(ry0);
    var radiiCheck := Square(x1) / Square(rx0) + Square(y1) / Square(ry0);
    var scale := RadiiScale(radiiCheck, m);
    ScaledRadius(scale, rx); ScaledRadius(scale, ry);
    (scale * rx0, scale * ry0)
  }

  /** F.6.5 step 2: the radicand of the centre coefficient, clamped at zero. */
  function Radicand(rx1: real, ry1: real, x1: real, y1: real): (sq: real)
    requires rx1 > 0.0 && ry1 > 0.0 && (x1 != 0.0 || y1 != 0.0)
    ensures sq >= 0.0
  {
    RadicandDenominator(rx1, ry1, x1, y1);
    var sq0 := (Square(rx1) * Square(ry1) - Square(rx1) * Square(y1) - Square(ry1) * Square(x1))
               / Denominator(rx1, ry1, x1, y1);
    if sq0 < 0.0 then 0.0 else sq0
  }

  /** F.6.5 step 4: the start angle and the raw sweep, in degrees; atan2's range keeps the sweep inside one turn. */
  function Angles(ux: real, uy: real, vx: real, vy: real, m: MathLib): (a: (real, real))
    requires TrigFacts(m)
    ensures -180.0 < a.0 <= 180.0
    ensures -360.0 < a.1 < 360.0
  {
    DegreesOfAngle(m.atan2(uy, ux));
    DegreesOfAngle(m.atan2(vy, vx));
    var startAngle := ToDegrees(m.atan2(uy, ux));
    (startAngle, ToDegrees(m.atan2(vy, vx)) - startAngle)
  }

  /** Steps F.6.5 1-4 and F.6.6, for an arc that is not one of the degenerate cases. */
  function CenterParameters(p: ArcParams, m: MathLib): (g: ArcCenter)
    requires TrigFacts(m) && Proper(p)
    ensures g.rx >= Abs(p.rx) > 0.0 && g.ry >= Abs(p.ry) > 0.0
    ensures -180.0 < g.startAngle <= 180.0
    ensures -360.0 < g.sweepAngle < 360.0
  {
    var angleRad := ToRadians(FRem(p.angle, 360.0));
    var c := m.cos(angleRad);
    var s := m.sin(angleRad);
    var p1 := Rotated(p.x0, p.y0, p.x, p.y, p.angle, m);
    var x1 := p1.0;
    var y1 := p1.1;
    var radii := CorrectedRadii(p.rx, p.ry, x1, y1, m);
    var rx1 := radii.0;
    var ry1 := radii.1;
    var sq := Radicand(rx1, ry1, x1, y1);
    var sign := if p.largeArcFlag == p.sweepFlag then -1.0 else 1.0;
    var coef := sign * m.sqrt(sq);
    var cx1 := coef * ((rx1 * y1) / ry1);
    var cy1 := coef * -((ry1 * x1) / rx1);
    var cx := c * cx1 - s * cy1 + (p.x0 + p.x) / 2.0;
    var cy := s * cx1 + c * cy1 + (p.y0 + p.y) / 2.0;
    var angles := Angles((x1 - cx1) / rx1, (y1 - cy1) / ry1, (-x1 - cx1) / rx1, (-y1 - cy1) / ry1, m);
    ArcCenter(rx1, ry1, cx, cy, angles.0, angles.1)
  }

  /** The control points of one cubic, with the tangent-length factor alpha. */
  function BezierControls(g: ArcCenter, a1: real, a2: real, deltaRad: real, m: MathLib): (c: Controls)
  {
    var tq := m.tan(deltaRad / 4.0);
    var alpha := m.sin(deltaRad) * (m.sqrt(4.0 + 3.0 * tq * tq) - 1.0) / 3.0;
    var sinA1 := m.sin(a1);
    var cosA1 := m.cos(a1);
    var sinA2 := m.sin(a2);
    var cosA2 := m.cos(a2);
    var end := EllipsePoint(g, a2, m);
    Controls(
      g.cx + cosA1 * g.rx - alpha * sinA1 * g.rx,
      g.cy + sinA1 * g.ry + alpha * cosA1 * g.ry,
      g.cx + cosA2 * g.rx + alpha * sinA2 * g.rx,
      g.cy + sinA2 * g.ry - alpha * cosA2 * g.ry,
      end.0,
      end.1)
  }

  /** The record's centre is the conversion written out above. */
  ghost predicate SourceCentre(m: MathLib)
  {
    TrigFacts(m) && forall p :: Proper(p) ==> m.centre(p) == CenterParameters(p, m)
  }

  /** The record's control points are the ones written out above. */
  ghost predicate SourceBezier(m: MathLib)
  {
    forall g, a1, a2, deltaRad :: m.bezier(g, a1, a2, deltaRad) == BezierControls(g, a1, a2, deltaRad, m)
  }

  /** The written-out conversion meets the contract the drawing part assumes of `centre`. */
  lemma SourceCentreIsValid(m: MathLib)
    requires SourceCentre(m)
    ensures ValidMath(m)
  {
    forall p | Proper(p)
      ensures -360.0 < m.centre(p).sweepAngle < 360.0
    {
      var g := CenterParameters(p, m);
    }
  }
}
