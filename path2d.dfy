/**
 * The geometric path the parsers build, in place of java.awt.geom.Path2D.Double:
 * a list of segments, as the source later reads them back through a PathIterator.
 *
 * Path2D's own rules for appending are kept, because they decide which
 * segments the flattener sees:
 *   - a moveTo right after a moveTo replaces it instead of adding a segment;
 *   - lineTo, quadTo, curveTo and closePath on a path with no segment at all
 *     throw IllegalPathStateException ("missing initial moveto");
 *   - closePath right after a closePath adds nothing.
 */
module Path2D {
  import opened Wrappers

  datatype Segment =
    | SegMoveTo(x: real, y: real)
    | SegLineTo(x: real, y: real)
    | SegQuadTo(x1: real, y1: real, x: real, y: real)
    | SegCubicTo(x1: real, y1: real, x2: real, y2: real, x: real, y: real)
    | SegClose

  type Path = seq<Segment>

  /** IllegalPathStateException: a drawing call on a path that has no moveTo yet. */
  datatype PathError = MissingInitialMoveTo

  /** What every path built through the operations below looks like. */
  predicate WellFormed(p: Path)
  {
    && (p != [] ==> p[0].SegMoveTo?)
    && (forall i :: 0 < i < |p| ==> !(p[i - 1].SegMoveTo? && p[i].SegMoveTo?))
    && (forall i :: 0 < i < |p| ==> !(p[i - 1].SegClose? && p[i].SegClose?))
  }

  function MoveTo(p: Path, x: real, y: real): (r: Path)
    ensures r != [] && r[|r| - 1] == SegMoveTo(x, y)
    ensures |r| == |p| + 1 || (|r| == |p| && p[|p| - 1].SegMoveTo?)
    ensures r[..|r| - 1] == p[..|r| - 1]
    ensures WellFormed(p) ==> WellFormed(r)
  {
    if p != [] && p[|p| - 1].SegMoveTo? then p[..|p| - 1] + [SegMoveTo(x, y)]
    else p + [SegMoveTo(x, y)]
  }

  /** Shared by lineTo, quadTo and curveTo: append one drawing segment. */
  function Draw(p: Path, s: Segment): (r: Result<Path, PathError>)
    requires s.SegLineTo? || s.SegQuadTo? || s.SegCubicTo?
    ensures r.Failure? <==> p == []
    ensures r.Success? ==> r.value == p + [s]
    ensures r.Success? && WellFormed(p) ==> WellFormed(r.value)
  {
    if p == [] then Failure(MissingInitialMoveTo) else Success(p + [s])
  }

  function LineTo(p: Path, x: real, y: real): Result<Path, PathError>
  {
    Draw(p, SegLineTo(x, y))
  }

  function QuadTo(p: Path, x1: real, y1: real, x: real, y: real): Result<Path, PathError>
  {
    Draw(p, SegQuadTo(x1, y1, x, y))
  }

  function CurveTo(p: Path, x1: real, y1: real, x2: real, y2: real, x: real, y: real): Result<Path, PathError>
  {
    Draw(p, SegCubicTo(x1, y1, x2, y2, x, y))
  }

  function ClosePath(p: Path): (r: Result<Path, PathError>)
    ensures r.Failure? <==> p == []
    ensures r.Success? ==> r.value != [] && r.value[|r.value| - 1] == SegClose
    ensures r.Success? ==> r.value == p || r.value == p + [SegClose]
    ensures r.Success? && WellFormed(p) ==> WellFormed(r.value)
  {
    if p == [] then Failure(MissingInitialMoveTo)
    else if p[|p| - 1].SegClose? then Success(p)
    else Success(p + [SegClose])
  }
}
