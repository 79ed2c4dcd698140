/**
 * parseSVGPath of jkbstudio.svg.SvgUtils: the older path-data reader.  Beside
 * M, L, H, V and Z it draws C, S, Q, T and A.  The smooth commands reflect a
 * control point kept in two STATIC fields, lastControlPoint (S) and
 * lastQuadControlPoint (T).  They start out null and are never reset by a parse.
 * Each is assigned only by its own smooth command, and only after that command
 * has read it, so a null field makes the command throw before anything is
 * stored: both fields stay null for the life of the program (ParsePathKeepsNull),
 * and every complete S or T group throws (SmoothGroupThrows).  They are the
 * fields of the SvgUtils class below.
 *
 * As in the newer reader, an exception ends the parse: a missing operand, a
 * drawing call before the first moveTo, and here also a smooth command while its
 * control point is still null (a NullPointerException).
 */
module LegacySvgUtils {
  import opened Wrappers
  import opened Path2D
  import opened PathLexer
  import SvgArc

  datatype ControlPoint = ControlPoint(x: real, y: real)

  datatype ParserState = ParserState(
    currentX: real, currentY: real, path: Path, warnings: seq<Warning>,
    lastControl: Option<ControlPoint>, lastQuad: Option<ControlPoint>)

  /** An exception, with the state reached when it was thrown (the static fields survive it). */
  datatype Stop = Stop(error: ParseError, at: ParserState)

  /** What a call leaves behind: its result, the warnings it logged and the two static fields. */
  datatype Outcome = Outcome(
    result: Result<Path, ParseError>, warnings: seq<Warning>,
    lastControl: Option<ControlPoint>, lastQuad: Option<ControlPoint>)

  function Base(isRelative: bool, current: real): real
  {
    if isRelative then current else 0.0
  }

  /** Reflection of a control point through the current point. */
  function Reflect(current: real, control: real): real
  {
    current + (current - control)
  }

  /** The letters whose operands come in repeated groups, and the group sizes. */
  predicate IsGroupCommand(c: char)
  {
    c in {'L', 'C', 'S', 'Q', 'T', 'A'}
  }

  function Arity(c: char): (k: nat)
    requires IsGroupCommand(c)
    ensures 2 <= k <= 7
  {
    match c
    case 'L' => 2
    case 'C' => 6
    case 'S' => 4
    case 'Q' => 4
    case 'T' => 2
    case 'A' => 7
  }

  /** The state after drawing s and moving the current point to (x, y), or the throw of Path2D. */
  function DrawTo(st: ParserState, drawn: Result<Path, PathError>, x: real, y: real): Result<ParserState, Stop>
  {
    match drawn
    case Failure(e) => Failure(Stop(PathState(e), st))
    case Success(path) => Success(st.(currentX := x, currentY := y, path := path))
  }

  /** S: the first control point reflects lastControlPoint, which then becomes (x2, y2). */
  function SmoothCubicStep(g: seq<real>, rel: bool, st: ParserState): Result<ParserState, Stop>
    requires |g| == 4
  {
    var baseX := Base(rel, st.currentX);
    var baseY := Base(rel, st.currentY);
    if st.lastControl.None? then Failure(Stop(NoControlPoint('S'), st))
    else
      var cp := st.lastControl.value;
      var drawn := CurveTo(st.path, Reflect(st.currentX, cp.x), Reflect(st.currentY, cp.y),
                           baseX + g[0], baseY + g[1], baseX + g[2], baseY + g[3]);
      if drawn.Failure? then Failure(Stop(PathState(drawn.error), st))
      else Success(st.(currentX := baseX + g[2], currentY := baseY + g[3], path := drawn.value,
                       lastControl := Some(ControlPoint(baseX + g[0], baseY + g[1]))))
  }

  /** T: the control point reflects lastQuadControlPoint, and the reflected point is stored back. */
  function SmoothQuadStep(g: seq<real>, rel: bool, st: ParserState): Result<ParserState, Stop>
    requires |g| == 2
  {
    if st.lastQuad.None? then Failure(Stop(NoControlPoint('T'), st))
    else
      var cp := st.lastQuad.value;
      var x1 := Reflect(st.currentX, cp.x);
      var y1 := Reflect(st.currentY, cp.y);
      var x := if rel then st.currentX + g[0] else g[0];
      var y := if rel then st.currentY + g[1] else g[1];
      var drawn := QuadTo(st.path, x1, y1, x, y);
      if drawn.Failure? then Failure(Stop(PathState(drawn.error), st))
      else Success(st.(currentX := x, currentY := y, path := drawn.value, lastQuad := Some(ControlPoint(x1, y1))))
  }

  /** A: absolute radii, non-zero flags are true, and the current point moves to the endpoint. */
  function ArcStep(g: seq<real>, rel: bool, st: ParserState, t: SvgArc.MathLib): Result<ParserState, Stop>
    requires |g| == 7 && SvgArc.ValidMath(t)
  {
    var x := if rel then st.currentX + g[5] else g[5];
    var y := if rel then st.currentY + g[6] else g[6];
    DrawTo(st, SvgArc.AddArc(st.path, st.currentX, st.currentY, SvgArc.Abs(g[0]), SvgArc.Abs(g[1]), g[2],
                             g[3] != 0.0, g[4] != 0.0, x, y, t), x, y)
  }

  /** One pass of a group loop, on the group's operands g. */
  function GroupStep(c: char, g: seq<real>, rel: bool, st: ParserState, t: SvgArc.MathLib): Result<ParserState, Stop>
    requires IsGroupCommand(c) && |g| == Arity(c) && SvgArc.ValidMath(t)
  {
    var baseX := Base(rel, st.currentX);
    var baseY := Base(rel, st.currentY);
    match c
    case 'L' =>
      DrawTo(st, LineTo(st.path, baseX + g[0], baseY + g[1]), baseX + g[0], baseY + g[1])
    case 'C' =>
      DrawTo(st, CurveTo(st.path, baseX + g[0], baseY + g[1], baseX + g[2], baseY + g[3], baseX + g[4], baseY + g[5]),
             baseX + g[4], baseY + g[5])
    case 'S' => SmoothCubicStep(g, rel, st)
    case 'Q' =>
      DrawTo(st, QuadTo(st.path, baseX + g[0], baseY + g[1], baseX + g[2], baseY + g[3]), baseX + g[2], baseY + g[3])
    case 'T' => SmoothQuadStep(g, rel, st)
    case 'A' => ArcStep(g, rel, st, t)
  }

  /** A group loop: one GroupStep per complete group of Arity(c) operands; a short tail is ignored. */
  function Groups(c: char, ps: seq<real>, rel: bool, st: ParserState, t: SvgArc.MathLib): Result<ParserState, Stop>
    requires IsGroupCommand(c) && SvgArc.ValidMath(t)
    decreases |ps|
  {
    if |ps| < Arity(c) then Success(st)
    else match GroupStep(c, ps[..Arity(c)], rel, st, t)
      case Failure(e) => Failure(e)
      case Success(next) => Groups(c, ps[Arity(c)..], rel, next, t)
  }

  /** The switch on the upper-cased command letter, for the letters that take no operand groups. */
  function Single(c: char, rel: bool, params: seq<real>, st: ParserState): Result<ParserState, Stop>
  {
    if c == 'M' then
      if |params| < 2 then Failure(Stop(MissingOperand(c), st))
      else
        var x := Base(rel, st.currentX) + params[0];
        var y := Base(rel, st.currentY) + params[1];
        Success(st.(currentX := x, currentY := y, path := MoveTo(st.path, x, y)))
    else if c == 'H' then
      if |params| < 1 then Failure(Stop(MissingOperand(c), st))
      else
        var x := Base(rel, st.currentX) + params[0];
        DrawTo(st, LineTo(st.path, x, st.currentY), x, st.currentY)
    else if c == 'V' then
      // the source reads the second operand here
      if |params| < 2 then Failure(Stop(MissingOperand(c), st))
      else
        var y := Base(rel, st.currentY) + params[1];
        DrawTo(st, LineTo(st.path, st.currentX, y), st.currentX, y)
    else if c == 'Z' then
      match ClosePath(st.path)
      case Failure(e) => Failure(Stop(PathState(e), st))
      case Success(path) => Success(st.(path := path))
    else
      Success(st.(warnings := st.warnings + [UnknownCommand(c)]))
  }

  /** The switch on the upper-cased command letter, given the converted operands. */
  function Act(c: char, rel: bool, params: seq<real>, st: ParserState, t: SvgArc.MathLib): Result<ParserState, Stop>
    requires SvgArc.ValidMath(t)
  {
    if IsGroupCommand(c) then Groups(c, params, rel, st, t) else Single(c, rel, params, st)
  }

  /** One pass of the command loop, for a non-empty command piece. */
  function ApplyCommand(cmd: string, st: ParserState, parse: string -> Option<real>, t: SvgArc.MathLib): Result<ParserState, Stop>
    requires cmd != "" && SvgArc.ValidMath(t)
  {
    var converted := Operands(OperandTokens(cmd), parse);
    Act(ToUpper(cmd[0]), IsLower(cmd[0]), converted.0, st.(warnings := st.warnings + converted.1), t)
  }

  /** The command loop: empty pieces are skipped, the first throw ends the parse. */
  function ParseCommands(cmds: seq<string>, st: ParserState, parse: string -> Option<real>, t: SvgArc.MathLib): Result<ParserState, Stop>
    requires SvgArc.ValidMath(t)
    decreases |cmds|
  {
    if cmds == [] then Success(st)
    else if cmds[0] == "" then ParseCommands(cmds[1..], st, parse, t)
    else match ApplyCommand(cmds[0], st, parse, t)
      case Failure(e) => Failure(e)
      case Success(next) => ParseCommands(cmds[1..], next, parse, t)
  }

  /** A whole call, starting from the static fields' values lastControl and lastQuad. */
  function ParsePath(pathData: string, parse: string -> Option<real>, t: SvgArc.MathLib,
                     lastControl: Option<ControlPoint>, lastQuad: Option<ControlPoint>): Outcome
    requires SvgArc.ValidMath(t)
  {
    match ParseCommands(SplitCommands(pathData), ParserState(0.0, 0.0, [], [], lastControl, lastQuad), parse, t)
    case Failure(s) => Outcome(Failure(s.error), s.at.warnings, s.at.lastControl, s.at.lastQuad)
    case Success(st) => Outcome(Success(st.path), st.warnings, st.lastControl, st.lastQuad)
  }

  /** Both static control points are null. */
  predicate NoControls(st: ParserState)
  {
    st.lastControl.None? && st.lastQuad.None?
  }

  /** The state a step reaches, or the one its exception leaves behind, still has both control points null. */
  predicate KeepsNoControls(r: Result<ParserState, Stop>)
  {
    if r.Success? then NoControls(r.value) else NoControls(r.error.at)
  }

  /** A complete S or T group with its control point null throws before drawing or storing anything. */
  lemma SmoothGroupThrows(c: char, ps: seq<real>, rel: bool, st: ParserState, t: SvgArc.MathLib)
    requires c in {'S', 'T'} && SvgArc.ValidMath(t) && NoControls(st) && |ps| >= Arity(c)
    ensures Groups(c, ps, rel, st, t) == Failure(Stop(NoControlPoint(c), st))
  {
  }

  /** No group step stores a control point while both are null. */
  lemma GroupStepKeepsNull(c: char, g: seq<real>, rel: bool, st: ParserState, t: SvgArc.MathLib)
    requires IsGroupCommand(c) && |g| == Arity(c) && SvgArc.ValidMath(t) && NoControls(st)
    ensures KeepsNoControls(GroupStep(c, g, rel, st, t))
  {
  }

  lemma {:induction false} GroupsKeepNull(c: char, ps: seq<real>, rel: bool, st: ParserState, t: SvgArc.MathLib)
    requires IsGroupCommand(c) && SvgArc.ValidMath(t) && NoControls(st)
    ensures KeepsNoControls(Groups(c, ps, rel, st, t))
    decreases |ps|
  {
    if |ps| >= Arity(c) {
      GroupStepKeepsNull(c, ps[..Arity(c)], rel, st, t);
      var r := GroupStep(c, ps[..Arity(c)], rel, st, t);
      if r.Success? {
        GroupsKeepNull(c, ps[Arity(c)..], rel, r.value, t);
      }
    }
  }

  lemma ActKeepsNull(c: char, rel: bool, params: seq<real>, st: ParserState, t: SvgArc.MathLib)
    requires SvgArc.ValidMath(t) && NoControls(st)
    ensures KeepsNoControls(Act(c, rel, params, st, t))
  {
    if IsGroupCommand(c) {
      GroupsKeepNull(c, params, rel, st, t);
    }
  }

  lemma ApplyCommandKeepsNull(cmd: string, st: ParserState, parse: string -> Option<real>, t: SvgArc.MathLib)
    requires cmd != "" && SvgArc.ValidMath(t) && NoControls(st)
    ensures KeepsNoControls(ApplyCommand(cmd, st, parse, t))
  {
    var converted := Operands(OperandTokens(cmd), parse);
    ActKeepsNull(ToUpper(cmd[0]), IsLower(cmd[0]), converted.0, st.(warnings := st.warnings + converted.1), t);
  }

  lemma {:induction false} ParseCommandsKeepNull(cmds: seq<string>, st: ParserState, parse: string -> Option<real>, t: SvgArc.MathLib)
    requires SvgArc.ValidMath(t) && NoControls(st)
    ensures KeepsNoControls(ParseCommands(cmds, st, parse, t))
    decreases |cmds|
  {
    if cmds != [] {
      if cmds[0] == "" {
        ParseCommandsKeepNull(cmds[1..], st, parse, t);
      } else {
        ApplyCommandKeepsNull(cmds[0], st, parse, t);
        var r := ApplyCommand(cmds[0], st, parse, t);
        if r.Success? {
          ParseCommandsKeepNull(cmds[1..], r.value, parse, t);
        }
      }
    }
  }

  /**
   * A call that starts with both static fields null leaves them null, whether it
   * returns a path or throws: no S or T ever finds a control point.
   */
  lemma ParsePathKeepsNull(pathData: string, parse: string -> Option<real>, t: SvgArc.MathLib)
    requires SvgArc.ValidMath(t)
    ensures ParsePath(pathData, parse, t, None, None).lastControl == None
    ensures ParsePath(pathData, parse, t, None, None).lastQuad == None
  {
    ParseCommandsKeepNull(SplitCommands(pathData), ParserState(0.0, 0.0, [], [], None, None), parse, t);
  }

  /** The class with the two static fields; parseSVGPath reads and writes them. */
  class SvgUtils {
    var lastControlPoint: Option<ControlPoint>
    var lastQuadControlPoint: Option<ControlPoint>

    /** Both static fields start out null. */
    constructor ()
      ensures lastControlPoint == None && lastQuadControlPoint == None
    {
      lastControlPoint := None;
      lastQuadControlPoint := None;
    }

    /** SvgUtils.parseSVGPath: the path (or the exception), the logged warnings, and the fields it leaves. */
    method ParseSvgPath(pathData: string, parse: string -> Option<real>, t: SvgArc.MathLib)
      returns (r: Result<Path, ParseError>, warnings: seq<Warning>)
      requires SvgArc.ValidMath(t)
      modifies this
      ensures Outcome(r, warnings, lastControlPoint, lastQuadControlPoint)
              == ParsePath(pathData, parse, t, old(lastControlPoint), old(lastQuadControlPoint))
      ensures old(lastControlPoint) == None && old(lastQuadControlPoint) == None ==>
              lastControlPoint == None && lastQuadControlPoint == None
    {
      if lastControlPoint == None && lastQuadControlPoint == None {
        ParsePathKeepsNull(pathData, parse, t);
      }
      var st := ParserState(0.0, 0.0, [], [], lastControlPoint, lastQuadControlPoint);
      var result := RunCommands(SplitCommands(pathData), st, parse, t);
      if result.Failure? {
        lastControlPoint, lastQuadControlPoint := result.error.at.lastControl, result.error.at.lastQuad;
        return Failure(result.error.error), result.error.at.warnings;
      }
      lastControlPoint, lastQuadControlPoint := result.value.lastControl, result.value.lastQuad;
      return Success(result.value.path), result.value.warnings;
    }
  }

  /** The command loop of parseSVGPath: empty pieces are skipped, the first throw ends it. */
  method RunCommands(commands: seq<string>, start: ParserState, parse: string -> Option<real>, t: SvgArc.MathLib)
    returns (r: Result<ParserState, Stop>)
    requires SvgArc.ValidMath(t)
    ensures r == ParseCommands(commands, start, parse, t)
  {
    var st := start;
    for i := 0 to |commands|
      invariant ParseCommands(commands, start, parse, t) == ParseCommands(commands[i..], st, parse, t)
    {
      assert commands[i..][1..] == commands[i + 1..];
      var cmd := commands[i];
      if cmd == "" {
        continue;
      }
      var next := Interpret(cmd, st, parse, t);
      if next.Failure? {
        return next;
      }
      st := next.value;
    }
    assert commands[|commands|..] == [];
    return Success(st);
  }

  /** The body of the command loop: convert the operands, then act on the letter. */
  method Interpret(cmd: string, st: ParserState, parse: string -> Option<real>, t: SvgArc.MathLib)
    returns (r: Result<ParserState, Stop>)
    requires cmd != "" && SvgArc.ValidMath(t)
    ensures r == ApplyCommand(cmd, st, parse, t)
  {
    var command := cmd[0];
    var sParams := OperandTokens(cmd);
    var isRelative := IsLower(command);
    command := ToUpper(command);
    var params, ws := ConvertOperands(sParams, parse);
    var st1 := st.(warnings := st.warnings + ws);
    if IsGroupCommand(command) {
      r := RunGroups(command, isRelative, params, st1, t);
    } else {
      r := Single(command, isRelative, params, st1);
    }
  }

  /** The for-loops of L, C, S, Q, T and A: p advances by one group while a whole group remains. */
  method RunGroups(c: char, rel: bool, params: seq<real>, st: ParserState, t: SvgArc.MathLib)
    returns (r: Result<ParserState, Stop>)
    requires IsGroupCommand(c) && SvgArc.ValidMath(t)
    ensures r == Groups(c, params, rel, st, t)
  {
    var k := Arity(c);
    var cur := st;
    var p := 0;
    while p + k <= |params|
      invariant 0 <= p <= |params|
      invariant Groups(c, params, rel, st, t) == Groups(c, params[p..], rel, cur, t)
      decreases |params| - p
    {
      assert params[p..][..k] == params[p..p + k];
      assert params[p..][k..] == params[p + k..];
      var next := Step(c, params[p..p + k], rel, cur, t);
      if next.Failure? {
        return next;
      }
      cur := next.value;
      p := p + k;
    }
    return Success(cur);
  }

  /** One pass of a group loop, drawing through Path2D and addArcToPath. */
  method Step(c: char, g: seq<real>, rel: bool, st: ParserState, t: SvgArc.MathLib)
    returns (r: Result<ParserState, Stop>)
    requires IsGroupCommand(c) && |g| == Arity(c) && SvgArc.ValidMath(t)
    ensures r == GroupStep(c, g, rel, st, t)
  {
    if c == 'S' {
      r := SmoothCubic(g, rel, st);
      return;
    } else if c == 'T' {
      r := SmoothQuad(g, rel, st);
      return;
    } else if c == 'A' {
      r := Arc(g, rel, st, t);
      return;
    }
    var baseX := if rel then st.currentX else 0.0;
    var baseY := if rel then st.currentY else 0.0;
    var drawn: Result<Path, PathError>;
    var x, y;
    if c == 'L' {
      x, y := baseX + g[0], baseY + g[1];
      drawn := LineTo(st.path, x, y);
    } else if c == 'C' {
      x, y := baseX + g[4], baseY + g[5];
      drawn := CurveTo(st.path, baseX + g[0], baseY + g[1], baseX + g[2], baseY + g[3], x, y);
    } else {
      x, y := baseX + g[2], baseY + g[3];
      drawn := QuadTo(st.path, baseX + g[0], baseY + g[1], x, y);
    }
    if drawn.Failure? {
      return Failure(Stop(PathState(drawn.error), st));
    }
    return Success(st.(currentX := x, currentY := y, path := drawn.value));
  }

  method SmoothCubic(g: seq<real>, rel: bool, st: ParserState) returns (r: Result<ParserState, Stop>)
    requires |g| == 4
    ensures r == SmoothCubicStep(g, rel, st)
  {
    if st.lastControl.None? {
      return Failure(Stop(NoControlPoint('S'), st));
    }
    var currentX, currentY := st.currentX, st.currentY;
    var x1 := currentX + (currentX - st.lastControl.value.x);
    var y1 := currentY + (currentY - st.lastControl.value.y);
    var x2 := (if rel then currentX else 0.0) + g[0];
    var y2 := (if rel then currentY else 0.0) + g[1];
    var x := (if rel then currentX else 0.0) + g[2];
    var y := (if rel then currentY else 0.0) + g[3];
    var drawn := CurveTo(st.path, x1, y1, x2, y2, x, y);
    if drawn.Failure? {
      return Failure(Stop(PathState(drawn.error), st));
    }
    return Success(st.(currentX := x, currentY := y, path := drawn.value, lastControl := Some(ControlPoint(x2, y2))));
  }

  method SmoothQuad(g: seq<real>, rel: bool, st: ParserState) returns (r: Result<ParserState, Stop>)
    requires |g| == 2
    ensures r == SmoothQuadStep(g, rel, st)
  {
    if st.lastQuad.None? {
      return Failure(Stop(NoControlPoint('T'), st));
    }
    var currentX, currentY := st.currentX, st.currentY;
    var x1 := currentX + (currentX - st.lastQuad.value.x);
    var y1 := currentY + (currentY - st.lastQuad.value.y);
    var x := if rel then currentX + g[0] else g[0];
    var y := if rel then currentY + g[1] else g[1];
    var drawn := QuadTo(st.path, x1, y1, x, y);
    if drawn.Failure? {
      return Failure(Stop(PathState(drawn.error), st));
    }
    return Success(st.(currentX := x, currentY := y, path := drawn.value, lastQuad := Some(ControlPoint(x1, y1))));
  }

  method Arc(g: seq<real>, rel: bool, st: ParserState, t: SvgArc.MathLib) returns (r: Result<ParserState, Stop>)
    requires |g| == 7 && SvgArc.ValidMath(t)
    ensures r == ArcStep(g, rel, st, t)
  {
    var rx := SvgArc.Abs(g[0]);
    var ry := SvgArc.Abs(g[1]);
    var xAxisRotation := g[2];
    var largeArcFlag := g[3] != 0.0;
    var sweepFlag := g[4] != 0.0;
    var x := if rel then st.currentX + g[5] else g[5];
    var y := if rel then st.currentY + g[6] else g[6];
    var drawn := SvgArc.AddArcToPath(st.path, st.currentX, st.currentY, rx, ry, xAxisRotation, largeArcFlag, sweepFlag, x, y, t);
    if drawn.Failure? {
      return Failure(Stop(PathState(drawn.error), st));
    }
    return Success(st.(currentX := x, currentY := y, path := drawn.value));
  }
}

/** Properties of the older parseSVGPath. */
module LegacySvgUtilsProperties {
  import opened Wrappers
  import opened Path2D
  import opened PathLexer
  import SvgArc
  import opened LegacySvgUtils

  /** The segment each of L, C, S, Q and T draws per group. */
  predicate DrawsKind(c: char, s: Segment)
  {
    if c == 'L' then s.SegLineTo?
    else if c == 'C' || c == 'S' then s.SegCubicTo?
    else if c == 'Q' || c == 'T' then s.SegQuadTo?
    else false
  }

  /** The control point a smooth command needs is there. */
  predicate HasControl(c: char, st: ParserState)
  {
    (c == 'S' ==> st.lastControl.Some?) && (c == 'T' ==> st.lastQuad.Some?)
  }

  /** One group of L, C, S, Q or T on a started path draws one segment of its kind. */
  lemma GroupStepDrawsOne(c: char, g: seq<real>, rel: bool, st: ParserState, t: SvgArc.MathLib)
    requires c in {'L', 'C', 'S', 'Q', 'T'} && |g| == Arity(c) && SvgArc.ValidMath(t)
    requires st.path != [] && HasControl(c, st)
    ensures var r := GroupStep(c, g, rel, st, t);
            && r.Success?
            && |r.value.path| == |st.path| + 1
            && r.value.path[..|st.path|] == st.path
            && DrawsKind(c, r.value.path[|st.path|])
            && HasControl(c, r.value)
            && (c != 'S' ==> r.value.lastControl == st.lastControl)
            && (c != 'T' ==> r.value.lastQuad == st.lastQuad)
            && r.value.warnings == st.warnings
  {
  }

  lemma GroupCount(n: int, k: int)
    requires n >= k > 0
    ensures (n - k) / k == n / k - 1
  {
    var q, r := n / k, n % k;
    assert n == q * k + r && 0 <= r < k;
    assert n - k == (q - 1) * k + r;
    var q', r' := (n - k) / k, (n - k) % k;
    assert n - k == q' * k + r' && 0 <= r' < k;
    assert (q - 1 - q') * k == r' - r;
    if q - 1 > q' {
      AtLeastOneMultiple(q - 1 - q', k);
    } else if q - 1 < q' {
      AtLeastOneMultiple(q' - (q - 1), k);
    }
  }

  lemma AtLeastOneMultiple(a: int, k: int)
    requires a >= 1 && k > 0
    ensures a * k >= k
  {
    assert a * k == (a - 1) * k + k;
    assert (a - 1) * k >= 0;
  }

  /**
   * L, C, S, Q and T draw exactly one segment per complete group of operands (a
   * short tail is ignored) once a moveTo has been drawn and the control point a
   * smooth command reflects is set; C and Q leave both control points alone, S
   * only touches lastControlPoint and T only lastQuadControlPoint.
   */
  lemma {:induction false} GroupsDrawOnePerGroup(c: char, ps: seq<real>, rel: bool, st: ParserState, t: SvgArc.MathLib)
    requires c in {'L', 'C', 'S', 'Q', 'T'} && SvgArc.ValidMath(t)
    requires st.path != [] && HasControl(c, st)
    ensures var r := Groups(c, ps, rel, st, t);
            && r.Success?
            && |r.value.path| == |st.path| + |ps| / Arity(c)
            && r.value.path[..|st.path|] == st.path
            && (forall j :: |st.path| <= j < |r.value.path| ==> DrawsKind(c, r.value.path[j]))
            && (c != 'S' ==> r.value.lastControl == st.lastControl)
            && (c != 'T' ==> r.value.lastQuad == st.lastQuad)
            && r.value.warnings == st.warnings
    decreases |ps|
  {
    var k := Arity(c);
    if |ps| >= k {
      GroupStepDrawsOne(c, ps[..k], rel, st, t);
      var next := GroupStep(c, ps[..k], rel, st, t).value;
      GroupsDrawOnePerGroup(c, ps[k..], rel, next, t);
      var r := Groups(c, ps[k..], rel, next, t).value;
      assert Groups(c, ps, rel, st, t) == Success(r);
      GroupCount(|ps|, k);
      assert r.path[..|next.path|] == next.path;
      forall j | |st.path| <= j < |r.path|
        ensures DrawsKind(c, r.path[j])
      {
        if j == |st.path| {
          assert r.path[j] == next.path[j];
        }
      }
      assert r.path[..|st.path|] == next.path[..|st.path|];
    }
  }

  /** Before any moveTo, the first complete group of L, C or Q throws and nothing is drawn. */
  lemma GroupsNeedMoveTo(c: char, ps: seq<real>, rel: bool, st: ParserState, t: SvgArc.MathLib)
    requires c in {'L', 'C', 'Q'} && SvgArc.ValidMath(t)
    requires st.path == [] && |ps| >= Arity(c)
    ensures Groups(c, ps, rel, st, t) == Failure(Stop(PathState(MissingInitialMoveTo), st))
  {
  }

  /** C: a cubic through the group's three points, each relative to the current point for c; the current point moves to the last. */
  lemma CubicGroup(g: seq<real>, rel: bool, st: ParserState, t: SvgArc.MathLib)
    requires |g| == 6 && SvgArc.ValidMath(t) && st.path != []
    ensures var bx := Base(rel, st.currentX);
            var bY := Base(rel, st.currentY);
            GroupStep('C', g, rel, st, t)
            == Success(st.(currentX := bx + g[4], currentY := bY + g[5],
                           path := st.path + [SegCubicTo(bx + g[0], bY + g[1], bx + g[2], bY + g[3], bx + g[4], bY + g[5])]))
  {
  }

  /** Q: a quadratic through the group's two points; the current point moves to the second. */
  lemma QuadGroup(g: seq<real>, rel: bool, st: ParserState, t: SvgArc.MathLib)
    requires |g| == 4 && SvgArc.ValidMath(t) && st.path != []
    ensures var bx := Base(rel, st.currentX);
            var bY := Base(rel, st.currentY);
            GroupStep('Q', g, rel, st, t)
            == Success(st.(currentX := bx + g[2], currentY := bY + g[3],
                           path := st.path + [SegQuadTo(bx + g[0], bY + g[1], bx + g[2], bY + g[3])]))
  {
  }

  /**
   * S: the first control point is 2 * current - lastControlPoint, the second and
   * the endpoint come from the group, and (x2, y2) becomes lastControlPoint.
   * With no stored control point, S throws.
   */
  lemma SmoothCubicReflects(g: seq<real>, rel: bool, st: ParserState, t: SvgArc.MathLib)
    requires |g| == 4 && SvgArc.ValidMath(t)
    ensures st.lastControl.None? ==> GroupStep('S', g, rel, st, t) == Failure(Stop(NoControlPoint('S'), st))
    ensures st.lastControl.Some? && st.path != [] ==>
            var cp := st.lastControl.value;
            var bx := Base(rel, st.currentX);
            var bY := Base(rel, st.currentY);
            var r := GroupStep('S', g, rel, st, t);
            && r.Success?
            && r.value.path == st.path + [SegCubicTo(2.0 * st.currentX - cp.x, 2.0 * st.currentY - cp.y,
                                                     bx + g[0], bY + g[1], bx + g[2], bY + g[3])]
            && r.value.lastControl == Some(ControlPoint(bx + g[0], bY + g[1]))
            && r.value.currentX == bx + g[2] && r.value.currentY == bY + g[3]
            && r.value.lastQuad == st.lastQuad
  {
  }

  /**
   * T: the control point is 2 * current - lastQuadControlPoint and is stored back;
   * the endpoint comes from the group.  With no stored control point, T throws.
   */
  lemma SmoothQuadReflects(g: seq<real>, rel: bool, st: ParserState, t: SvgArc.MathLib)
    requires |g| == 2 && SvgArc.ValidMath(t)
    ensures st.lastQuad.None? ==> GroupStep('T', g, rel, st, t) == Failure(Stop(NoControlPoint('T'), st))
    ensures st.lastQuad.Some? && st.path != [] ==>
            var cp := st.lastQuad.value;
            var control := ControlPoint(2.0 * st.currentX - cp.x, 2.0 * st.currentY - cp.y);
            var x := Base(rel, st.currentX) + g[0];
            var y := Base(rel, st.currentY) + g[1];
            var r := GroupStep('T', g, rel, st, t);
            && r.Success?
            && r.value.path == st.path + [SegQuadTo(control.x, control.y, x, y)]
            && r.value.lastQuad == Some(control)
            && r.value.currentX == x && r.value.currentY == y
            && r.value.lastControl == st.lastControl
  {
  }

  /**
   * A: the arc from the current point, with absolute radii and non-zero flags read
   * as true, is appended and the current point moves to the group's endpoint.
   */
  lemma ArcGroup(g: seq<real>, rel: bool, st: ParserState, t: SvgArc.MathLib)
    requires |g| == 7 && SvgArc.ValidMath(t) && st.path != []
    ensures var x := Base(rel, st.currentX) + g[5];
            var y := Base(rel, st.currentY) + g[6];
            var r := GroupStep('A', g, rel, st, t);
            && r.Success?
            && r.value.path == st.path + SvgArc.ArcSegments(st.currentX, st.currentY, SvgArc.Abs(g[0]), SvgArc.Abs(g[1]),
                                                            g[2], g[3] != 0.0, g[4] != 0.0, x, y, t)
            && r.value.currentX == x && r.value.currentY == y
            && r.value.lastControl == st.lastControl && r.value.lastQuad == st.lastQuad
  {
  }

  /** Appending drawing segments (no moveTo, no close) to a started path keeps it well formed. */
  lemma AppendDrawingWellFormed(p: Path, segs: seq<Segment>)
    requires WellFormed(p) && p != []
    requires forall j :: 0 <= j < |segs| ==> !segs[j].SegMoveTo? && !segs[j].SegClose?
    ensures WellFormed(p + segs)
  {
  }

  lemma ArcSegmentsDraw(x0: real, y0: real, rx: real, ry: real, angle: real,
                        largeArcFlag: bool, sweepFlag: bool, x: real, y: real, t: SvgArc.MathLib)
    requires SvgArc.ValidMath(t)
    ensures var segs := SvgArc.ArcSegments(x0, y0, rx, ry, angle, largeArcFlag, sweepFlag, x, y, t);
            forall j :: 0 <= j < |segs| ==> !segs[j].SegMoveTo? && !segs[j].SegClose?
  {
  }

  lemma GroupStepWellFormed(c: char, g: seq<real>, rel: bool, st: ParserState, t: SvgArc.MathLib)
    requires IsGroupCommand(c) && |g| == Arity(c) && SvgArc.ValidMath(t)
    requires WellFormed(st.path)
    ensures GroupStep(c, g, rel, st, t).Success? ==> WellFormed(GroupStep(c, g, rel, st, t).value.path)
  {
    if c == 'A' && st.path != [] {
      var x := Base(rel, st.currentX) + g[5];
      var y := Base(rel, st.currentY) + g[6];
      ArcSegmentsDraw(st.currentX, st.currentY, SvgArc.Abs(g[0]), SvgArc.Abs(g[1]), g[2], g[3] != 0.0, g[4] != 0.0, x, y, t);
      AppendDrawingWellFormed(st.path, SvgArc.ArcSegments(st.currentX, st.currentY, SvgArc.Abs(g[0]), SvgArc.Abs(g[1]),
                                                          g[2], g[3] != 0.0, g[4] != 0.0, x, y, t));
    }
  }

  lemma {:induction false} GroupsWellFormed(c: char, ps: seq<real>, rel: bool, st: ParserState, t: SvgArc.MathLib)
    requires IsGroupCommand(c) && SvgArc.ValidMath(t) && WellFormed(st.path)
    ensures Groups(c, ps, rel, st, t).Success? ==> WellFormed(Groups(c, ps, rel, st, t).value.path)
    decreases |ps|
  {
    if |ps| >= Arity(c) {
      GroupStepWellFormed(c, ps[..Arity(c)], rel, st, t);
      var next := GroupStep(c, ps[..Arity(c)], rel, st, t);
      if next.Success? {
        GroupsWellFormed(c, ps[Arity(c)..], rel, next.value, t);
      }
    }
  }

  lemma ActWellFormed(c: char, rel: bool, params: seq<real>, st: ParserState, t: SvgArc.MathLib)
    requires SvgArc.ValidMath(t) && WellFormed(st.path)
    ensures Act(c, rel, params, st, t).Success? ==> WellFormed(Act(c, rel, params, st, t).value.path)
  {
    if IsGroupCommand(c) {
      GroupsWellFormed(c, params, rel, st, t);
    }
  }

  lemma {:induction false} ParseCommandsWellFormed(cmds: seq<string>, st: ParserState, parse: string -> Option<real>, t: SvgArc.MathLib)
    requires SvgArc.ValidMath(t) && WellFormed(st.path)
    ensures ParseCommands(cmds, st, parse, t).Success? ==> WellFormed(ParseCommands(cmds, st, parse, t).value.path)
    decreases |cmds|
  {
    if cmds != [] && cmds[0] != "" {
      var converted := Operands(OperandTokens(cmds[0]), parse);
      ActWellFormed(ToUpper(cmds[0][0]), IsLower(cmds[0][0]), converted.0, st.(warnings := st.warnings + converted.1), t);
      var r := ApplyCommand(cmds[0], st, parse, t);
      if r.Success? {
        ParseCommandsWellFormed(cmds[1..], r.value, parse, t);
      }
    } else if cmds != [] {
      ParseCommandsWellFormed(cmds[1..], st, parse, t);
    }
  }

  /** Every path the older parser returns obeys Path2D's shape rules too. */
  lemma ParsePathWellFormed(pathData: string, parse: string -> Option<real>, t: SvgArc.MathLib,
                            lastControl: Option<ControlPoint>, lastQuad: Option<ControlPoint>)
    requires SvgArc.ValidMath(t)
    ensures var o := ParsePath(pathData, parse, t, lastControl, lastQuad);
            o.result.Success? ==> WellFormed(o.result.value)
  {
    ParseCommandsWellFormed(SplitCommands(pathData), ParserState(0.0, 0.0, [], [], lastControl, lastQuad), parse, t);
  }
}
