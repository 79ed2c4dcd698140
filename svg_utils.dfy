/**
 * parseSVGPath of studio.jkb.svg.SvgUtils: the path-data reader used by the
 * fixture.  It knows M, L, H, V and Z (either case); lower-case commands are
 * relative to the running current point.  Any other leading letter is reported
 * and skipped.  Reading a missing operand throws, and so does drawing before the
 * first moveTo (a rule of Path2D); both are Failure results here.
 */
module SvgUtils {
  import opened Wrappers
  import opened Path2D
  import opened PathLexer

  datatype ParserState = ParserState(currentX: real, currentY: real, path: Path, warnings: seq<Warning>)

  datatype ParsedPath = ParsedPath(path: Path, warnings: seq<Warning>)

  const Start := ParserState(0.0, 0.0, [], [])

  /** What an operand is added to: the current coordinate, or 0 for an absolute command. */
  function Base(isRelative: bool, current: real): real
  {
    if isRelative then current else 0.0
  }

  /** The numbers a command carries, after bad tokens are dropped. */
  function Params(cmd: string, parse: string -> Option<real>): seq<real>
    requires cmd != ""
  {
    Operands(OperandTokens(cmd), parse).0
  }

  /** The L loop: one lineTo per complete pair of operands, in order. */
  function LineGroups(ps: seq<real>, isRelative: bool, st: ParserState): Result<ParserState, ParseError>
    decreases |ps|
  {
    if |ps| < 2 then Success(st)
    else
      var x := Base(isRelative, st.currentX) + ps[0];
      var y := Base(isRelative, st.currentY) + ps[1];
      match LineTo(st.path, x, y)
      case Failure(e) => Failure(PathState(e))
      case Success(path) => LineGroups(ps[2..], isRelative, st.(currentX := x, currentY := y, path := path))
  }

  /** One pass of the command loop, for a non-empty command piece. */
  function ApplyCommand(cmd: string, st: ParserState, parse: string -> Option<real>): Result<ParserState, ParseError>
    requires cmd != ""
  {
    var converted := Operands(OperandTokens(cmd), parse);
    Act(ToUpper(cmd[0]), IsLower(cmd[0]), converted.0, st.(warnings := st.warnings + converted.1))
  }

  /** The switch on the upper-cased command letter, given the converted operands. */
  function Act(command: char, isRelative: bool, params: seq<real>, st: ParserState): Result<ParserState, ParseError>
  {
    if command == 'M' then
      if |params| < 2 then Failure(MissingOperand(command))
      else
        var x := Base(isRelative, st.currentX) + params[0];
        var y := Base(isRelative, st.currentY) + params[1];
        Success(st.(currentX := x, currentY := y, path := MoveTo(st.path, x, y)))
    else if command == 'L' then
      LineGroups(params, isRelative, st)
    else if command == 'H' then
      if |params| < 1 then Failure(MissingOperand(command))
      else
        var x := Base(isRelative, st.currentX) + params[0];
        match LineTo(st.path, x, st.currentY)
        case Failure(e) => Failure(PathState(e))
        case Success(path) => Success(st.(currentX := x, path := path))
    else if command == 'V' then
      // the source reads the second operand here
      if |params| < 2 then Failure(MissingOperand(command))
      else
        var y := Base(isRelative, st.currentY) + params[1];
        match LineTo(st.path, st.currentX, y)
        case Failure(e) => Failure(PathState(e))
        case Success(path) => Success(st.(currentY := y, path := path))
    else if command == 'Z' then
      match ClosePath(st.path)
      case Failure(e) => Failure(PathState(e))
      case Success(path) => Success(st.(path := path))
    else
      Success(st.(warnings := st.warnings + [UnknownCommand(command)]))
  }

  /** The command loop: empty pieces are skipped, the first throw ends the parse. */
  function ParseCommands(cmds: seq<string>, st: ParserState, parse: string -> Option<real>): Result<ParserState, ParseError>
    decreases |cmds|
  {
    if cmds == [] then Success(st)
    else if cmds[0] == "" then ParseCommands(cmds[1..], st, parse)
    else match ApplyCommand(cmds[0], st, parse)
      case Failure(e) => Failure(e)
      case Success(next) => ParseCommands(cmds[1..], next, parse)
  }

  function ParsePath(pathData: string, parse: string -> Option<real>): Result<ParsedPath, ParseError>
  {
    match ParseCommands(SplitCommands(pathData), Start, parse)
    case Failure(e) => Failure(e)
    case Success(st) => Success(ParsedPath(st.path, st.warnings))
  }

  /** SvgUtils.parseSVGPath. */
  method ParseSvgPath(pathData: string, parse: string -> Option<real>) returns (r: Result<ParsedPath, ParseError>)
    ensures r == ParsePath(pathData, parse)
  {
    var commands := SplitCommands(pathData);
    var st := Start;
    for i := 0 to |commands|
      invariant ParseCommands(commands, Start, parse) == ParseCommands(commands[i..], st, parse)
    {
      assert commands[i..][1..] == commands[i + 1..];
      var cmd := commands[i];
      if cmd == "" {
        continue;
      }
      var next := Interpret(cmd, st, parse);
      if next.Failure? {
        return Failure(next.error);
      }
      st := next.value;
    }
    assert commands[|commands|..] == [];
    return Success(ParsedPath(st.path, st.warnings));
  }

  /** The body of the command loop: convert the operands, then act on the letter. */
  method Interpret(cmd: string, st: ParserState, parse: string -> Option<real>) returns (r: Result<ParserState, ParseError>)
    requires cmd != ""
    ensures r == ApplyCommand(cmd, st, parse)
  {
    var command := cmd[0];
    var sParams := OperandTokens(cmd);
    var isRelative := IsLower(command);
    command := ToUpper(command);
    var params, ws := ConvertOperands(sParams, parse);
    r := Perform(command, isRelative, params, st.(warnings := st.warnings + ws));
  }

  /** The switch of the command loop, given the converted operands. */
  method Perform(command: char, isRelative: bool, params: seq<real>, st: ParserState) returns (r: Result<ParserState, ParseError>)
    ensures r == Act(command, isRelative, params, st)
  {
    var currentX, currentY, path, warnings := st.currentX, st.currentY, st.path, st.warnings;
    if command == 'M' {
      if |params| < 2 {
        return Failure(MissingOperand(command));
      }
      currentX := (if isRelative then currentX else 0.0) + params[0];
      currentY := (if isRelative then currentY else 0.0) + params[1];
      path := MoveTo(path, currentX, currentY);
    } else if command == 'L' {
      var p := 0;
      while p < |params| - 1
        invariant 0 <= p <= |params|
        invariant Act(command, isRelative, params, st) == LineGroups(params[p..], isRelative, ParserState(currentX, currentY, path, warnings))
      {
        assert params[p..][2..] == params[p + 2..];
        currentX := (if isRelative then currentX else 0.0) + params[p];
        currentY := (if isRelative then currentY else 0.0) + params[p + 1];
        var drawn := LineTo(path, currentX, currentY);
        if drawn.Failure? {
          return Failure(PathState(drawn.error));
        }
        path := drawn.value;
        p := p + 2;
      }
    } else if command == 'H' {
      if |params| < 1 {
        return Failure(MissingOperand(command));
      }
      currentX := (if isRelative then currentX else 0.0) + params[0];
      var drawn := LineTo(path, currentX, currentY);
      if drawn.Failure? {
        return Failure(PathState(drawn.error));
      }
      path := drawn.value;
    } else if command == 'V' {
      if |params| < 2 {
        return Failure(MissingOperand(command));
      }
      currentY := (if isRelative then currentY else 0.0) + params[1];
      var drawn := LineTo(path, currentX, currentY);
      if drawn.Failure? {
        return Failure(PathState(drawn.error));
      }
      path := drawn.value;
    } else if command == 'Z' {
      var closed := ClosePath(path);
      if closed.Failure? {
        return Failure(PathState(closed.error));
      }
      path := closed.value;
    } else {
      warnings := warnings + [UnknownCommand(command)];
    }
    return Success(ParserState(currentX, currentY, path, warnings));
  }
}

/** Properties of the newer parseSVGPath. */
module SvgUtilsProperties {
  import opened Wrappers
  import opened Path2D
  import opened PathLexer
  import opened SvgUtils

  /** M: only the first pair is read; absolute sets, relative adds; one moveTo ends the path. */
  lemma MoveCommand(isRelative: bool, params: seq<real>, st: ParserState)
    ensures |params| < 2 ==> Act('M', isRelative, params, st) == Failure(MissingOperand('M'))
    ensures |params| >= 2 ==>
      var r := Act('M', isRelative, params, st);
      && r.Success?
      && r.value.currentX == (if isRelative then st.currentX + params[0] else params[0])
      && r.value.currentY == (if isRelative then st.currentY + params[1] else params[1])
      && r.value.path == MoveTo(st.path, r.value.currentX, r.value.currentY)
      && r.value.path[|r.value.path| - 1] == SegMoveTo(r.value.currentX, r.value.currentY)
      && r.value.path[..|r.value.path| - 1] == st.path[..|r.value.path| - 1]
      && r.value.warnings == st.warnings
  {
  }

  /**
   * L: one lineTo per complete pair (a trailing odd operand is ignored), appended
   * in order after the path so far.  With no moveTo yet, the first pair throws.
   */
  lemma {:induction false} LineCommand(isRelative: bool, params: seq<real>, st: ParserState)
    ensures st.path == [] && |params| >= 2 ==> LineGroups(params, isRelative, st) == Failure(PathState(MissingInitialMoveTo))
    ensures st.path != [] ==>
      var r := LineGroups(params, isRelative, st);
      && r.Success?
      && |r.value.path| == |st.path| + |params| / 2
      && r.value.path[..|st.path|] == st.path
      && (forall j :: |st.path| <= j < |r.value.path| ==> r.value.path[j].SegLineTo?)
      && r.value.warnings == st.warnings
      && (|params| < 2 ==> r.value == st)
    decreases |params|
  {
    if |params| >= 2 && st.path != [] {
      var x := Base(isRelative, st.currentX) + params[0];
      var y := Base(isRelative, st.currentY) + params[1];
      var next := st.(currentX := x, currentY := y, path := st.path + [SegLineTo(x, y)]);
      LineCommand(isRelative, params[2..], next);
      var r := LineGroups(params, isRelative, st);
      assert r == LineGroups(params[2..], isRelative, next);
      assert |params[2..]| / 2 == |params| / 2 - 1;
      assert r.value.path[..|st.path|] == next.path[..|st.path|];
    }
  }
  /** One L pair drawn on a started path: the rest of the command continues from the pair's endpoint. */
  lemma LineFirstPair(isRelative: bool, params: seq<real>, st: ParserState)
    requires st.path != [] && |params| >= 2
    ensures
      var x := Base(isRelative, st.currentX) + params[0];
      var y := Base(isRelative, st.currentY) + params[1];
      LineGroups(params, isRelative, st)
        == LineGroups(params[2..], isRelative, st.(currentX := x, currentY := y, path := st.path + [SegLineTo(x, y)]))
  {
  }

  /** The lineTo segments an L command draws from the current point (x0, y0). */
  function Lines(ps: seq<real>, isRelative: bool, x0: real, y0: real): (ls: seq<Segment>)
    ensures |ls| == |ps| / 2
    ensures forall i :: 0 <= i < |ls| ==> ls[i].SegLineTo?
    decreases |ps|
  {
    if |ps| < 2 then []
    else
      var x := Base(isRelative, x0) + ps[0];
      var y := Base(isRelative, y0) + ps[1];
      [SegLineTo(x, y)] + Lines(ps[2..], isRelative, x, y)
  }

  /** On a started path, L appends exactly the segments of `Lines` from the current point. */
  lemma {:induction false} LinesDrawn(params: seq<real>, isRelative: bool, st: ParserState)
    requires st.path != []
    ensures
      var r := LineGroups(params, isRelative, st);
      r.Success? && r.value.path == st.path + Lines(params, isRelative, st.currentX, st.currentY)
    decreases |params|
  {
    if |params| >= 2 {
      var x := Base(isRelative, st.currentX) + params[0];
      var y := Base(isRelative, st.currentY) + params[1];
      var next := st.(currentX := x, currentY := y, path := st.path + [SegLineTo(x, y)]);
      LineFirstPair(isRelative, params, st);
      LinesDrawn(params[2..], isRelative, next);
      assert next.path + Lines(params[2..], isRelative, x, y) == st.path + Lines(params, isRelative, st.currentX, st.currentY);
    }
  }

  /** For absolute L pairs each endpoint is the pair itself. */
  lemma {:induction false} LineAbsolute(params: seq<real>, x0: real, y0: real)
    ensures forall j :: 0 <= j < |params| / 2 ==> Lines(params, false, x0, y0)[j] == SegLineTo(params[2 * j], params[2 * j + 1])
    decreases |params|
  {
    if |params| >= 2 {
      LineAbsolute(params[2..], params[0], params[1]);
      forall j | 1 <= j < |params| / 2
        ensures Lines(params, false, x0, y0)[j] == SegLineTo(params[2 * j], params[2 * j + 1])
      {
        assert params[2..][2 * (j - 1)] == params[2 * j] && params[2..][2 * (j - 1) + 1] == params[2 * j + 1];
      }
    }
  }

  /** The running sum of the first, or (o = 1) second, operands of pairs 0 to j. */
  function PairSum(ps: seq<real>, j: nat, o: nat): real
    requires o < 2 && 2 * j + 1 < |ps|
  {
    if j == 0 then ps[o] else PairSum(ps, j - 1, o) + ps[2 * j + o]
  }

  /** Dropping the first pair takes its operand off every running sum. */
  lemma {:induction false} PairSumShift(ps: seq<real>, j: nat, o: nat)
    requires o < 2 && 1 <= j && 2 * j + 1 < |ps|
    ensures PairSum(ps, j, o) == ps[o] + PairSum(ps[2..], j - 1, o)
  {
    if j > 1 {
      PairSumShift(ps, j - 1, o);
    }
  }

  /** For relative L pairs endpoint j is the current point plus the running sums of pairs 0 to j. */
  lemma {:induction false} LineRelative(params: seq<real>, x0: real, y0: real)
    ensures forall j :: 0 <= j < |params| / 2 ==>
      Lines(params, true, x0, y0)[j] == SegLineTo(x0 + PairSum(params, j, 0), y0 + PairSum(params, j, 1))
    decreases |params|
  {
    if |params| >= 2 {
      var x := x0 + params[0];
      var y := y0 + params[1];
      LineRelative(params[2..], x, y);
      forall j | 1 <= j < |params| / 2
        ensures Lines(params, true, x0, y0)[j] == SegLineTo(x0 + PairSum(params, j, 0), y0 + PairSum(params, j, 1))
      {
        PairSumShift(params, j, 0);
        PairSumShift(params, j, 1);
      }
    }
  }

  /**
   * The same, step by step: the first relative endpoint is the current point
   * plus the first pair, and each later one is the endpoint before it plus its
   * pair.
   */
  lemma LineRelativeSteps(params: seq<real>, x0: real, y0: real)
    ensures |params| >= 2 ==> Lines(params, true, x0, y0)[0] == SegLineTo(x0 + params[0], y0 + params[1])
    ensures forall j :: 1 <= j < |params| / 2 ==>
      var ls := Lines(params, true, x0, y0);
      ls[j] == SegLineTo(ls[j - 1].x + params[2 * j], ls[j - 1].y + params[2 * j + 1])
  {
    LineRelative(params, x0, y0);
  }

  /** After L the current point is the last endpoint drawn. */
  lemma {:induction false} LineEndsAtCurrent(isRelative: bool, params: seq<real>, st: ParserState)
    requires st.path != [] && |params| >= 2
    ensures
      var r := LineGroups(params, isRelative, st);
      && r.Success?
      && r.value.path != []
      && r.value.path[|r.value.path| - 1] == SegLineTo(r.value.currentX, r.value.currentY)
    decreases |params|
  {
    var x := Base(isRelative, st.currentX) + params[0];
    var y := Base(isRelative, st.currentY) + params[1];
    var next := st.(currentX := x, currentY := y, path := st.path + [SegLineTo(x, y)]);
    LineFirstPair(isRelative, params, st);
    if |params[2..]| >= 2 {
      LineEndsAtCurrent(isRelative, params[2..], next);
    } else {
      LineCommand(isRelative, params[2..], next);
    }
  }

  /** H: only the x coordinate changes, and one lineTo is drawn. */
  lemma HorizontalCommand(isRelative: bool, params: seq<real>, st: ParserState)
    ensures |params| < 1 ==> Act('H', isRelative, params, st) == Failure(MissingOperand('H'))
    ensures |params| >= 1 && st.path != [] ==>
      var r := Act('H', isRelative, params, st);
      && r.Success?
      && r.value.currentX == (if isRelative then st.currentX + params[0] else params[0])
      && r.value.currentY == st.currentY
      && r.value.path == st.path + [SegLineTo(r.value.currentX, st.currentY)]
  {
  }

  /**
   * V: only the y coordinate changes, and one lineTo is drawn; as written, the
   * new y comes from the SECOND operand, so a lone operand throws.
   */
  lemma VerticalCommand(isRelative: bool, params: seq<real>, st: ParserState)
    ensures |params| < 2 ==> Act('V', isRelative, params, st) == Failure(MissingOperand('V'))
    ensures |params| >= 2 && st.path != [] ==>
      var r := Act('V', isRelative, params, st);
      && r.Success?
      && r.value.currentX == st.currentX
      && r.value.currentY == (if isRelative then st.currentY + params[1] else params[1])
      && r.value.path == st.path + [SegLineTo(st.currentX, r.value.currentY)]
  {
  }

  /** Z: closes the path and leaves the current point where it was. */
  lemma CloseCommand(isRelative: bool, params: seq<real>, st: ParserState)
    ensures st.path == [] ==> Act('Z', isRelative, params, st) == Failure(PathState(MissingInitialMoveTo))
    ensures st.path != [] ==>
      var r := Act('Z', isRelative, params, st);
      && r.Success?
      && r.value.currentX == st.currentX && r.value.currentY == st.currentY
      && r.value.path == ClosePath(st.path).value
      && (r.value.path == st.path || r.value.path == st.path + [SegClose])
      && r.value.path[|r.value.path| - 1] == SegClose
      && r.value.warnings == st.warnings
  {
  }

  /** Any other letter is reported and changes neither the path nor the current point. */
  lemma UnknownCommandIgnored(command: char, isRelative: bool, params: seq<real>, st: ParserState)
    requires command !in "MLHVZ"
    ensures Act(command, isRelative, params, st)
      == Success(st.(warnings := st.warnings + [UnknownCommand(command)]))
  {
  }

  /** Every path the parser returns obeys Path2D's shape rules. */
  lemma {:induction false} ParseCommandsWellFormed(cmds: seq<string>, st: ParserState, parse: string -> Option<real>)
    requires WellFormed(st.path)
    ensures ParseCommands(cmds, st, parse).Success? ==> WellFormed(ParseCommands(cmds, st, parse).value.path)
    decreases |cmds|
  {
    if cmds != [] && cmds[0] != "" {
      var r := ApplyCommand(cmds[0], st, parse);
      var converted := Operands(OperandTokens(cmds[0]), parse);
      ActWellFormed(ToUpper(cmds[0][0]), IsLower(cmds[0][0]), converted.0, st.(warnings := st.warnings + converted.1));
      if r.Success? {
        ParseCommandsWellFormed(cmds[1..], r.value, parse);
      }
    } else if cmds != [] {
      ParseCommandsWellFormed(cmds[1..], st, parse);
    }
  }

  lemma ActWellFormed(command: char, isRelative: bool, params: seq<real>, st: ParserState)
    requires WellFormed(st.path)
    ensures Act(command, isRelative, params, st).Success? ==> WellFormed(Act(command, isRelative, params, st).value.path)
  {
    if command == 'L' {
      LineGroupsWellFormed(params, isRelative, st);
    }
  }

  lemma {:induction false} LineGroupsWellFormed(ps: seq<real>, isRelative: bool, st: ParserState)
    requires WellFormed(st.path)
    ensures LineGroups(ps, isRelative, st).Success? ==> WellFormed(LineGroups(ps, isRelative, st).value.path)
    decreases |ps|
  {
    if |ps| >= 2 && st.path != [] {
      var x := Base(isRelative, st.currentX) + ps[0];
      var y := Base(isRelative, st.currentY) + ps[1];
      LineGroupsWellFormed(ps[2..], isRelative, st.(currentX := x, currentY := y, path := st.path + [SegLineTo(x, y)]));
    }
  }

  lemma ParsePathWellFormed(pathData: string, parse: string -> Option<real>)
    ensures ParsePath(pathData, parse).Success? ==> WellFormed(ParsePath(pathData, parse).value.path)
  {
    ParseCommandsWellFormed(SplitCommands(pathData), Start, parse);
  }

  /** Empty path data is one empty piece, which is skipped: an empty path, no warning. */
  lemma EmptyPathData(parse: string -> Option<real>)
    ensures ParsePath("", parse) == Success(ParsedPath([], []))
  {
    assert SplitCommands("") == [""];
    assert ParseCommands([""], Start, parse) == ParseCommands([], Start, parse);
  }
}
