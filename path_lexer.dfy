/**
 * The lexical part shared by both parseSVGPath versions: splitting the path data
 * before every command letter, trimming and tokenising a command's operands on
 * spaces and commas, and converting the tokens to numbers, where a token that is
 * not a number is dropped with a warning.
 *
 * Double.parseDouble is not part of this model: the conversion takes it as a
 * parameter `parse`, a total function from a token to an optional number.
 */
module PathLexer {
  import opened Wrappers
  import Path2D

  /** Non-fatal diagnostics (LX.warning / LX.error in the source). */
  datatype Warning =
    | BadNumber(token: string)
    | UnknownCommand(letter: char)

  /** What makes parseSVGPath throw instead of returning a path. */
  datatype ParseError =
    | MissingOperand(command: char)            // IndexOutOfBoundsException from params.get
    | NoControlPoint(command: char)            // NullPointerException on a null last control point
    | PathState(error: Path2D.PathError)       // IllegalPathStateException from Path2D

  predicate IsCommandLetter(c: char)
  {
    c in {'M', 'm', 'L', 'l', 'H', 'h', 'V', 'v', 'C', 'c', 'S', 's', 'Q', 'q', 'T', 't', 'A', 'a', 'Z', 'z'}
  }

  /** Character.isLowerCase, for the letters the parser can act on. */
  predicate IsLower(c: char)
  {
    'a' <= c <= 'z'
  }

  /** Character.toUpperCase, for the letters the parser can act on. */
  function ToUpper(c: char): (r: char)
    ensures IsLower(c) ==> r as int == c as int - 32
    ensures !IsLower(c) ==> r == c
  {
    if IsLower(c) then (c as int - 32) as char else c
  }

  /** String concatenation of a list of strings. */
  function Join(ss: seq<string>): string
  {
    if ss == [] then "" else ss[0] + Join(ss[1..])
  }

  /** The first index at or after i holding a command letter, or |s|. */
  function NextCommand(s: string, i: nat): (j: nat)
    requires i <= |s|
    ensures i <= j <= |s|
    ensures j < |s| ==> IsCommandLetter(s[j])
    ensures forall k :: i <= k < j ==> !IsCommandLetter(s[k])
    decreases |s| - i
  {
    if i == |s| || IsCommandLetter(s[i]) then i else NextCommand(s, i + 1)
  }

  /** The pieces of a non-empty string cut before every command letter after index 0. */
  function Chunks(s: string): seq<string>
    requires s != ""
    decreases |s|
  {
    var j := NextCommand(s, 1);
    [s[..j]] + (if j == |s| then [] else Chunks(s[j..]))
  }

  /**
   * pathData.split("(?=[MmLlHhVvCcSsQqTtAaZz])"): a zero-width split before every
   * command letter; a match at index 0 yields no leading empty piece, and the
   * empty string splits into one empty piece.
   */
  function SplitCommands(s: string): seq<string>
  {
    if s == "" then [""] else Chunks(s)
  }

  /** Joining the pieces gives back the path data, and each piece is one command. */
  lemma {:induction false} ChunksProperties(s: string)
    requires s != ""
    ensures Join(Chunks(s)) == s
    ensures forall k :: 0 <= k < |Chunks(s)| ==> Chunks(s)[k] != ""
    ensures Chunks(s)[0][0] == s[0]
    ensures forall k :: 0 < k < |Chunks(s)| ==> IsCommandLetter(Chunks(s)[k][0])
    ensures forall k, i :: 0 <= k < |Chunks(s)| && 0 < i < |Chunks(s)[k]| ==> !IsCommandLetter(Chunks(s)[k][i])
    decreases |s|
  {
    var j := NextCommand(s, 1);
    if j < |s| {
      ChunksProperties(s[j..]);
      var rest := Chunks(s[j..]);
      assert Chunks(s) == [s[..j]] + rest;
      assert Join(Chunks(s)) == s[..j] + Join(rest);
      assert s[..j] + s[j..] == s;
      forall k, i | 0 <= k < |Chunks(s)| && 0 < i < |Chunks(s)[k]|
        ensures !IsCommandLetter(Chunks(s)[k][i])
      {
        if k > 0 { assert Chunks(s)[k] == rest[k - 1]; }
      }
    } else {
      assert s[..j] == s;
      assert Chunks(s) == [s];
      assert Join(Chunks(s)) == s + Join([]);
    }
  }

  lemma SplitCommandsJoin(s: string)
    ensures Join(SplitCommands(s)) == s
    ensures forall k :: 0 < k < |SplitCommands(s)| ==> SplitCommands(s)[k] != "" && IsCommandLetter(SplitCommands(s)[k][0])
  {
    if s == "" {
      assert Join([""]) == "" + Join([]);
    } else {
      ChunksProperties(s);
    }
  }

  predicate IsTrimmed(c: char)
  {
    c <= ' '
  }

  function TrimStart(s: string): (r: string)
    ensures |r| <= |s| && r == s[|s| - |r|..]
    ensures r != "" ==> !IsTrimmed(r[0])
    ensures forall k :: 0 <= k < |s| - |r| ==> IsTrimmed(s[k])
    decreases |s|
  {
    if s != "" && IsTrimmed(s[0]) then TrimStart(s[1..]) else s
  }

  function TrimEnd(s: string): (r: string)
    ensures |r| <= |s| && r == s[..|r|]
    ensures r != "" ==> !IsTrimmed(r[|r| - 1])
    ensures forall k :: |r| <= k < |s| ==> IsTrimmed(s[k])
    decreases |s|
  {
    if s != "" && IsTrimmed(s[|s| - 1]) then TrimEnd(s[..|s| - 1]) else s
  }

  /** String.trim: drop every character up to U+0020 from both ends. */
  function Trim(s: string): string
  {
    TrimEnd(TrimStart(s))
  }

  predicate IsSeparator(c: char)
  {
    c == ' ' || c == ','
  }

  /** The first index at or after i holding a separator, or |t|. */
  function RunEnd(t: string, i: nat): (j: nat)
    requires i <= |t|
    ensures i <= j <= |t|
    ensures j < |t| ==> IsSeparator(t[j])
    ensures forall k :: i <= k < j ==> !IsSeparator(t[k])
    decreases |t| - i
  {
    if i == |t| || IsSeparator(t[i]) then i else RunEnd(t, i + 1)
  }

  /** The maximal runs of characters that are neither space nor comma. */
  function Runs(t: string): (r: seq<string>)
    ensures forall k :: 0 <= k < |r| ==> r[k] != ""
    ensures forall k, i :: 0 <= k < |r| && 0 <= i < |r[k]| ==> !IsSeparator(r[k][i])
    decreases |t|
  {
    if t == "" then []
    else if IsSeparator(t[0]) then Runs(t[1..])
    else
      var j := RunEnd(t, 0);
      [t[..j]] + Runs(t[j..])
  }

  /**
   * t.split("[ ,]+"): the runs between separators, with a leading empty piece
   * when t starts with a separator, trailing empty pieces removed, and [t]
   * when there is no separator at all.
   */
  function SplitOperands(t: string): (r: seq<string>)
    ensures forall k :: 0 <= k < |r| && r[k] != "" ==> r[k] in Runs(t)
  {
    if t == "" then [""]
    else if Runs(t) == [] then []
    else (if IsSeparator(t[0]) then [""] else []) + Runs(t)
  }

  /** cmd.substring(1).trim().split("[ ,]+"). */
  function OperandTokens(cmd: string): seq<string>
    requires cmd != ""
  {
    SplitOperands(Trim(cmd[1..]))
  }

  /**
   * The operand conversion loop: every non-empty token is parsed; a number is
   * kept, anything else becomes a BadNumber warning.  Defined on the last token
   * so that it follows the loop that appends.
   */
  function Operands(tokens: seq<string>, parse: string -> Option<real>): (seq<real>, seq<Warning>)
    decreases |tokens|
  {
    if tokens == [] then ([], [])
    else
      var prev := Operands(tokens[..|tokens| - 1], parse);
      var t := tokens[|tokens| - 1];
      if t == "" then prev
      else match parse(t)
        case Some(v) => (prev.0 + [v], prev.1)
        case None => (prev.0, prev.1 + [BadNumber(t)])
  }

  method ConvertOperands(tokens: seq<string>, parse: string -> Option<real>)
    returns (params: seq<real>, warnings: seq<Warning>)
    ensures (params, warnings) == Operands(tokens, parse)
  {
    params, warnings := [], [];
    for i := 0 to |tokens|
      invariant (params, warnings) == Operands(tokens[..i], parse)
    {
      assert tokens[..i + 1][..i] == tokens[..i];
      var t := tokens[i];
      if t != "" {
        match parse(t)
        case Some(v) => params := params + [v];
        case None => warnings := warnings + [BadNumber(t)];
      }
    }
    assert tokens[..|tokens|] == tokens;
  }

  /** The non-empty tokens, in order. */
  function NonEmpty(tokens: seq<string>): (r: seq<string>)
    decreases |tokens|
  {
    if tokens == [] then []
    else NonEmpty(tokens[..|tokens| - 1]) + (if tokens[|tokens| - 1] == "" then [] else [tokens[|tokens| - 1]])
  }

  /** Every non-empty token yields exactly one number or one warning. */
  lemma {:induction false} OperandsAccountForEveryToken(tokens: seq<string>, parse: string -> Option<real>)
    ensures |Operands(tokens, parse).0| + |Operands(tokens, parse).1| == |NonEmpty(tokens)|
    decreases |tokens|
  {
    if tokens != [] {
      OperandsAccountForEveryToken(tokens[..|tokens| - 1], parse);
    }
  }

  /** When every token is a number, nothing is dropped and nothing is reported. */
  lemma {:induction false} OperandsAllNumbers(tokens: seq<string>, parse: string -> Option<real>)
    requires forall k :: 0 <= k < |tokens| && tokens[k] != "" ==> parse(tokens[k]).Some?
    ensures |Operands(tokens, parse).0| == |NonEmpty(tokens)|
    ensures Operands(tokens, parse).1 == []
    ensures forall k :: 0 <= k < |NonEmpty(tokens)| ==> Some(Operands(tokens, parse).0[k]) == parse(NonEmpty(tokens)[k])
    decreases |tokens|
  {
    if tokens != [] {
      var init := tokens[..|tokens| - 1];
      OperandsAllNumbers(init, parse);
    }
  }

  /**
   * A token that is not a number is dropped with a warning, and the numbers are
   * exactly those of the list without it.
   */
  lemma {:induction false} OperandsSkipBadToken(tokens: seq<string>, i: nat, parse: string -> Option<real>)
    requires i < |tokens| && tokens[i] != "" && parse(tokens[i]).None?
    ensures Operands(tokens, parse).0 == Operands(tokens[..i] + tokens[i + 1..], parse).0
    ensures BadNumber(tokens[i]) in Operands(tokens, parse).1
    ensures |Operands(tokens, parse).1| == |Operands(tokens[..i] + tokens[i + 1..], parse).1| + 1
    decreases |tokens|
  {
    var without := tokens[..i] + tokens[i + 1..];
    if i == |tokens| - 1 {
      assert tokens[..|tokens| - 1] == without;
    } else {
      var init := tokens[..|tokens| - 1];
      OperandsSkipBadToken(init, i, parse);
      assert without[..|without| - 1] == init[..i] + init[i + 1..];
      assert without[|without| - 1] == tokens[|tokens| - 1];
    }
  }
}
