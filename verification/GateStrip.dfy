/** Removal of gate definitions from OpenQASM text. */
module GateStrip {

  predicate OccursAt(line: string, text: string, i: nat) {
    i + |text| <= |line| && line[i..i + |text|] == text
  }

  predicate Contains(line: string, text: string) {
    exists i :: 0 <= i <= |line| && OccursAt(line, text, i)
  }

  /** A line that starts a gate definition. */
  predicate Opens(line: string) {
    Contains(line, "gate ") && Contains(line, "{")
  }

  predicate Closes(line: string) {
    Contains(line, "}")
  }

  /** A text holds another exactly if it can be cut into three pieces with the other one in the middle. */
  lemma ContainsIff(line: string, text: string)
    ensures Contains(line, text) <==> exists before, after :: line == before + text + after
  {
    if i :| 0 <= i <= |line| && OccursAt(line, text, i) {
      assert line == line[..i] + text + line[i + |text|..];
    }
    if before, after :| line == before + text + after {
      assert OccursAt(line, text, |before|);
    }
  }

  /** A line opens a definition exactly if it holds both "gate " and an opening brace, wherever they are; it closes one
      exactly if it holds a closing brace. */
  lemma OpensAndCloses(line: string)
    ensures Opens(line) <==> (exists before, after :: line == before + "gate " + after) && '{' in line
    ensures Closes(line) <==> '}' in line
  {
    ContainsIff(line, "gate ");
    ContainsCharacter(line, '{');
    ContainsCharacter(line, '}');
  }

  lemma ContainsCharacter(line: string, c: char)
    ensures Contains(line, [c]) <==> c in line
  {
    if c in line {
      var i :| 0 <= i < |line| && line[i] == c;
      assert OccursAt(line, [c], i);
    }
    if i :| 0 <= i <= |line| && OccursAt(line, [c], i) {
      assert line[i..i + 1][0] == line[i];
    }
  }

  // ---------- lines ----------

  function LineEnd(text: string): (n: nat)
    ensures n <= |text| && '\n' !in text[..n] && (n < |text| ==> text[n] == '\n')
  {
    if text == "" || text[0] == '\n' then 0
    else
      assert text[..1 + LineEnd(text[1..])] == [text[0]] + text[1..][..LineEnd(text[1..])];
      1 + LineEnd(text[1..])
  }

  /** The lines that std::getline yields: a final newline ends the last line and starts no other. */
  function Lines(text: string): seq<string> {
    if text == "" then []
    else
      var n := LineEnd(text);
      if n == |text| then [text] else [text[..n]] + Lines(text[n + 1..])
  }

  function Unlines(lines: seq<string>): string {
    if lines == [] then "" else Unlines(lines[..|lines| - 1]) + lines[|lines| - 1] + "\n"
  }

  // ---------- stripping ----------

  function InsideAfter(line: string, inside: bool): bool {
    Opens(line) || (inside && !Closes(line))
  }

  /** The lines that survive, when the first of them is reached inside or outside a definition. */
  function Kept(lines: seq<string>, inside: bool): seq<string> {
    if lines == [] then []
    else
      var rest := Kept(lines[1..], InsideAfter(lines[0], inside));
      if Opens(lines[0]) || inside then rest else [lines[0]] + rest
  }

  lemma KeptCons(line: string, rest: seq<string>, inside: bool)
    ensures Kept([line] + rest, inside)
         == (if Opens(line) || inside then [] else [line]) + Kept(rest, InsideAfter(line, inside))
  {
    assert ([line] + rest)[1..] == rest;
  }

  function Stripped(text: string): string {
    Unlines(Kept(Lines(text), false))
  }

  lemma KeepLine(kept: seq<string>, line: string, rest: seq<string>)
    ensures kept + ([line] + rest) == kept + [line] + rest
    ensures Unlines(kept + [line]) == Unlines(kept) + line + "\n"
  {
    assert (kept + [line])[..|kept|] == kept;
  }

  method GetLine(stream: string) returns (line: string, rest: string)
    requires stream != ""
    ensures Lines(stream) == [line] + Lines(rest)
    ensures |rest| < |stream|
  {
    var n := LineEnd(stream);
    line := stream[..n];
    rest := if n == |stream| then "" else stream[n + 1..];
    assert n == |stream| ==> line == stream;
  }

  method StripSpuriousGateDefs(qasm: string) returns (result: string)
    ensures result == Stripped(qasm)
  {
    var stream := qasm;
    result := "";
    var inGateBlock := false;
    ghost var kept: seq<string> := [];
    while stream != ""
      invariant kept + Kept(Lines(stream), inGateBlock) == Kept(Lines(qasm), false)
      invariant result == Unlines(kept)
      decreases |stream|
    {
      var line, rest := GetLine(stream);
      KeptCons(line, Lines(rest), inGateBlock);
      stream := rest;
      if Opens(line) {
        inGateBlock := true;
        continue;
      }
      if inGateBlock {
        if Closes(line) {
          inGateBlock := false;
        }
        continue;
      }
      result := result + line + "\n";
      KeepLine(kept, line, Kept(Lines(rest), false));
      kept := kept + [line];
    }
    assert kept == Kept(Lines(qasm), false);
  }

  // ---------- what it keeps ----------

  ghost predicate Subsequence(part: seq<string>, whole: seq<string>) {
    if part == [] then true
    else if whole == [] then false
    else if part[0] == whole[0] && Subsequence(part[1..], whole[1..]) then true
    else Subsequence(part, whole[1..])
  }

  lemma {:induction false} KeptIsSubsequence(lines: seq<string>, inside: bool)
    ensures Subsequence(Kept(lines, inside), lines)
    ensures forall line <- Kept(lines, inside) :: !Opens(line) && line in lines
  {
    if lines != [] {
      KeptIsSubsequence(lines[1..], InsideAfter(lines[0], inside));
    }
  }

  lemma {:induction false} NothingToStrip(lines: seq<string>)
    requires forall line <- lines :: !Opens(line)
    ensures Kept(lines, false) == lines
  {
    if lines != [] {
      NothingToStrip(lines[1..]);
    }
  }

  lemma {:induction false} LineEndOf(line: string, rest: string)
    requires '\n' !in line
    ensures LineEnd(line + "\n" + rest) == |line|
  {
    if line != "" {
      assert (line + "\n" + rest)[1..] == line[1..] + "\n" + rest;
      LineEndOf(line[1..], rest);
    }
  }

  lemma LinesOf(line: string, rest: string)
    requires '\n' !in line
    ensures Lines(line + "\n" + rest) == [line] + Lines(rest)
  {
    LineEndOf(line, rest);
    var text := line + "\n" + rest;
    assert text[..|line|] == line && text[|line| + 1..] == rest;
  }

  lemma {:induction false} UnlinesFront(line: string, lines: seq<string>)
    ensures Unlines([line] + lines) == line + "\n" + Unlines(lines)
  {
    if lines == [] {
      assert Unlines([line]) == Unlines([]) + line + "\n";
    } else {
      var n := |lines| - 1;
      assert ([line] + lines)[..n + 1] == [line] + lines[..n];
      UnlinesFront(line, lines[..n]);
      assert Unlines([line] + lines) == Unlines([line] + lines[..n]) + lines[n] + "\n";
    }
  }

  lemma {:induction false} LinesOfUnlines(lines: seq<string>)
    requires forall line <- lines :: '\n' !in line
    ensures Lines(Unlines(lines)) == lines
  {
    if lines != [] {
      assert lines == [lines[0]] + lines[1..];
      UnlinesFront(lines[0], lines[1..]);
      LinesOf(lines[0], Unlines(lines[1..]));
      LinesOfUnlines(lines[1..]);
    }
  }

  lemma {:induction false} LinesHaveNoNewline(text: string)
    ensures forall line <- Lines(text) :: '\n' !in line
  {
    if text != "" {
      var n := LineEnd(text);
      if n == |text| {
        assert text[..n] == text;
      } else {
        LinesHaveNoNewline(text[n + 1..]);
      }
    }
  }

  /** The lines of the output are the kept lines: a subsequence of the input lines, none of which opens a gate. */
  lemma StrippedLines(text: string)
    ensures Lines(Stripped(text)) == Kept(Lines(text), false)
    ensures Subsequence(Lines(Stripped(text)), Lines(text))
    ensures forall line <- Lines(Stripped(text)) :: !Opens(line)
  {
    LinesHaveNoNewline(text);
    KeptIsSubsequence(Lines(text), false);
    LinesOfUnlines(Kept(Lines(text), false));
  }

  lemma StrippingIsIdempotent(text: string)
    ensures Stripped(Stripped(text)) == Stripped(text)
  {
    StrippedLines(text);
    NothingToStrip(Lines(Stripped(text)));
  }

  // ---------- what it should remove ----------

  /** A text as its author sees it: plain lines, and definitions that open and close on lines of their own. */
  datatype Segment = Plain(line: string) | Block(open: string, body: seq<string>, close: string)

  predicate WellFormed(segment: Segment) {
    match segment
    case Plain(line) => !Opens(line)
    case Block(open, body, close) =>
      Opens(open) && (forall line <- body :: !Closes(line)) && Closes(close) && !Opens(close)
  }

  function SegmentLines(segment: Segment): seq<string> {
    match segment
    case Plain(line) => [line]
    case Block(open, body, close) => [open] + body + [close]
  }

  function Flatten(segments: seq<Segment>): seq<string> {
    if segments == [] then [] else SegmentLines(segments[0]) + Flatten(segments[1..])
  }

  function PlainLines(segments: seq<Segment>): seq<string> {
    if segments == [] then []
    else if segments[0].Plain? then [segments[0].line] + PlainLines(segments[1..])
    else PlainLines(segments[1..])
  }

  lemma {:induction false} BodyIsDropped(body: seq<string>, close: string, rest: seq<string>)
    requires forall line <- body :: !Closes(line)
    requires Closes(close) && !Opens(close)
    ensures Kept(body + [close] + rest, true) == Kept(rest, false)
  {
    if body == [] {
      assert body + [close] + rest == [close] + rest;
    } else {
      assert (body + [close] + rest)[1..] == body[1..] + [close] + rest;
      BodyIsDropped(body[1..], close, rest);
    }
  }

  lemma BlockIsDropped(open: string, body: seq<string>, close: string, rest: seq<string>)
    requires WellFormed(Block(open, body, close))
    ensures Kept([open] + body + [close] + rest, false) == Kept(rest, false)
  {
    assert [open] + body + [close] + rest == [open] + (body + [close] + rest);
    KeptCons(open, body + [close] + rest, false);
    BodyIsDropped(body, close, rest);
  }

  lemma {:induction false} BlocksAreDropped(segments: seq<Segment>)
    requires forall segment <- segments :: WellFormed(segment)
    ensures Kept(Flatten(segments), false) == PlainLines(segments)
  {
    if segments != [] {
      assert segments[0] in segments && WellFormed(segments[0]);
      BlocksAreDropped(segments[1..]);
      var rest := Flatten(segments[1..]);
      match segments[0]
      case Plain(line) =>
        KeptCons(line, rest, false);
      case Block(open, body, close) =>
        BlockIsDropped(open, body, close, rest);
    }
  }

  /** Of a text of plain lines and of definitions that open and close on different lines, exactly the definitions are
      removed. */
  lemma BlocksAreRemoved(segments: seq<Segment>)
    requires forall segment <- segments :: WellFormed(segment)
    requires forall line <- Flatten(segments) :: '\n' !in line
    ensures Stripped(Unlines(Flatten(segments))) == Unlines(PlainLines(segments))
    ensures forall text :: Lines(text) == Flatten(segments) ==> Stripped(text) == Unlines(PlainLines(segments))
  {
    LinesOfUnlines(Flatten(segments));
    BlocksAreDropped(segments);
  }

  /** What one would expect when a definition may also close on the line that opens it: a removed line ends the
      definition whenever it holds a closing brace. */
  function Intended(lines: seq<string>, inside: bool): seq<string> {
    if lines == [] then []
    else if Opens(lines[0]) || inside then Intended(lines[1..], !Closes(lines[0]))
    else [lines[0]] + Intended(lines[1..], false)
  }

  /** Every line that opens and closes a definition is the last one or is followed by another opening line. */
  predicate OneLinersAreFollowed(lines: seq<string>) {
    forall i :: 0 <= i < |lines| - 1 && Opens(lines[i]) && Closes(lines[i]) ==> Opens(lines[i + 1])
  }

  lemma {:induction false} NeverKeepsMore(lines: seq<string>, inside: bool, intended: bool)
    requires intended ==> inside
    ensures |Kept(lines, inside)| <= |Intended(lines, intended)|
  {
    if lines != [] {
      NeverKeepsMore(lines[1..], InsideAfter(lines[0], inside),
                     (Opens(lines[0]) || intended) && !Closes(lines[0]));
    }
  }

  lemma {:induction false} AgreeIffFollowed(lines: seq<string>, inside: bool)
    ensures Kept(lines, inside) == Intended(lines, inside) <==> OneLinersAreFollowed(lines)
  {
    if lines != [] {
      var rest := lines[1..];
      Adjacent(lines);
      AgreeIffFollowed(rest, InsideAfter(lines[0], inside));
      if Opens(lines[0]) {
        if Closes(lines[0]) {
          OneLiner(rest);
        }
      } else if !inside {
        SameTail(lines[0], Kept(rest, false), Intended(rest, false));
      }
    }
  }

  lemma SameTail(line: string, a: seq<string>, b: seq<string>)
    ensures [line] + a == [line] + b <==> a == b
  {
    assert ([line] + a)[1..] == a && ([line] + b)[1..] == b;
  }

  lemma Adjacent(lines: seq<string>)
    requires lines != []
    ensures OneLinersAreFollowed(lines) <==>
            && OneLinersAreFollowed(lines[1..])
            && (Opens(lines[0]) && Closes(lines[0]) && |lines| > 1 ==> Opens(lines[1]))
  {
  }

  /** After a one-line definition the code is inside and the intention is outside; what follows decides. */
  lemma OneLiner(rest: seq<string>)
    ensures rest == [] || Opens(rest[0]) ==>
              Kept(rest, true) == Kept(rest, false) && Intended(rest, true) == Intended(rest, false)
    ensures rest != [] && !Opens(rest[0]) ==> |Kept(rest, true)| < |Intended(rest, false)|
  {
    if rest != [] && !Opens(rest[0]) {
      NeverKeepsMore(rest[1..], InsideAfter(rest[0], true), false);
    }
  }

  /** The code removes exactly the definitions, one-line ones included, precisely on the texts in which no one-line
      definition is followed by a line that does not open one: that line is lost, and maybe more after it. */
  lemma RightIffOneLinersAreFollowed(text: string)
    ensures Stripped(text) == Unlines(Intended(Lines(text), false)) <==> OneLinersAreFollowed(Lines(text))
  {
    AgreeIffFollowed(Lines(text), false);
    LinesHaveNoNewline(text);
    KeptIsSubsequence(Lines(text), false);
    IntendedIsDrawn(Lines(text), false);
    LinesOfUnlines(Kept(Lines(text), false));
    LinesOfUnlines(Intended(Lines(text), false));
  }

  lemma {:induction false} IntendedIsDrawn(lines: seq<string>, inside: bool)
    ensures forall line <- Intended(lines, inside) :: line in lines
  {
    if lines != [] {
      IntendedIsDrawn(lines[1..], (Opens(lines[0]) || inside) && !Closes(lines[0]));
    }
  }

  lemma LastLine(line: string)
    requires '\n' !in line && line != ""
    ensures Lines(line) == [line]
  {
  }

  lemma GateLine()
    ensures Opens("gate g a { x a; }") && Closes("gate g a { x a; }")
  {
    var gate := "gate g a { x a; }";
    assert OccursAt(gate, "gate ", 0) && OccursAt(gate, "{", 9) && OccursAt(gate, "}", 16);
  }

  lemma PlainLine()
    ensures !Opens("g q;") && !Closes("g q;")
  {
    var next := "g q;";
    forall i: nat ensures !OccursAt(next, "{", i) && !OccursAt(next, "}", i) {
      if i + 1 <= |next| {
        assert next[i..i + 1][0] == next[i];
      }
    }
  }

  lemma IntendedCons(line: string, rest: seq<string>)
    ensures Intended([line] + rest, false)
         == if Opens(line) then Intended(rest, !Closes(line)) else [line] + Intended(rest, false)
  {
    assert ([line] + rest)[1..] == rest;
  }

  /** One line is lost after a line that opens and closes a definition. */
  lemma NextLineIsLost(gate: string, next: string)
    requires Opens(gate) && Closes(gate) && '\n' !in gate
    requires !Opens(next) && '\n' !in next && next != ""
    ensures Stripped(gate + "\n" + next) == ""
    ensures Unlines(Intended(Lines(gate + "\n" + next), false)) == next + "\n"
  {
    LinesOf(gate, next);
    LastLine(next);
    KeptCons(gate, [next], false);
    KeptCons(next, [], true);
    assert [gate] + [next] == [gate, next] && [next] + [] == [next];
    IntendedCons(gate, [next]);
    IntendedCons(next, []);
    UnlinesFront(next, []);
  }

  /** A line that names a gate but opens no brace, or opens one without naming a gate, stays. */
  lemma HalfOpeningsStay(line: string)
    requires '\n' !in line && line != "" && ('{' !in line || !exists before, after :: line == before + "gate " + after)
    ensures Stripped(line) == line + "\n"
  {
    OpensAndCloses(line);
    LastLine(line);
    KeptCons(line, [], false);
    assert [line] + [] == [line];
    UnlinesFront(line, []);
  }

  lemma NamingAGateStays()
    ensures Stripped("gate q;") == "gate q;\n"
  {
    var line := "gate q;";
    assert '{' !in line && '\n' !in line;
    HalfOpeningsStay(line);
  }

  /** A two-line text that loses its second line. */
  lemma OneLinerSwallowsNextLine()
    ensures Stripped("gate g a { x a; }\ng q;") == ""
    ensures Unlines(Intended(Lines("gate g a { x a; }\ng q;"), false)) == "g q;\n"
  {
    GateLine();
    PlainLine();
    assert "gate g a { x a; }\ng q;" == "gate g a { x a; }" + "\n" + "g q;";
    NextLineIsLost("gate g a { x a; }", "g q;");
  }
}
