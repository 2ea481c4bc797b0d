/** The streams of the tokenizer's unit tests and the lines it yields from
    them. The tests build each stream with Python's `'\n'.join` and compare
    the yielded lines, each stripped of trailing newlines with
    `rstrip('\n')`, against the list they joined. */
module StreamScenarios {
  import opened Lines
  import StreamParser

  datatype Option<T> = None | Some(value: T)

  // ---------------------------------------------------------------------
  // Building and reading back a stream, as the tests do

  /** Python's `'\n'.join(ls)`. */
  function Join(ls: seq<string>): string {
    if ls == [] then []
    else if |ls| == 1 then ls[0]
    else ls[0] + [Newline] + Join(ls[1..])
  }

  /** Each line followed by a newline. */
  function WithNewlines(ls: seq<string>): (r: seq<string>)
    ensures |r| == |ls|
  {
    seq(|ls|, i requires 0 <= i < |ls| => ls[i] + [Newline])
  }

  /** Python's `l.rstrip('\n')`: the longest prefix of `l` that does not end
      in a newline, with only newlines after it. */
  function RStrip(l: string): (r: string)
    ensures r <= l
    ensures r == [] || r[|r| - 1] != Newline
    ensures forall i :: |r| <= i < |l| ==> l[i] == Newline
  {
    if l != [] && l[|l| - 1] == Newline then RStrip(l[..|l| - 1]) else l
  }

  function StripAll(ls: seq<string>): (r: seq<string>)
    ensures |r| == |ls|
  {
    seq(|ls|, i requires 0 <= i < |ls| => RStrip(ls[i]))
  }

  /** A line as a test writes it: its quotes are balanced and every newline
      in it lies inside quotes. */
  predicate Clean(l: string) {
    !Odd(Quotes(l)) && NoLineEndBefore(l, |l|)
  }

  // ---------------------------------------------------------------------
  // A scan that decides `Clean` on a concrete line

  /** The string state after scanning `s` from `i` in state `inString`, or
      `None` when a newline outside quotes comes first. */
  function ScanFrom(s: string, i: nat, inString: bool): Option<bool>
    requires i <= |s|
    decreases |s| - i
  {
    if i == |s| then Some(inString)
    else if s[i] == Quote then ScanFrom(s, i + 1, !inString)
    else if s[i] == Newline && !inString then None
    else ScanFrom(s, i + 1, inString)
  }

  /** Scanning `b` on from the state a previous scan ended in. */
  function Then(r: Option<bool>, b: string): Option<bool> {
    match r
    case None => None
    case Some(inString) => ScanFrom(b, 0, inString)
  }

  lemma {:induction false} ScanSound(s: string, i: nat, inString: bool)
    requires i <= |s| && inString == Odd(Quotes(s[..i])) && NoLineEndBefore(s, i)
    requires ScanFrom(s, i, inString).Some?
    ensures NoLineEndBefore(s, |s|)
    ensures ScanFrom(s, i, inString).value == Odd(Quotes(s))
    decreases |s| - i
  {
    if i == |s| {
      assert s[..i] == s;
    } else {
      QuotesStep(s, i);
      NoLineEndExtend(s, i);
      ScanSound(s, i + 1, if s[i] == Quote then !inString else inString);
    }
  }

  lemma {:induction false} ScanShift(a: string, b: string, j: nat, inString: bool)
    requires j <= |b|
    ensures ScanFrom(a + b, |a| + j, inString) == ScanFrom(b, j, inString)
    decreases |b| - j
  {
    if j < |b| {
      assert (a + b)[|a| + j] == b[j];
      ScanShift(a, b, j + 1, !inString);
      ScanShift(a, b, j + 1, inString);
    }
  }

  lemma {:induction false} ScanAppend(a: string, b: string, i: nat, inString: bool)
    requires i <= |a|
    ensures ScanFrom(a + b, i, inString) == Then(ScanFrom(a, i, inString), b)
    decreases |a| - i
  {
    if i == |a| {
      ScanShift(a, b, 0, inString);
    } else {
      assert (a + b)[i] == a[i];
      ScanAppend(a, b, i + 1, !inString);
      ScanAppend(a, b, i + 1, inString);
    }
  }

  /** Scanning a line made of six pieces is scanning the pieces one after
      another. */
  lemma ScanPieces(a: string, b: string, c: string, d: string, e: string, f: string)
    ensures ScanFrom(a + b + c + d + e + f, 0, false)
         == Then(Then(Then(Then(Then(ScanFrom(a, 0, false), b), c), d), e), f)
  {
    ScanAppend(a + b + c + d + e, f, 0, false);
    ScanAppend(a + b + c + d, e, 0, false);
    ScanAppend(a + b + c, d, 0, false);
    ScanAppend(a + b, c, 0, false);
    ScanAppend(a, b, 0, false);
  }

  /** A line is clean when scanning it ends outside quotes without meeting
      a line end. */
  lemma ScanClean(l: string)
    requires ScanFrom(l, 0, false) == Some(false)
    ensures Clean(l)
  {
    assert l[..0] == [];
    ScanSound(l, 0, false);
  }

  // ---------------------------------------------------------------------
  // Joined streams split back into their lines

  lemma CleanTerminated(l: string)
    requires Clean(l)
    ensures IsLogicalLine(l + [Newline]) && Terminated(l + [Newline])
  {
    var t := l + [Newline];
    assert t[..|l|] == l;
    assert t[..|t| - 1] == l;
    NoLineEndBeforePrefix(t, l, |l|);
  }

  /** A clean line does not end in a newline, so stripping gives it back
      with or without the newline the tokenizer leaves on it. */
  lemma CleanStrips(l: string)
    requires Clean(l)
    ensures RStrip(l) == l
    ensures RStrip(l + [Newline]) == l
  {
    if l != [] {
      assert !EndsLineAt(l, |l| - 1);
    }
    assert (l + [Newline])[..|l|] == l;
  }

  lemma {:induction false} JoinLast(ls: seq<string>)
    requires ls != []
    ensures Join(ls) == Concat(WithNewlines(ls[..|ls| - 1])) + ls[|ls| - 1]
    decreases |ls|
  {
    if |ls| == 1 {
      assert WithNewlines(ls[..0]) == [];
    } else {
      var rest := ls[1..];
      JoinLast(rest);
      assert rest[..|rest| - 1] == ls[1..|ls| - 1];
      assert WithNewlines(ls[..|ls| - 1]) == [ls[0] + [Newline]] + WithNewlines(rest[..|rest| - 1]);
      ConcatAppend([ls[0] + [Newline]], WithNewlines(rest[..|rest| - 1]));
    }
  }

  /** Lines that each strip back to the matching clean line. */
  lemma {:induction false} StripEach(ys: seq<string>, ls: seq<string>)
    requires |ys| == |ls|
    requires forall i :: 0 <= i < |ls| ==> Clean(ls[i])
    requires forall i :: 0 <= i < |ls| ==> ys[i] == ls[i] || ys[i] == ls[i] + [Newline]
    ensures StripAll(ys) == ls
  {
    forall i | 0 <= i < |ls|
      ensures StripAll(ys)[i] == ls[i]
    {
      CleanStrips(ls[i]);
    }
  }

  /** The lines a joined stream yields: each but the last keeps the
      newline that joined it to the next. */
  function Yielded(ls: seq<string>): (ys: seq<string>)
    requires ls != []
    ensures |ys| == |ls|
  {
    WithNewlines(ls[..|ls| - 1]) + [ls[|ls| - 1]]
  }

  lemma YieldedConcat(ls: seq<string>)
    requires ls != []
    ensures Concat(Yielded(ls)) + [] == Join(ls)
  {
    var n := |ls| - 1;
    JoinLast(ls);
    ConcatAppend(WithNewlines(ls[..n]), [ls[n]]);
    assert Concat([ls[n]]) == ls[n];
  }

  lemma YieldedShape(ls: seq<string>)
    requires ls != [] && ls[|ls| - 1] != []
    requires forall i :: 0 <= i < |ls| ==> Clean(ls[i])
    ensures forall i :: 0 <= i < |ls| ==> IsLogicalLine(Yielded(ls)[i])
    ensures forall i :: 0 <= i < |ls| - 1 ==> Terminated(Yielded(ls)[i])
    ensures forall i :: 0 <= i < |ls| ==> Yielded(ls)[i] == ls[i] || Yielded(ls)[i] == ls[i] + [Newline]
  {
    var ys := Yielded(ls);
    forall i | 0 <= i < |ls|
      ensures IsLogicalLine(ys[i])
      ensures i < |ls| - 1 ==> Terminated(ys[i])
      ensures ys[i] == ls[i] || ys[i] == ls[i] + [Newline]
    {
      if i < |ls| - 1 {
        CleanTerminated(ls[i]);
      }
    }
  }

  /** A stream joined from clean lines, whose last line is not empty, is
      split back into those lines; each but the last keeps the newline that
      joined it to the next. */
  lemma SplitJoined(ls: seq<string>)
    requires ls != [] && ls[|ls| - 1] != []
    requires forall i :: 0 <= i < |ls| ==> Clean(ls[i])
    ensures SplitLines(Join(ls)) == Run(Yielded(ls), EndOfStream)
    ensures StripAll(SplitLines(Join(ls)).lines) == ls
  {
    YieldedConcat(ls);
    YieldedShape(ls);
    SplitLinesUnique(Join(ls), Yielded(ls), []);
    StripEach(Yielded(ls), ls);
  }

  lemma NewlinedConcat(ls: seq<string>)
    requires ls != []
    ensures Concat(WithNewlines(ls)) + [] == Join(ls) + [Newline]
  {
    var n := |ls| - 1;
    JoinLast(ls);
    assert WithNewlines(ls) == WithNewlines(ls[..n]) + [ls[n] + [Newline]];
    ConcatAppend(WithNewlines(ls[..n]), [ls[n] + [Newline]]);
    assert Concat([ls[n] + [Newline]]) == ls[n] + [Newline];
    var w := Concat(WithNewlines(ls[..n]));
    assert w + (ls[n] + [Newline]) == (w + ls[n]) + [Newline];
  }

  /** A stream joined from clean lines and ended with a newline is split
      back into all of them, each with its newline, an empty last line
      included. */
  lemma SplitJoinedNewline(ls: seq<string>)
    requires ls != []
    requires forall i :: 0 <= i < |ls| ==> Clean(ls[i])
    ensures SplitLines(Join(ls) + [Newline]) == Run(WithNewlines(ls), EndOfStream)
    ensures StripAll(SplitLines(Join(ls) + [Newline]).lines) == ls
  {
    var ys := WithNewlines(ls);
    NewlinedConcat(ls);
    forall i | 0 <= i < |ys|
      ensures IsLogicalLine(ys[i]) && Terminated(ys[i])
    {
      CleanTerminated(ls[i]);
    }
    SplitLinesUnique(Join(ls) + [Newline], ys, []);
    StripEach(ys, ls);
  }

  // ---------------------------------------------------------------------
  // The tests' streams

  /** The lines of `test_simple_lines`; `test_small_chunks` uses the first
      three. Each line is spelled in pieces of at most six characters: the
      verifier scans a literal piece by piece, and longer literals are out
      of its reach. */
  const Simple: seq<string> := [
    "simple",
    "\"line" + " star" + "ts\" w" + "ith a" + " stri" + "ng",
    "line w" + "ith \"a" + " strin" + "g at t" + "he end" + "\"",
    "line w" + "ith a " + "\"strin" + "g\" in " + "the mi" + "ddle",
    "line e" + "xtends" + " \"over" + "\nmulti" + "ple\" l" + "ines",
    "this \"" + "line\" " + "has \"m" + "ultipl" + "e\" str" + "ings",
    "last " + "line " + "has n" + "o new" + "line " + "char"
  ]

  /** The lines of `test_empty_lines`. */
  const Blanks: seq<string> := ["", "line 2", "", "line 4", ""]

  lemma SimpleScan0() ensures ScanFrom(Simple[0], 0, false) == Some(false) { assert Simple[0] == "simple"; }
  lemma SimpleScan1() ensures ScanFrom(Simple[1], 0, false) == Some(false) { ScanPieces("\"line", " star", "ts\" w", "ith a", " stri", "ng"); }
  lemma SimpleScan2() ensures ScanFrom(Simple[2], 0, false) == Some(false) { ScanPieces("line w", "ith \"a", " strin", "g at t", "he end", "\""); }
  lemma SimpleScan3() ensures ScanFrom(Simple[3], 0, false) == Some(false) { ScanPieces("line w", "ith a ", "\"strin", "g\" in ", "the mi", "ddle"); }
  lemma SimpleScan4() ensures ScanFrom(Simple[4], 0, false) == Some(false) { ScanPieces("line e", "xtends", " \"over", "\nmulti", "ple\" l", "ines"); }
  lemma SimpleScan5() ensures ScanFrom(Simple[5], 0, false) == Some(false) { ScanPieces("this \"", "line\" ", "has \"m", "ultipl", "e\" str", "ings"); }
  lemma SimpleScan6() ensures ScanFrom(Simple[6], 0, false) == Some(false) { ScanPieces("last ", "line ", "has n", "o new", "line ", "char"); }

  lemma SimpleClean()
    ensures forall i :: 0 <= i < |Simple| ==> Clean(Simple[i])
  {
    SimpleScan0(); SimpleScan1(); SimpleScan2(); SimpleScan3();
    SimpleScan4(); SimpleScan5(); SimpleScan6();
    forall i | 0 <= i < |Simple| {
      ScanClean(Simple[i]);
    }
  }

  lemma BlanksClean()
    ensures forall i :: 0 <= i < |Blanks| ==> Clean(Blanks[i])
  {
    forall i | 0 <= i < |Blanks| {
      ScanClean(Blanks[i]);
    }
  }

  /** `test_simple_lines`: the line whose string spans a newline comes out
      whole, the last line comes out without a newline, and the stripped
      lines are the lines joined. */
  lemma SimpleLines()
    ensures SplitLines(Join(Simple)).stop == EndOfStream
    ensures |SplitLines(Join(Simple)).lines| == 7
    ensures SplitLines(Join(Simple)).lines[4] == Simple[4] + [Newline]
    ensures SplitLines(Join(Simple)).lines[6] == Simple[6]
    ensures StripAll(SplitLines(Join(Simple)).lines) == Simple
  {
    SimpleClean();
    SplitJoined(Simple);
  }

  /** `test_empty_lines`: every empty line, the last included, comes out as
      a lone newline. */
  lemma EmptyLines()
    ensures SplitLines(Join(Blanks) + [Newline]) == Run(["\n", "line 2\n", "\n", "line 4\n", "\n"], EndOfStream)
    ensures StripAll(SplitLines(Join(Blanks) + [Newline]).lines) == Blanks
  {
    BlanksClean();
    SplitJoinedNewline(Blanks);
    var ys := WithNewlines(Blanks);
    assert ys[0] == "\n" && ys[2] == "\n" && ys[4] == "\n";
    assert ys[1] == "line 2\n" && ys[3] == "line 4\n";
  }

  /** `test_unclosed_str`: the text ends inside the string its first line
      opens, so nothing is yielded and the unclosed-string error is
      raised. */
  lemma UnclosedFirstLine()
    ensures SplitLines("foo \"bar") == Run([], UnclosedString)
  {
    var s := "foo \"bar";
    assert ScanFrom(s, 0, false) == Some(true);
    assert s[..0] == [];
    ScanSound(s, 0, false);
    assert Concat([]) + s == s;
    SplitLinesUnique(s, [], s);
  }

  // The same tests run through the chunked scanner.

  /** `test_simple_lines` with the default chunk size. */
  method SimpleLinesScanned() returns (stripped: seq<string>, stop: Stop)
    ensures stripped == Simple && stop == EndOfStream
  {
    var lines, marks;
    lines, stop, marks := StreamParser.Iter(Join(Simple), StreamParser.ChunkSize);
    SimpleLines();
    stripped := StripAll(lines);
  }

  /** `test_small_chunks`: one character per read. */
  method SmallChunks() returns (stripped: seq<string>, stop: Stop)
    ensures stripped == Simple[..3] && stop == EndOfStream
  {
    var lines, marks;
    lines, stop, marks := StreamParser.Iter(Join(Simple[..3]), 1);
    SimpleClean();
    SplitJoined(Simple[..3]);
    stripped := StripAll(lines);
  }

  /** `test_large_chunk_size`: one read takes in the whole stream. */
  method LargeChunks() returns (stripped: seq<string>, stop: Stop)
    ensures stripped == Simple[..3] && stop == EndOfStream
  {
    var lines, marks;
    lines, stop, marks := StreamParser.Iter(Join(Simple[..3]), 0x1000);
    SimpleClean();
    SplitJoined(Simple[..3]);
    stripped := StripAll(lines);
  }

  /** `test_empty_lines` with the default chunk size. */
  method EmptyLinesScanned() returns (stripped: seq<string>, stop: Stop)
    ensures stripped == Blanks && stop == EndOfStream
  {
    var lines, marks;
    lines, stop, marks := StreamParser.Iter(Join(Blanks) + [Newline], StreamParser.ChunkSize);
    EmptyLines();
    stripped := StripAll(lines);
  }

  /** `test_empty_stream`: an empty stream yields no lines. */
  method EmptyStream() returns (lines: seq<string>, stop: Stop)
    ensures lines == [] && stop == EndOfStream
  {
    var marks;
    lines, stop, marks := StreamParser.Iter([], StreamParser.ChunkSize);
  }

  /** `test_unclosed_str` with the default chunk size: the error comes
      before any line. */
  method UnclosedStream() returns (lines: seq<string>, stop: Stop)
    ensures lines == [] && stop == UnclosedString
  {
    var marks;
    lines, stop, marks := StreamParser.Iter("foo \"bar", StreamParser.ChunkSize);
    UnclosedFirstLine();
  }
}
