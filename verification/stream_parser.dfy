/** The chunked line tokenizer of `StreamParser.iter`.

    The stream is an in-memory text with a cursor: reading `n` characters
    returns what lies between the cursor and `n` characters on (fewer at the
    end) and advances the cursor; seeking assigns the cursor. The tokenizer
    reads the stream in chunks, flips a "string state" flag at each quote,
    and ends a line at the first newline seen while the flag is off. That
    newline is usually in the middle of a chunk, so the cursor is rewound
    over the rest of the chunk, and the next line is read again from just
    after the newline.
 */
module StreamParser {
  import opened Lines

  /** Characters read per chunk by default. Any positive size gives the same
      lines: only the number of re-read characters changes. */
  const ChunkSize: nat := 10

  /** Reads up to `n` characters from cursor `pos`: the chunk is empty only
      at the end of the text or when nothing is asked for. */
  function Read(text: string, pos: nat, n: nat): (chunk: string)
    requires pos <= |text|
    ensures |chunk| <= n
    ensures chunk <= text[pos..]
    ensures chunk == [] <==> n == 0 || pos == |text|
    ensures |chunk| < n ==> pos + |chunk| == |text|
  {
    if pos + n <= |text| then text[pos..pos + n] else text[pos..]
  }

  /** Scans one chunk appended to the current `line`, flipping the string
      state at every quote, until a newline outside quotes. `inString` is the
      string state after `line`, which holds no line-ending newline yet.

      When a newline ends the line, `end` is the offset just past it in the
      chunk, and the string state is off again: the next line starts
      outside any string. Otherwise the whole chunk belongs to the line and
      the state tells whether the line now ends inside a string. */
  method ScanChunk(line: string, chunk: string, inString: bool)
    returns (found: bool, end: nat, inString': bool)
    requires inString == Odd(Quotes(line))
    requires NoLineEndBefore(line, |line|)
    ensures found ==> 0 < end <= |chunk| && EndsFirstLineAt(line + chunk, |line| + end)
    ensures found ==> !inString'
    ensures !found ==> NoLineEndBefore(line + chunk, |line + chunk|)
    ensures !found ==> inString' == Odd(Quotes(line + chunk))
  {
    ghost var w := line + chunk;
    assert w[..|line|] == line;
    NoLineEndBeforePrefix(w, line, |line|);
    found, end, inString' := false, 0, inString;
    var j := 0;
    while j < |chunk|
      invariant 0 <= j <= |chunk|
      invariant inString' == Odd(Quotes(w[..|line| + j]))
      invariant NoLineEndBefore(w, |line| + j)
    {
      QuotesStep(w, |line| + j);
      if chunk[j] == Quote {
        inString' := !inString';
      } else if chunk[j] == Newline && !inString' {
        found, end := true, j + 1;
        return;
      }
      NoLineEndExtend(w, |line| + j);
      j := j + 1;
    }
    assert w[..|w|] == w;
  }

  /** After the rewind, the line read is the first logical line of the
      text from `pos`, and its quotes are balanced. */
  lemma Rewound(text: string, pos: nat, p: nat, before: string, chunk: string, end: nat)
    requires pos <= p <= |text| && before == text[pos..p]
    requires chunk <= text[p..]
    requires 0 < end <= |chunk| && EndsFirstLineAt(before + chunk, |before| + end)
    ensures (before + chunk)[..|before| + end] == text[pos..p + end]
    ensures LineLength(text[pos..]) == |before| + end
    ensures !Odd(Quotes(text[pos..p + end]))
  {
    var w := before + chunk;
    assert w[..|before| + end] == text[pos..p + end];
    TerminatedLineIsFirst(text[pos..], w, |before| + end);
  }

  /** The per-chunk loop of `iter`: reads chunks from cursor `pos` into a
      line until a newline outside quotes ends it, rewinding the cursor to
      just after that newline, or until the stream is exhausted. The string
      state is off when a line starts.

      The line read is the first logical line of the unread text, and the
      cursor ends just past it. An empty line means the stream is exhausted
      (or nothing was asked for); a line left inside a string runs to the
      end of the stream. */
  method ReadLine(text: string, pos: nat, chunkSize: nat, inString: bool)
    returns (line: string, pos': nat, inString': bool)
    requires pos <= |text|
    requires !inString
    ensures pos <= pos' <= |text|
    ensures line == text[pos..pos']
    ensures line == [] <==> chunkSize == 0 || pos == |text|
    ensures line != [] ==> LineLength(text[pos..]) == |line|
    ensures inString' == Odd(Quotes(line))
    ensures inString' ==> pos' == |text|
  {
    ghost var rest := text[pos..];
    pos', inString' := pos, inString;
    line := "";
    while true
      invariant pos <= pos' <= |text|
      invariant line == text[pos..pos']
      invariant inString' == Odd(Quotes(line))
      invariant NoLineEndBefore(line, |line|)
      invariant chunkSize == 0 ==> pos' == pos
      decreases |text| - pos'
    {
      ghost var p := pos';
      var chunk := Read(text, pos', chunkSize);
      pos' := pos' + |chunk|;
      if chunk == [] {
        if line != [] {
          assert pos' == |text| && line == rest;
          LineLengthUnique(rest, |rest|);
        }
        return;
      }
      var before := line;
      line := line + chunk;
      var found, end;
      found, end, inString' := ScanChunk(before, chunk, inString');
      if found {
        // rewind the stream to the start of the next line
        var excess := |chunk| - end;
        pos' := pos' - excess;
        line := line[..|line| - excess];
        Rewound(text, pos, p, before, chunk, end);
        return;
      }
    }
  }

  /** Yielding `text[start..pos]` after lines that cover `text[..start]`
      keeps the lines covering the text read and the marks at the ends of
      the lines. */
  lemma YieldLine(text: string, start: nat, pos: nat, lines: seq<string>, marks: seq<nat>)
    requires start <= pos <= |text|
    requires Concat(lines) == text[..start]
    requires |marks| == |lines|
    requires forall i :: 0 <= i < |marks| ==> marks[i] == |Concat(lines[..i + 1])|
    ensures Concat(lines + [text[start..pos]]) == text[..pos]
    ensures forall i :: 0 <= i < |marks| + 1 ==>
              (marks + [pos])[i] == |Concat((lines + [text[start..pos]])[..i + 1])|
  {
    var line := text[start..pos];
    var lines' := lines + [line];
    ConcatAppend(lines, [line]);
    assert Concat([line]) == line;
    assert text[..pos] == text[..start] + line;
    assert lines'[..|lines'|] == lines';
    forall i | 0 <= i < |marks| + 1
      ensures (marks + [pos])[i] == |Concat(lines'[..i + 1])|
    {
      if i < |marks| {
        assert lines'[..i + 1] == lines[..i + 1];
      }
    }
  }

  /** The tokenizer: the lines `iter` yields from `text` when each read asks
      for `chunkSize` characters, and how it stops. `marks[i]` is the cursor
      when line `i` is yielded.

      For every positive chunk size the result is the reference splitter's,
      so the chunk size never changes the lines; with chunk size 0 every
      read is empty and nothing is yielded. At each yield the cursor sits
      just past the text yielded so far. */
  method Iter(text: string, chunkSize: nat) returns (lines: seq<string>, stop: Stop, marks: seq<nat>)
    ensures 0 < chunkSize ==> Run(lines, stop) == SplitLines(text)
    ensures chunkSize == 0 ==> lines == [] && stop == EndOfStream
    ensures |marks| == |lines|
    ensures forall i :: 0 <= i < |marks| ==> marks[i] == |Concat(lines[..i + 1])|
  {
    var pos: nat := 0;
    var inString := false;
    lines, marks := [], [];
    while true
      invariant pos <= |text|
      invariant Concat(lines) == text[..pos]
      invariant !inString
      invariant 0 < chunkSize ==> Prepend(lines, SplitLines(text[pos..])) == SplitLines(text)
      invariant chunkSize == 0 ==> lines == []
      invariant |marks| == |lines|
      invariant forall i :: 0 <= i < |marks| ==> marks[i] == |Concat(lines[..i + 1])|
      decreases |text| - pos
    {
      ghost var start := pos;
      ghost var rest := text[start..];
      var line;
      line, pos, inString := ReadLine(text, pos, chunkSize, inString);
      if line == [] {
        assert 0 < chunkSize ==> text[pos..] == [] && lines + [] == lines;
        stop := EndOfStream;
        return;
      }
      if inString {
        // the stream ended inside a string: DBCSyntaxError
        assert line == rest;
        SplitLinesOpen(rest);
        stop := UnclosedString;
        return;
      }
      assert line <= rest && rest[|line|..] == text[pos..];
      SplitLinesFirst(rest, line);
      PrependPrepend(lines, [line], SplitLines(text[pos..]));
      YieldLine(text, start, pos, lines, marks);
      lines := lines + [line];
      marks := marks + [pos];
    }
  }

  /** Tokenizing the same text with two positive chunk sizes yields the
      same lines and stops the same way. */
  method ChunkSizeIrrelevant(text: string, small: nat, large: nat) returns (a: Run, b: Run)
    requires 0 < small && 0 < large
    ensures a == b
    ensures a == SplitLines(text)
  {
    var lines, stop, marks := Iter(text, small);
    a := Run(lines, stop);
    lines, stop, marks := Iter(text, large);
    b := Run(lines, stop);
  }
}
