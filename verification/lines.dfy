/** Logical lines of DBC text.

    A DBC logical line ends at a newline character, except that a newline
    inside a double-quoted string does not end the line: a comment may span
    several physical lines. There is no escape character, so "inside a
    string" means "an odd number of quote characters have been seen since
    the line began".

    This module defines the reference splitter `SplitLines`: the pure
    meaning of the chunked, seek-back scanner modelled in `StreamParser`.
    Each line keeps its terminating newline, exactly as the scanner yields
    it.
 */
module Lines {

  /** How iteration over a stream ended. */
  datatype Stop =
    | EndOfStream     // the whole text was yielded as lines
    | UnclosedString  // the text ended inside a quoted string: a DBCSyntaxError

  /** The lines yielded, in order, followed by how iteration ended. */
  datatype Run = Run(lines: seq<string>, stop: Stop)

  const Quote: char := '"'
  const Newline: char := '\n'

  /** Number of quote characters in `s`. */
  function Quotes(s: string): nat {
    if s == [] then 0
    else Quotes(s[..|s| - 1]) + (if s[|s| - 1] == Quote then 1 else 0)
  }

  predicate Odd(n: nat) {
    n % 2 == 1
  }

  /** `s[i]` is a newline that ends a logical line: an even number of quotes
      precede it, so it lies outside every quoted string. */
  predicate EndsLineAt(s: string, i: nat)
    requires i < |s|
  {
    s[i] == Newline && !Odd(Quotes(s[..i]))
  }

  /** None of the first `n` characters of `s` ends a line. */
  predicate NoLineEndBefore(s: string, n: nat)
    requires n <= |s|
  {
    forall i :: 0 <= i < n ==> !EndsLineAt(s, i)
  }

  /** The first `n` characters of `w` are a line ended by its newline. */
  predicate EndsFirstLineAt(w: string, n: nat) {
    0 < n <= |w| && EndsLineAt(w, n - 1) && NoLineEndBefore(w, n - 1)
  }

  /** `l` is a logical line as the tokenizer yields it: non-empty, with its
      quotes balanced, and with no line-ending newline before its last
      character. */
  predicate IsLogicalLine(l: string) {
    && l != []
    && !Odd(Quotes(l))
    && NoLineEndBefore(l, |l| - 1)
  }

  /** `l` ends with the newline that terminates it. */
  predicate Terminated(l: string) {
    l != [] && EndsLineAt(l, |l| - 1)
  }

  /** All the lines, joined back together. */
  function Concat(ls: seq<string>): string {
    if ls == [] then [] else ls[0] + Concat(ls[1..])
  }

  function Prepend(ls: seq<string>, r: Run): Run {
    Run(ls + r.lines, r.stop)
  }

  /** `k` is the length of the first logical line of `s`: it runs just past
      the first newline outside quotes, or over all of `s` when there is none. */
  predicate IsFirstLine(s: string, k: nat) {
    && 0 < k <= |s|
    && NoLineEndBefore(s, k - 1)
    && (EndsLineAt(s, k - 1) || (k == |s| && NoLineEndBefore(s, |s|)))
  }

  /** Length of the first logical line of `s`. */
  function LineLength(s: string): (k: nat)
    ensures s == [] ==> k == 0
    ensures s != [] ==> IsFirstLine(s, k)
  {
    LineLengthFrom(s, 0, false)
  }

  /** Scans `s` from `i`, where `inString` tells whether `s[..i]` ends inside
      a quoted string, for the first newline that ends the line. */
  function LineLengthFrom(s: string, i: nat, inString: bool): (k: nat)
    requires i <= |s|
    requires inString == Odd(Quotes(s[..i]))
    requires NoLineEndBefore(s, i)
    ensures s == [] ==> k == 0
    ensures s != [] ==> IsFirstLine(s, k)
    decreases |s| - i
  {
    if i == |s| then
      assert s[..i] == s;
      i
    else
      QuotesStep(s, i);
      if s[i] == Quote then
        NoLineEndExtend(s, i);
        LineLengthFrom(s, i + 1, !inString)
      else if s[i] == Newline && !inString then
        i + 1
      else
        NoLineEndExtend(s, i);
        LineLengthFrom(s, i + 1, inString)
  }

  /** The reference splitter: the lines of `s`, each running up to and
      including a newline outside quotes; a final line without such a
      newline is yielded only when its quotes are balanced. */
  function SplitLines(s: string): Run
    decreases |s|
  {
    if s == [] then
      Run([], EndOfStream)
    else
      var k := LineLength(s);
      if k == |s| && Odd(Quotes(s)) then
        Run([], UnclosedString)
      else
        Prepend([s[..k]], SplitLines(s[k..]))
  }

  // ---------------------------------------------------------------------
  // Helper facts

  lemma QuotesAppend(a: string, b: string)
    ensures Quotes(a + b) == Quotes(a) + Quotes(b)
    decreases |b|
  {
    if b == [] {
      assert a + b == a;
    } else {
      var b' := b[..|b| - 1];
      assert (a + b)[..|a + b| - 1] == a + b';
      QuotesAppend(a, b');
    }
  }

  lemma OddSum(a: nat, b: nat)
    requires !Odd(a)
    ensures Odd(a + b) == Odd(b)
  {
  }

  lemma PrependPrepend(a: seq<string>, b: seq<string>, r: Run)
    ensures Prepend(a + b, r) == Prepend(a, Prepend(b, r))
  {
  }

  lemma QuotesStep(s: string, i: nat)
    requires i < |s|
    ensures Quotes(s[..i + 1]) == Quotes(s[..i]) + (if s[i] == Quote then 1 else 0)
  {
    assert s[..i + 1][..i] == s[..i];
  }

  lemma NoLineEndExtend(s: string, i: nat)
    requires i < |s| && NoLineEndBefore(s, i) && !EndsLineAt(s, i)
    ensures NoLineEndBefore(s, i + 1)
  {
  }

  /** A line end in a prefix is a line end in the whole text, and back. */
  lemma EndsLineAtPrefix(s: string, t: string, i: nat)
    requires t <= s && i < |t|
    ensures EndsLineAt(t, i) == EndsLineAt(s, i)
  {
    assert t[..i] == s[..i];
  }

  lemma NoLineEndBeforePrefix(s: string, t: string, n: nat)
    requires t <= s && n <= |t|
    ensures NoLineEndBefore(t, n) == NoLineEndBefore(s, n)
  {
    forall i | 0 <= i < n
      ensures EndsLineAt(t, i) == EndsLineAt(s, i)
    {
      EndsLineAtPrefix(s, t, i);
    }
  }

  /** `LineLength` is the only length with its defining property. */
  lemma LineLengthUnique(s: string, k: nat)
    requires IsFirstLine(s, k)
    ensures LineLength(s) == k
  {
    var k' := LineLength(s);
  }

  lemma ConcatAppend(a: seq<string>, b: seq<string>)
    ensures Concat(a + b) == Concat(a) + Concat(b)
  {
    if a == [] {
      assert a + b == b;
    } else {
      assert (a + b)[0] == a[0];
      assert (a + b)[1..] == a[1..] + b;
      ConcatAppend(a[1..], b);
    }
  }

  /** A line of `s` ending at `k` has balanced quotes. */
  lemma LineQuotesBalanced(s: string, k: nat)
    requires k == LineLength(s) && 0 < k
    requires !(k == |s| && Odd(Quotes(s)))
    ensures !Odd(Quotes(s[..k]))
  {
    assert IsFirstLine(s, k);
    if EndsLineAt(s, k - 1) {
      QuotesStep(s, k - 1);
    } else {
      assert k == |s| && s[..k] == s;
    }
  }

  /** A first logical line that ends at a newline outside quotes, read from
      any text that starts with it, is the first line of that text. */
  lemma TerminatedLineIsFirst(s: string, w: string, n: nat)
    requires EndsFirstLineAt(w, n) && w[..n] <= s
    ensures LineLength(s) == n
    ensures !Odd(Quotes(w[..n]))
  {
    var line := w[..n];
    EndsLineAtPrefix(w, line, n - 1);
    NoLineEndBeforePrefix(w, line, n - 1);
    EndsLineAtPrefix(s, line, n - 1);
    NoLineEndBeforePrefix(s, line, n - 1);
    LineLengthUnique(s, n);
    assert line == line[..n - 1] + [Newline];
    QuotesAppend(line[..n - 1], [Newline]);
  }

  /** Unfolds `SplitLines` once, at a first line with balanced quotes. */
  lemma SplitLinesFirst(s: string, line: string)
    requires line <= s && line != []
    requires LineLength(s) == |line| && !Odd(Quotes(line))
    ensures SplitLines(s) == Prepend([line], SplitLines(s[|line|..]))
  {
    assert s[..|line|] == line;
    if |line| == |s| {
      assert s == line;
    }
  }

  /** Unfolds `SplitLines` once, at an unterminated first line with an open
      string. */
  lemma SplitLinesOpen(s: string)
    requires s != [] && LineLength(s) == |s| && Odd(Quotes(s))
    ensures SplitLines(s) == Run([], UnclosedString)
  {
  }

  // ---------------------------------------------------------------------
  // Properties of the reference splitter

  /** The lines are a prefix of the text, and they are all of it exactly
      when no quoted string is left open: nothing is lost or duplicated. */
  lemma {:induction false} SplitLinesCoversText(s: string)
    ensures Concat(SplitLines(s).lines) <= s
    ensures SplitLines(s).stop == EndOfStream <==> Concat(SplitLines(s).lines) == s
    decreases |s|
  {
    if s != [] {
      var k := LineLength(s);
      if !(k == |s| && Odd(Quotes(s))) {
        var rest := SplitLines(s[k..]);
        SplitLinesCoversText(s[k..]);
        var ls := [s[..k]] + rest.lines;
        assert ls[1..] == rest.lines;
        assert Concat(ls) == s[..k] + Concat(rest.lines);
        assert s == s[..k] + s[k..];
        if Concat(ls) == s {
          assert Concat(rest.lines) == s[k..];
        }
      }
    }
  }

  /** Every line is a logical line, every line but the last is terminated
      by its newline, and an unterminated line can only be the final line
      of a text that ended outside any string. */
  lemma {:induction false} SplitLinesShape(s: string)
    ensures forall i :: 0 <= i < |SplitLines(s).lines| ==> IsLogicalLine(SplitLines(s).lines[i])
    ensures forall i :: 0 <= i < |SplitLines(s).lines| - 1 ==> Terminated(SplitLines(s).lines[i])
    ensures forall i :: 0 <= i < |SplitLines(s).lines| && !Terminated(SplitLines(s).lines[i]) ==>
              i == |SplitLines(s).lines| - 1 && SplitLines(s).stop == EndOfStream
    decreases |s|
  {
    if s != [] {
      var k := LineLength(s);
      if !(k == |s| && Odd(Quotes(s))) {
        var l := s[..k];
        var rest := SplitLines(s[k..]);
        SplitLinesShape(s[k..]);
        var ls := [l] + rest.lines;
        assert SplitLines(s).lines == ls;
        LineQuotesBalanced(s, k);
        NoLineEndBeforePrefix(s, l, k - 1);
        assert IsLogicalLine(l);
        if EndsLineAt(s, k - 1) {
          EndsLineAtPrefix(s, l, k - 1);
        } else {
          assert s[k..] == [];
        }
        forall i | 0 <= i < |ls|
          ensures IsLogicalLine(ls[i])
          ensures i < |ls| - 1 ==> Terminated(ls[i])
          ensures !Terminated(ls[i]) ==> i == |ls| - 1 && rest.stop == EndOfStream
        {
          if 0 < i {
            assert ls[i] == rest.lines[i - 1];
          }
        }
      }
    }
  }

  /** The tokenizer fails exactly when the text holds an odd number of
      quotes: every yielded line has balanced quotes, so only an open string
      at the end can account for an odd count. */
  lemma {:induction false} SplitLinesErrorIffOddQuotes(s: string)
    ensures SplitLines(s).stop == UnclosedString <==> Odd(Quotes(s))
    decreases |s|
  {
    if s != [] {
      var k := LineLength(s);
      if !(k == |s| && Odd(Quotes(s))) {
        assert SplitLines(s).stop == SplitLines(s[k..]).stop;
        SplitLinesErrorIffOddQuotes(s[k..]);
        LineQuotesBalanced(s, k);
        assert s == s[..k] + s[k..];
        QuotesAppend(s[..k], s[k..]);
        OddSum(Quotes(s[..k]), Quotes(s[k..]));
      }
    }
  }

  /** An empty text yields no lines and no error. */
  lemma EmptyTextYieldsNothing()
    ensures SplitLines([]) == Run([], EndOfStream)
  {
  }

  /** Splitting is determined by its properties: any sequence of logical
      lines, each but the last terminated, followed by either nothing or an
      unterminated tail with an open string, is what `SplitLines` returns. */
  lemma {:induction false} SplitLinesUnique(s: string, ls: seq<string>, tail: string)
    requires Concat(ls) + tail == s
    requires forall i :: 0 <= i < |ls| ==> IsLogicalLine(ls[i])
    requires forall i :: 0 <= i < |ls| - 1 ==> Terminated(ls[i])
    requires tail == [] || (Odd(Quotes(tail)) && NoLineEndBefore(tail, |tail|) && (ls != [] ==> Terminated(ls[|ls| - 1])))
    ensures SplitLines(s) == Run(ls, if tail == [] then EndOfStream else UnclosedString)
    decreases |ls|
  {
    if ls == [] {
      assert s == tail;
      if tail != [] {
        LineLengthUnique(s, |s|);
      }
    } else {
      var l := ls[0];
      var more := Concat(ls[1..]) + tail;
      assert s == l + more;
      assert l <= s;
      NoLineEndBeforePrefix(s, l, |l| - 1);
      if Terminated(l) {
        EndsLineAtPrefix(s, l, |l| - 1);
        LineLengthUnique(s, |l|);
      } else {
        assert |ls| == 1 && tail == [];
        assert Concat(ls[1..]) == [];
        assert s == l;
        assert !EndsLineAt(l, |l| - 1);
        LineLengthUnique(s, |l|);
      }
      assert s[..|l|] == l && s[|l|..] == more;
      forall i | 0 <= i < |ls[1..]|
        ensures IsLogicalLine(ls[1..][i])
        ensures i < |ls[1..]| - 1 ==> Terminated(ls[1..][i])
      {
        assert ls[1..][i] == ls[i + 1];
      }
      SplitLinesUnique(more, ls[1..], tail);
      assert ls == [l] + ls[1..];
    }
  }
}
