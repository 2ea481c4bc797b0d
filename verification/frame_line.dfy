/** The frame (message) line grammar of `MessageParser.REGEX`.

    A frame line is `BO_`, whitespace, a decimal address, a name, a colon, a
    decimal data length code, whitespace, one transmitter, and trailing
    whitespace:

        BO_ 2566903475 ConverterInputOutput: 8 DCDC

    Whitespace may also separate the address from the name and surround the
    colon, and the name may be glued to the address. The name and the
    transmitter are any runs of non-whitespace characters, so a name may
    itself hold digits or colons.

    `IsFrameLine` states the grammar as the existence of a decomposition of
    the line into these pieces; `Match` is a recognizer that finds such a
    decomposition without backtracking, proved to accept exactly the frame
    lines.
 */
module FrameLine {

  datatype Option<T> = None | Some(value: T)

  /** A whitespace character in the sense of Python's `\s` on text:
      the characters for which `str.isspace` holds. */
  predicate IsSpace(c: char) {
    || c == ' '
    || ('\t' <= c <= '\r')
    || ('\U{1C}' <= c <= '\U{1F}')
    || c == '\U{85}'
    || c == '\U{A0}'
    || c == '\U{1680}'
    || ('\U{2000}' <= c <= '\U{200A}')
    || c == '\U{2028}'
    || c == '\U{2029}'
    || c == '\U{202F}'
    || c == '\U{205F}'
    || c == '\U{3000}'
  }

  /** A decimal digit (`\d`), restricted to ASCII. */
  predicate IsDigit(c: char) {
    '0' <= c <= '9'
  }

  /** The character classes the grammar uses: `\s`, `\S` and `\d`. */
  datatype Class = Space | NonSpace | Digit

  predicate In(k: Class, c: char) {
    match k
    case Space => IsSpace(c)
    case NonSpace => !IsSpace(c)
    case Digit => IsDigit(c)
  }

  /** Every character of `s` is in class `k`. */
  predicate All(k: Class, s: string) {
    forall i :: 0 <= i < |s| ==> In(k, s[i])
  }

  /** A frame line cut into its pieces: the captured fields `address`,
      `name`, `dlc` and `transmitter`, and the whitespace runs between
      them. */
  datatype Layout = Layout(
    gap1: string, address: string, gap2: string, name: string, gap3: string,
    gap4: string, dlc: string, gap5: string, transmitter: string, gap6: string)

  /** The line a layout spells out. */
  function Render(l: Layout): string {
    "BO_" + l.gap1 + l.address + l.gap2 + l.name + l.gap3 + ":" + l.gap4 + l.dlc + l.gap5 + l.transmitter + l.gap6
  }

  /** The text after `BO_`, with the pieces grouped as the recognizer
      finds them. */
  function Body(l: Layout): string {
    (((((((l.gap1 + (l.address + (l.gap2 + l.name))) + l.gap3) + ":") + l.gap4) + l.dlc) + l.gap5) + l.transmitter) + l.gap6
  }

  lemma RenderBody(l: Layout)
    ensures Render(l) == "BO_" + Body(l)
  {
  }

  /** Each piece matches its part of the pattern: at least one whitespace
      character after `BO_` and after the length code, non-empty digit runs
      for the address and the length code, non-empty whitespace-free name
      and transmitter, and whitespace only in the gaps. */
  predicate WellFormed(l: Layout) {
    && l.gap1 != [] && All(Space, l.gap1)
    && l.address != [] && All(Digit, l.address)
    && All(Space, l.gap2)
    && l.name != [] && All(NonSpace, l.name)
    && All(Space, l.gap3)
    && All(Space, l.gap4)
    && l.dlc != [] && All(Digit, l.dlc)
    && l.gap5 != [] && All(Space, l.gap5)
    && l.transmitter != [] && All(NonSpace, l.transmitter)
    && All(Space, l.gap6)
  }

  /** The grammar: `line` is a frame line. */
  ghost predicate IsFrameLine(line: string) {
    exists l :: WellFormed(l) && Render(l) == line
  }

  lemma SplitLast(s: string)
    requires s != []
    ensures s == s[..|s| - 1] + [s[|s| - 1]]
  {
  }

  /** Splits `s` into a rest and the longest suffix of `s` in class `k`. */
  function CutSuffix(k: Class, s: string): (r: (string, string))
    ensures r.0 + r.1 == s
    ensures All(k, r.1)
    ensures r.0 == [] || !In(k, r.0[|r.0| - 1])
    decreases |s|
  {
    if s == [] || !In(k, s[|s| - 1]) then (s, [])
    else
      var r' := CutSuffix(k, s[..|s| - 1]);
      assert s == s[..|s| - 1] + [s[|s| - 1]];
      (r'.0, r'.1 + [s[|s| - 1]])
  }

  /** Splits `s` into the longest prefix of `s` in class `k` and a rest. */
  function CutPrefix(k: Class, s: string): (r: (string, string))
    ensures r.0 + r.1 == s
    ensures All(k, r.0)
    ensures r.1 == [] || !In(k, r.1[0])
    decreases |s|
  {
    if s == [] || !In(k, s[0]) then ([], s)
    else
      var r' := CutPrefix(k, s[1..]);
      assert s == [s[0]] + s[1..];
      ([s[0]] + r'.0, r'.1)
  }

  /** `a` is the longest run of digits at the front of `i` that still
      leaves a character after it. This is where the greedy `\d+` of the
      address settles when it backtracks just far enough for the name. */
  predicate GreedyAddress(a: string, i: string) {
    && |a| < |i|
    && a <= i
    && All(Digit, a)
    && (|a| + 1 == |i| || !IsDigit(i[|a|]))
  }

  /** Splits the text that follows the whitespace after `BO_` into the
      address and the rest: the address is the longest digit run that leaves
      at least one character for the name. */
  function SplitAddress(i: string): (r: (string, string))
    ensures r.0 + r.1 == i
    ensures All(Digit, r.0)
    ensures i != [] ==> GreedyAddress(r.0, i)
  {
    var (digits, after) := CutPrefix(Digit, i);
    if after == [] && digits != [] then
      SplitLast(digits);
      (digits[..|digits| - 1], [digits[|digits| - 1]])
    else
      (digits, after)
  }

  /** Recognizes a frame line without backtracking. The trailing
      whitespace, the transmitter, the whitespace before it, the length code
      and the whitespace after the colon are cut off the end of the line in
      turn; the whitespace after `BO_`, the address and the whitespace before
      the name are cut off the front of what precedes the colon. When the
      name is glued to an all-digit address, the last digit becomes the
      name. */
  function Match(line: string): (r: Option<Layout>)
    ensures r.Some? ==> WellFormed(r.value) && Render(r.value) == line
  {
    if |line| < 3 || line[..3] != "BO_" then None
    else
      var (e, gap6) := CutSuffix(Space, line[3..]);
      var (b, transmitter) := CutSuffix(NonSpace, e);
      var (c, gap5) := CutSuffix(Space, b);
      var (d, dlc) := CutSuffix(Digit, c);
      var (f, gap4) := CutSuffix(Space, d);
      if transmitter == [] || gap5 == [] || dlc == [] || f == [] || f[|f| - 1] != ':' then None
      else
        var g := f[..|f| - 1];
        var (h, gap3) := CutSuffix(Space, g);
        var (gap1, i) := CutPrefix(Space, h);
        var (address, m) := SplitAddress(i);
        var (gap2, name) := CutPrefix(Space, m);
        if gap1 == [] || address == [] || name == [] || !All(NonSpace, name) then None
        else
          var l := Layout(gap1, address, gap2, name, gap3, gap4, dlc, gap5, transmitter, gap6);
          SplitLast(f);
          assert Body(l) == line[3..];
          RenderBody(l);
          assert line == line[..3] + line[3..];
          Some(l)
  }

  // ---------------------------------------------------------------------
  // The recognizer accepts exactly the frame lines

  /** Cutting the longest suffix in class `k` off `a + b` leaves `a` when
      `b` is in the class and `a` does not end in it. */
  lemma {:induction false} CutSuffixOf(k: Class, a: string, b: string)
    requires All(k, b)
    requires a == [] || !In(k, a[|a| - 1])
    ensures CutSuffix(k, a + b) == (a, b)
    decreases |b|
  {
    if b == [] {
      assert a + b == a;
    } else {
      var b' := b[..|b| - 1];
      assert (a + b)[..|a + b| - 1] == a + b';
      CutSuffixOf(k, a, b');
      assert b' + [b[|b| - 1]] == b;
    }
  }

  /** Cutting the longest prefix in class `k` off `a + b` leaves `b` when
      `a` is in the class and `b` does not start with it. */
  lemma {:induction false} CutPrefixOf(k: Class, a: string, b: string)
    requires All(k, a)
    requires b == [] || !In(k, b[0])
    ensures CutPrefix(k, a + b) == (a, b)
    decreases |a|
  {
    if a == [] {
      assert a + b == b;
    } else {
      assert (a + b)[1..] == a[1..] + b;
      CutPrefixOf(k, a[1..], b);
      assert [a[0]] + a[1..] == a;
    }
  }

  /** The longest prefix in class `k` of `a + b` covers all of `a` when `a`
      is in the class. */
  lemma {:induction false} CutPrefixCovers(k: Class, a: string, b: string)
    requires All(k, a)
    ensures |a| <= |CutPrefix(k, a + b).0|
    decreases |a|
  {
    if a != [] {
      assert (a + b)[1..] == a[1..] + b;
      CutPrefixCovers(k, a[1..], b);
    }
  }

  lemma LastOf(a: string, b: string)
    requires b != []
    ensures (a + b)[|a + b| - 1] == b[|b| - 1]
  {
  }

  /** The text before the colon's whitespace: `gap1`, address, `gap2`, name. */
  function Head(l: Layout): string {
    l.gap1 + (l.address + (l.gap2 + l.name))
  }

  /** The body of a frame line up to and including its colon. */
  function Colon(l: Layout): string {
    Head(l) + l.gap3 + ":"
  }

  /** Cutting from the end of a frame line's body finds its trailing
      whitespace, transmitter and the whitespace before it, in turn. */
  lemma CutsTrailer(l: Layout)
    requires WellFormed(l)
    ensures var c := Colon(l) + l.gap4 + l.dlc;
            var b := c + l.gap5;
            var e := b + l.transmitter;
            && Body(l) == e + l.gap6
            && CutSuffix(Space, e + l.gap6) == (e, l.gap6)
            && CutSuffix(NonSpace, e) == (b, l.transmitter)
            && CutSuffix(Space, b) == (c, l.gap5)
  {
    var c := Colon(l) + l.gap4 + l.dlc;
    var b := c + l.gap5;
    var e := b + l.transmitter;
    LastOf(b, l.transmitter);
    CutSuffixOf(Space, e, l.gap6);
    LastOf(c, l.gap5);
    CutSuffixOf(NonSpace, b, l.transmitter);
    LastOf(Colon(l) + l.gap4, l.dlc);
    CutSuffixOf(Space, c, l.gap5);
  }

  /** Cutting further from the end finds the length code, the whitespace
      after the colon, the colon, and the whitespace before it. */
  lemma CutsColon(l: Layout)
    requires WellFormed(l)
    ensures var f := Colon(l);
            var d := f + l.gap4;
            && CutSuffix(Digit, d + l.dlc) == (d, l.dlc)
            && CutSuffix(Space, d) == (f, l.gap4)
            && f[..|f| - 1] == Head(l) + l.gap3
            && CutSuffix(Space, Head(l) + l.gap3) == (Head(l), l.gap3)
  {
    var h := Head(l);
    var f := Colon(l);
    var d := f + l.gap4;
    if l.gap4 != [] {
      LastOf(f, l.gap4);
    } else {
      assert d == f;
    }
    CutSuffixOf(Digit, d, l.dlc);
    CutSuffixOf(Space, f, l.gap4);
    LastOf(l.gap1 + l.address + l.gap2, l.name);
    assert h == l.gap1 + l.address + l.gap2 + l.name;
    CutSuffixOf(Space, h, l.gap3);
  }

  /** A suffix of `y` inherits its class. */
  lemma SuffixAll(k: Class, x: string, y: string, t: string)
    requires All(k, y) && |t| <= |y| && t == (x + y)[|x + y| - |t|..]
    ensures All(k, t)
  {
  }

  /** No digit run at the front of `i` that leaves a character after it
      is longer than the greedy one. */
  lemma GreedyIsLongest(a: string, b: string, i: string)
    requires GreedyAddress(a, i)
    requires b <= i && All(Digit, b) && |b| < |i|
    ensures |b| <= |a|
  {
    assert forall k :: 0 <= k < |b| ==> i[k] == b[k];
  }

  /** There is only one greedy address. */
  lemma GreedyUnique(a: string, b: string, i: string)
    requires GreedyAddress(a, i) && GreedyAddress(b, i)
    ensures a == b
  {
    GreedyIsLongest(a, b, i);
    GreedyIsLongest(b, a, i);
  }

  /** When whitespace separates the address from the name, the address is
      the whole digit run. */
  lemma SplitAddressSeparated(address: string, m: string)
    requires All(Digit, address) && m != [] && IsSpace(m[0])
    ensures SplitAddress(address + m) == (address, m)
  {
    CutPrefixOf(Digit, address, m);
  }

  /** When the name is glued to the address, the split still leaves a
      non-empty address and a non-empty, whitespace-free name. */
  lemma SplitAddressGlued(address: string, name: string)
    requires address != [] && All(Digit, address)
    requires name != [] && All(NonSpace, name)
    ensures SplitAddress(address + name).0 != []
    ensures SplitAddress(address + name).1 != []
    ensures All(NonSpace, SplitAddress(address + name).1)
  {
    var i := address + name;
    var r := CutPrefix(Digit, i);
    CutPrefixCovers(Digit, address, name);
    var t := SplitAddress(i).1;
    if r.1 == [] {
      assert r.0 == i;
      assert t == [name[|name| - 1]];
    } else {
      assert t == r.1 == i[|r.0|..];
      SuffixAll(NonSpace, address, name, t);
    }
  }

  /** Cutting from the front of the text before the colon finds the
      whitespace after `BO_`, an address and a whitespace-free name. */
  lemma CutsFromFront(l: Layout)
    requires WellFormed(l)
    ensures CutPrefix(Space, Head(l)) == (l.gap1, l.address + (l.gap2 + l.name))
    ensures SplitAddress(l.address + (l.gap2 + l.name)).0 != []
    ensures CutPrefix(Space, SplitAddress(l.address + (l.gap2 + l.name)).1).1 != []
    ensures All(NonSpace, CutPrefix(Space, SplitAddress(l.address + (l.gap2 + l.name)).1).1)
  {
    var m := l.gap2 + l.name;
    CutPrefixOf(Space, l.gap1, l.address + m);
    if l.gap2 != [] {
      SplitAddressSeparated(l.address, m);
      CutPrefixOf(Space, l.gap2, l.name);
    } else {
      assert m == l.name;
      SplitAddressGlued(l.address, l.name);
      var t := SplitAddress(l.address + m).1;
      CutPrefixOf(Space, [], t);
      assert [] + t == t;
    }
  }

  /** The layout `Match` finds in a frame line: the one it was built from,
      except that the address, the whitespace after it and the name are
      found again from their concatenation. */
  function Refound(l: Layout): Layout {
    var i := l.address + (l.gap2 + l.name);
    Layout(l.gap1, SplitAddress(i).0, CutPrefix(Space, SplitAddress(i).1).0,
           CutPrefix(Space, SplitAddress(i).1).1, l.gap3, l.gap4, l.dlc, l.gap5, l.transmitter, l.gap6)
  }

  lemma MatchRender(l: Layout)
    requires WellFormed(l)
    ensures Match(Render(l)) == Some(Refound(l))
  {
    var line := Render(l);
    RenderBody(l);
    assert line[..3] == "BO_" && line[3..] == Body(l);
    CutsTrailer(l);
    CutsColon(l);
    CutsFromFront(l);
  }

  /** An address followed by whitespace is greedy. */
  lemma SeparatedIsGreedy(l: Layout)
    requires WellFormed(l) && l.gap2 != []
    ensures GreedyAddress(l.address, l.address + (l.gap2 + l.name))
  {
    var i := l.address + (l.gap2 + l.name);
    assert i[|l.address|] == l.gap2[0];
    assert l.address <= i;
  }

  /** The fields found again keep the text they came from, with the greedy
      address, and are the originals when the original address is greedy. */
  lemma RefoundGreedy(l: Layout)
    requires WellFormed(l)
    ensures Refound(l).(address := l.address, gap2 := l.gap2, name := l.name) == l
    ensures Refound(l).address + (Refound(l).gap2 + Refound(l).name) == l.address + (l.gap2 + l.name)
    ensures GreedyAddress(Refound(l).address, l.address + (l.gap2 + l.name))
    ensures |l.address| <= |Refound(l).address|
    ensures GreedyAddress(l.address, l.address + (l.gap2 + l.name)) ==> Refound(l) == l
  {
    var i := l.address + (l.gap2 + l.name);
    var a := SplitAddress(i).0;
    GreedyIsLongest(a, l.address, i);
    if GreedyAddress(l.address, i) {
      GreedyUnique(l.address, a, i);
      assert SplitAddress(i).1 == i[|a|..] == l.gap2 + l.name;
      CutPrefixOf(Space, l.gap2, l.name);
    }
  }

  /** Every frame line is recognized. Whatever decomposition the line was
      built from, the recognizer returns the same whitespace runs, length
      code and transmitter, and the same text for the address, the
      whitespace after it and the name together. Its address is the greedy
      one, at least as long as the one the line was built from. So a
      decomposition with the greedy address, which is the one the regular
      expression's backtracking settles on, is returned exactly. */
  lemma MatchComplete(l: Layout)
    requires WellFormed(l)
    ensures Match(Render(l)).Some?
    ensures Match(Render(l)).value.(address := l.address, gap2 := l.gap2, name := l.name) == l
    ensures Match(Render(l)).value.address + (Match(Render(l)).value.gap2 + Match(Render(l)).value.name)
         == l.address + (l.gap2 + l.name)
    ensures GreedyAddress(Match(Render(l)).value.address, l.address + (l.gap2 + l.name))
    ensures |l.address| <= |Match(Render(l)).value.address|
    ensures GreedyAddress(l.address, l.address + (l.gap2 + l.name)) ==> Match(Render(l)).value == l
    ensures l.gap2 != [] ==> Match(Render(l)).value == l
  {
    MatchRender(l);
    RefoundGreedy(l);
    if l.gap2 != [] {
      SeparatedIsGreedy(l);
    }
  }

  /** `Match` accepts exactly the lines of the frame line grammar. */
  lemma MatchIffFrameLine(line: string)
    ensures Match(line).Some? <==> IsFrameLine(line)
  {
    if IsFrameLine(line) {
      var l :| WellFormed(l) && Render(l) == line;
      MatchComplete(l);
    }
  }
}
