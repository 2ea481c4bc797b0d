/** Frame lines quoted next to `MessageParser.REGEX` and used by the unit
    tests of the line classes, with the captures the pattern gives. */
module FrameScenarios {
  import opened FrameLine

  /** Printable ASCII other than the space holds no whitespace. */
  lemma Visible(s: string)
    requires forall i :: 0 <= i < |s| ==> '!' <= s[i] <= '~'
    ensures All(NonSpace, s)
  {
  }

  // Frame lines from the examples next to the pattern and from the unit
  // tests of the frame line. Each layout holds the captures the tests
  // expect; the string literals are built up piece by piece, as comparing
  // long literals at once is costly for the verifier.

  /** The layout of the first frame line quoted next to the pattern. */
  function LongLine(): Layout {
    Layout(" ", "2566903475", " ", "ConverterInputOutput", "", " ", "8", " ", "DCDC", "")
  }

  lemma LongLineWellFormed()
    ensures WellFormed(LongLine())
  {
    Visible(LongLine().name);
    Visible(LongLine().transmitter);
  }

  lemma LongLineAddress()
    ensures var l := LongLine(); "BO_" + l.gap1 + l.address == "BO_ 2566903475"
  {
    var l := LongLine();
    assert "BO_" + l.gap1 == "BO_ ";
    assert "BO_ " + l.address == "BO_ 2566903475";
  }

  lemma LongLineHead()
    ensures var l := LongLine(); "BO_" + l.gap1 + l.address + l.gap2 + l.name == "BO_ 2566903475 ConverterInputOutput"
  {
    var l := LongLine();
    LongLineAddress();
    assert "BO_ 2566903475" + l.gap2 == "BO_ 2566903475 ";
    assert "BO_ 2566903475 " + l.name == "BO_ 2566903475 ConverterInputOutput";
  }

  lemma LongLineRenders()
    ensures Render(LongLine()) == "BO_ 2566903475 ConverterInputOutput: 8 DCDC"
  {
    var l := LongLine();
    LongLineHead();
    assert "BO_ 2566903475 ConverterInputOutput" + l.gap3 == "BO_ 2566903475 ConverterInputOutput";
    assert "BO_ 2566903475 ConverterInputOutput" + ":" == "BO_ 2566903475 ConverterInputOutput:";
    assert "BO_ 2566903475 ConverterInputOutput:" + l.gap4 == "BO_ 2566903475 ConverterInputOutput: ";
    assert "BO_ 2566903475 ConverterInputOutput: " + l.dlc == "BO_ 2566903475 ConverterInputOutput: 8";
    assert "BO_ 2566903475 ConverterInputOutput: 8" + l.gap5 == "BO_ 2566903475 ConverterInputOutput: 8 ";
    assert "BO_ 2566903475 ConverterInputOutput: 8 " + l.transmitter == "BO_ 2566903475 ConverterInputOutput: 8 DCDC";
    assert "BO_ 2566903475 ConverterInputOutput: 8 DCDC" + l.gap6 == "BO_ 2566903475 ConverterInputOutput: 8 DCDC";
  }

  lemma LongLineMatches()
    ensures Match("BO_ 2566903475 ConverterInputOutput: 8 DCDC") == Some(LongLine())
  {
    LongLineWellFormed();
    LongLineRenders();
    MatchComplete(LongLine());
  }

  /** The layout of the second frame line quoted next to the pattern. */
  function ShortLine(): Layout {
    Layout(" ", "1258", " ", "PDORx4_Inv1", "", " ", "8", " ", "INV_1", "")
  }

  lemma ShortLineWellFormed()
    ensures WellFormed(ShortLine())
  {
    Visible(ShortLine().name);
    Visible(ShortLine().transmitter);
  }

  lemma ShortLineAddress()
    ensures var l := ShortLine(); "BO_" + l.gap1 + l.address == "BO_ 1258"
  {
    var l := ShortLine();
    assert "BO_" + l.gap1 == "BO_ ";
    assert "BO_ " + l.address == "BO_ 1258";
  }

  lemma ShortLineHead()
    ensures var l := ShortLine(); "BO_" + l.gap1 + l.address + l.gap2 + l.name == "BO_ 1258 PDORx4_Inv1"
  {
    var l := ShortLine();
    ShortLineAddress();
    assert "BO_ 1258" + l.gap2 == "BO_ 1258 ";
    assert "BO_ 1258 " + l.name == "BO_ 1258 PDORx4_Inv1";
  }

  lemma ShortLineRenders()
    ensures Render(ShortLine()) == "BO_ 1258 PDORx4_Inv1: 8 INV_1"
  {
    var l := ShortLine();
    ShortLineHead();
    assert "BO_ 1258 PDORx4_Inv1" + l.gap3 == "BO_ 1258 PDORx4_Inv1";
    assert "BO_ 1258 PDORx4_Inv1" + ":" == "BO_ 1258 PDORx4_Inv1:";
    assert "BO_ 1258 PDORx4_Inv1:" + l.gap4 == "BO_ 1258 PDORx4_Inv1: ";
    assert "BO_ 1258 PDORx4_Inv1: " + l.dlc == "BO_ 1258 PDORx4_Inv1: 8";
    assert "BO_ 1258 PDORx4_Inv1: 8" + l.gap5 == "BO_ 1258 PDORx4_Inv1: 8 ";
    assert "BO_ 1258 PDORx4_Inv1: 8 " + l.transmitter == "BO_ 1258 PDORx4_Inv1: 8 INV_1";
    assert "BO_ 1258 PDORx4_Inv1: 8 INV_1" + l.gap6 == "BO_ 1258 PDORx4_Inv1: 8 INV_1";
  }

  lemma ShortLineMatches()
    ensures Match("BO_ 1258 PDORx4_Inv1: 8 INV_1") == Some(ShortLine())
  {
    ShortLineWellFormed();
    ShortLineRenders();
    MatchComplete(ShortLine());
  }

  /** The layout of the third frame line quoted next to the pattern. */
  function VectorLine(): Layout {
    Layout(" ", "263", " ", "Batt107", "", " ", "4", " ", "Vector__XXX", "")
  }

  lemma VectorLineWellFormed()
    ensures WellFormed(VectorLine())
  {
    Visible(VectorLine().name);
    Visible(VectorLine().transmitter);
  }

  lemma VectorLineAddress()
    ensures var l := VectorLine(); "BO_" + l.gap1 + l.address == "BO_ 263"
  {
    var l := VectorLine();
    assert "BO_" + l.gap1 == "BO_ ";
    assert "BO_ " + l.address == "BO_ 263";
  }

  lemma VectorLineHead()
    ensures var l := VectorLine(); "BO_" + l.gap1 + l.address + l.gap2 + l.name == "BO_ 263 Batt107"
  {
    var l := VectorLine();
    VectorLineAddress();
    assert "BO_ 263" + l.gap2 == "BO_ 263 ";
    assert "BO_ 263 " + l.name == "BO_ 263 Batt107";
  }

  lemma VectorLineRenders()
    ensures Render(VectorLine()) == "BO_ 263 Batt107: 4 Vector__XXX"
  {
    var l := VectorLine();
    VectorLineHead();
    assert "BO_ 263 Batt107" + l.gap3 == "BO_ 263 Batt107";
    assert "BO_ 263 Batt107" + ":" == "BO_ 263 Batt107:";
    assert "BO_ 263 Batt107:" + l.gap4 == "BO_ 263 Batt107: ";
    assert "BO_ 263 Batt107: " + l.dlc == "BO_ 263 Batt107: 4";
    assert "BO_ 263 Batt107: 4" + l.gap5 == "BO_ 263 Batt107: 4 ";
    assert "BO_ 263 Batt107: 4 " + l.transmitter == "BO_ 263 Batt107: 4 Vector__XXX";
    assert "BO_ 263 Batt107: 4 Vector__XXX" + l.gap6 == "BO_ 263 Batt107: 4 Vector__XXX";
  }

  lemma VectorLineMatches()
    ensures Match("BO_ 263 Batt107: 4 Vector__XXX") == Some(VectorLine())
  {
    VectorLineWellFormed();
    VectorLineRenders();
    MatchComplete(VectorLine());
  }

  /** The same line as the tokenizer yields it, with its newline. */
  function NewlineLine(): Layout {
    VectorLine().(gap6 := "\n")
  }

  lemma NewlineLineWellFormed()
    ensures WellFormed(NewlineLine())
  {
    VectorLineWellFormed();
  }

  lemma NewlineLineRenders()
    ensures Render(NewlineLine()) == "BO_ 263 Batt107: 4 Vector__XXX\n"
  {
    VectorLineRenders();
    assert Render(NewlineLine()) == Render(VectorLine()) + "\n";
  }

  lemma NewlineLineMatches()
    ensures Match("BO_ 263 Batt107: 4 Vector__XXX\n") == Some(NewlineLine())
  {
    NewlineLineWellFormed();
    NewlineLineRenders();
    MatchComplete(NewlineLine());
  }

  /** The layout of a frame line with whitespace wherever the pattern allows it. */
  function WideLine(): Layout {
    Layout("  ", "263", "  ", "Batt107", "  ", "  ", "4", "  ", "Vector__XXX", "  ")
  }

  lemma WideLineWellFormed()
    ensures WellFormed(WideLine())
  {
    Visible(WideLine().name);
    Visible(WideLine().transmitter);
  }

  lemma WideLineAddress()
    ensures var l := WideLine(); "BO_" + l.gap1 + l.address == "BO_  263"
  {
    var l := WideLine();
    assert "BO_" + l.gap1 == "BO_  ";
    assert "BO_  " + l.address == "BO_  263";
  }

  lemma WideLineHead()
    ensures var l := WideLine(); "BO_" + l.gap1 + l.address + l.gap2 + l.name == "BO_  263  Batt107"
  {
    var l := WideLine();
    WideLineAddress();
    assert "BO_  263" + l.gap2 == "BO_  263  ";
    assert "BO_  263  " + l.name == "BO_  263  Batt107";
  }

  lemma WideLineRenders()
    ensures Render(WideLine()) == "BO_  263  Batt107  :  4  Vector__XXX  "
  {
    var l := WideLine();
    WideLineHead();
    assert "BO_  263  Batt107" + l.gap3 == "BO_  263  Batt107  ";
    assert "BO_  263  Batt107  " + ":" == "BO_  263  Batt107  :";
    assert "BO_  263  Batt107  :" + l.gap4 == "BO_  263  Batt107  :  ";
    assert "BO_  263  Batt107  :  " + l.dlc == "BO_  263  Batt107  :  4";
    assert "BO_  263  Batt107  :  4" + l.gap5 == "BO_  263  Batt107  :  4  ";
    assert "BO_  263  Batt107  :  4  " + l.transmitter == "BO_  263  Batt107  :  4  Vector__XXX";
    assert "BO_  263  Batt107  :  4  Vector__XXX" + l.gap6 == "BO_  263  Batt107  :  4  Vector__XXX  ";
  }

  lemma WideLineMatches()
    ensures Match("BO_  263  Batt107  :  4  Vector__XXX  ") == Some(WideLine())
  {
    WideLineWellFormed();
    WideLineRenders();
    MatchComplete(WideLine());
  }

  /** The layout of a frame line with only the whitespace the pattern demands, none
      around the colon. */
  function TightLine(): Layout {
    Layout(" ", "263", " ", "Batt107", "", "", "4", " ", "Vector__XXX", "")
  }

  lemma TightLineWellFormed()
    ensures WellFormed(TightLine())
  {
    Visible(TightLine().name);
    Visible(TightLine().transmitter);
  }

  lemma TightLineAddress()
    ensures var l := TightLine(); "BO_" + l.gap1 + l.address == "BO_ 263"
  {
    var l := TightLine();
    assert "BO_" + l.gap1 == "BO_ ";
    assert "BO_ " + l.address == "BO_ 263";
  }

  lemma TightLineHead()
    ensures var l := TightLine(); "BO_" + l.gap1 + l.address + l.gap2 + l.name == "BO_ 263 Batt107"
  {
    var l := TightLine();
    TightLineAddress();
    assert "BO_ 263" + l.gap2 == "BO_ 263 ";
    assert "BO_ 263 " + l.name == "BO_ 263 Batt107";
  }

  lemma TightLineRenders()
    ensures Render(TightLine()) == "BO_ 263 Batt107:4 Vector__XXX"
  {
    var l := TightLine();
    TightLineHead();
    assert "BO_ 263 Batt107" + l.gap3 == "BO_ 263 Batt107";
    assert "BO_ 263 Batt107" + ":" == "BO_ 263 Batt107:";
    assert "BO_ 263 Batt107:" + l.gap4 == "BO_ 263 Batt107:";
    assert "BO_ 263 Batt107:" + l.dlc == "BO_ 263 Batt107:4";
    assert "BO_ 263 Batt107:4" + l.gap5 == "BO_ 263 Batt107:4 ";
    assert "BO_ 263 Batt107:4 " + l.transmitter == "BO_ 263 Batt107:4 Vector__XXX";
    assert "BO_ 263 Batt107:4 Vector__XXX" + l.gap6 == "BO_ 263 Batt107:4 Vector__XXX";
  }

  lemma TightLineMatches()
    ensures Match("BO_ 263 Batt107:4 Vector__XXX") == Some(TightLine())
  {
    TightLineWellFormed();
    TightLineRenders();
    MatchComplete(TightLine());
  }
}
