/**
 * Single lines and a small program worked through the model, each stated
 * through the general lemmas of Encoder and Assembly.
 */
module Scenarios {
  import opened Wrappers
  import opened Widths
  import opened Catalog
  import opened Text
  import opened Encoder
  import opened Assembly

  // ---------------------------------------------------------------------------
  // Text of the lines

  lemma TwoWords(a: string, b: string)
    ensures Unwords([a, b]) == a + " " + b
  {
    assert [a, b][1..] == [b];
  }

  lemma ThreeWords(a: string, b: string, c: string)
    ensures Unwords([a, b, c]) == a + " " + b + " " + c
  {
    assert [a, b, c][1..] == [b, c];
    TwoWords(b, c);
  }

  lemma TwoTokens(a: string, b: string)
    requires IsWord(a) && IsWord(b)
    ensures Tokens(a + " " + b) == [a, b]
  {
    TwoWords(a, b);
    TokensUnwords([a, b]);
  }

  lemma AdcaImmediateText()
    ensures RenderLine("", "ADCA", Imm(5)) == "ADCA #5"
  {
    assert Numeral(5, 10) == "5";
    assert SyntaxToken(Imm(5)) == "#5";
    assert RenderLine("", "ADCA", Imm(5)) == Unwords(["ADCA", "#5"]);
    TwoWords("ADCA", "#5");
  }

  lemma AdcaIndexedXText()
    ensures RenderLine("", "ADCA", IdxX(16)) == "ADCA 16,X"
  {
    assert Numeral(1, 10) == "1";
    assert Numeral(16, 10) == Numeral(1, 10) + [DigitChar(6)] == "16";
    assert SyntaxToken(IdxX(16)) == "16,X";
    assert RenderLine("", "ADCA", IdxX(16)) == Unwords(["ADCA", "16,X"]);
    TwoWords("ADCA", "16,X");
  }

  lemma OrgText()
    ensures RenderLine("", "ORG", Ext(256)) == "ORG $100"
  {
    assert Numeral(1, 16) == "1";
    assert Numeral(16, 16) == Numeral(1, 16) + [DigitChar(0)] == "10";
    assert Numeral(256, 16) == Numeral(16, 16) + [DigitChar(0)] == "100";
    assert SyntaxToken(Ext(256)) == "$100";
    assert RenderLine("", "ORG", Ext(256)) == Unwords(["ORG", "$100"]);
    TwoWords("ORG", "$100");
  }

  lemma OrgDecimalText(line: string)
    requires line == "ORG 100"
    ensures line == RenderLine("", "ORG", Dir(100))
  {
    assert Numeral(1, 10) == "1";
    assert Numeral(10, 10) == Numeral(1, 10) + [DigitChar(0)] == "10";
    assert Numeral(100, 10) == Numeral(10, 10) + [DigitChar(0)] == "100";
    assert RenderLine("", "ORG", Dir(100)) == Unwords(["ORG", "100"]);
    TwoWords("ORG", "100");
  }

  lemma BranchText(name: string, mnemonic: string, target: string)
    ensures RenderLine(name, mnemonic, Branch(target)) ==
      if name == "" then mnemonic + " " + target else name + " " + mnemonic + " " + target
  {
    if name == "" {
      assert [] + [mnemonic] + [SyntaxToken(Branch(target))] == [mnemonic, target];
      TwoWords(mnemonic, target);
    } else {
      assert [name] + [mnemonic] + [SyntaxToken(Branch(target))] == [name, mnemonic, target];
      ThreeWords(name, mnemonic, target);
    }
  }

  lemma BraStartText(line: string)
    requires line == "BRA START"
    ensures line == RenderLine("", "BRA", Branch("START"))
  {
    BranchText("", "BRA", "START");
  }

  lemma StartAbaText(line: string)
    requires line == "START ABA"
    ensures line == RenderLine("START", "ABA", NoOperand)
  {
    assert ["START"] + ["ABA"] + [] == ["START", "ABA"];
    TwoWords("START", "ABA");
  }

  // ---------------------------------------------------------------------------
  // Bytes read from the catalog

  /** ADCA is entry 4, found by its mnemonic, with immediate and X-indexed forms. */
  lemma AdcaEntry()
    ensures 4 < |AllInstructions| && AllInstructions[4].mnemonic == "ADCA"
    ensures GetInstructionByMnemonic(AllInstructions[4].mnemonic) == Some(4)
    ensures AllInstructions[4].IsAddressingModeSupported(Immediate)
    ensures AllInstructions[4].IsAddressingModeSupported(IndexedX)
  {
    LookupFinds("ADCA", 4);
  }

  lemma AdcaImmediateBytes()
    ensures SyntaxBytes(4, Imm(5)) == [0x89, 0x05]
  {
    assert AllInstructions[4].opcodes[Immediate] == Operation([0x89], 1);
  }

  lemma AdcaIndexedXBytes()
    ensures SyntaxBytes(4, IdxX(16)) == [0xA9, 0x10]
  {
    assert AllInstructions[4].opcodes[IndexedX] == Operation([0xA9], 1);
  }

  /** ABA is entry 1, found by its mnemonic, with no relative form. */
  lemma AbaEntry()
    ensures 1 < |AllInstructions| && AllInstructions[1].mnemonic == "ABA"
    ensures GetInstructionByMnemonic(AllInstructions[1].mnemonic) == Some(1)
    ensures !AllInstructions[1].IsAddressingModeSupported(Relative)
    ensures AllInstructions[1].IsAddressingModeSupported(Inherent)
    ensures SyntaxBytes(1, NoOperand) == [0x1B]
  {
    LookupFinds("ABA", 1);
    assert AllInstructions[1].opcodes == map[Inherent := Operation([0x1B], 0)];
  }

  // ---------------------------------------------------------------------------
  // Single lines

  /** The first line of a text: immediate ADCA encodes its opcode and the value's low byte, at offset 0. */
  lemma AdcaImmediate(line: string)
    requires line == "ADCA #5"
    ensures EncodeLine(None, line) == Ok(Column("", line, Some(4), Some(Immediate), [0x89, 0x05], 0))
  {
    AdcaEntry();
    AdcaImmediateText();
    AdcaImmediateBytes();
    AssembleRendered(None, "", 4, Imm(5));
  }

  /** Indexed by X after a line ending at 0x10: the offset grows by the two bytes. */
  lemma AdcaIndexedX(line: string)
    requires line == "ADCA 16,X"
    ensures EncodeLine(Some(0x10), line) ==
      Ok(Column("", line, Some(4), Some(IndexedX), [0xA9, 0x10], 0x12))
  {
    AdcaEntry();
    AdcaIndexedXText();
    AdcaIndexedXBytes();
    AssembleRendered(Some(0x10), "", 4, IdxX(16));
  }

  /** ORG with a hexadecimal operand sets the offset to its value and emits nothing. */
  lemma OrgSetsOffset(line: string)
    requires line == "ORG $100"
    ensures EncodeLine(Some(7), line) == Ok(Column("", line, Some(OrgIndex), Some(Extended), [], 0x100))
  {
    LookupFinds("ORG", 0);
    OrgText();
    AssembleRendered(Some(7), "", 0, Ext(256));
  }

  /** LDAA is not in the catalog, and neither is the token after it. */
  lemma UnknownMnemonic(line: string)
    requires line == "LDAA #5"
    ensures EncodeLine(None, line) == Err(InvalidInstructionMnemonic)
  {
    assert line == "LDAA" + " " + "#5";
    TwoTokens("LDAA", "#5");
    LookupMissesByInitial("LDAA");
    LookupMissesByInitial("#5");
    MnemonicRejected(None, line);
  }

  /** A first token that starts like a number is an invalid label. */
  lemma NumericLabel(line: string)
    requires line == "9FOO ABA"
    ensures EncodeLine(None, line) == Err(InvalidLabelName)
  {
    assert line == "9FOO" + " " + "ABA";
    TwoTokens("9FOO", "ABA");
    LookupMissesByInitial("9FOO");
    LabelNameRejected(None, line);
  }

  /** ABA takes no operand: a label operand asks for the relative mode it lacks. */
  lemma InherentWithOperand(line: string)
    requires line == "ABA LOOP"
    ensures EncodeLine(None, line) == Err(InvalidAddressingMode)
  {
    AbaEntry();
    assert line == "ABA" + " " + "LOOP";
    BranchText("", "ABA", "LOOP");
    RenderedParses("", 1, Branch("LOOP"));
    ModeRejected(None, line, Statement("", 1, Some("LOOP")), Operand(Relative, "LOOP"));
  }

  /** ORG has only the extended form: a decimal operand asks for the direct mode it lacks. */
  lemma OrgDecimal(line: string)
    requires line == "ORG 100"
    ensures EncodeLine(None, line) == Err(InvalidAddressingMode)
  {
    OrgEntry();
    OrgDecimalText(line);
    RenderedParses("", OrgIndex, Dir(100));
    var token := SyntaxToken(Dir(100));
    DecimalMode(100, [], Direct);
    assert Numeral(100, 10) + [] == token;
    ModeRejected(None, line, Statement("", OrgIndex, Some(token)), Operand(Direct, token));
  }

  /** A labelled line: the label is accepted and the first line stays at offset 0. */
  lemma LabelledAba(line: string)
    requires line == "START ABA"
    ensures EncodeLine(None, line) == Ok(Column("START", line, Some(1), Some(Inherent), [0x1B], 0))
  {
    AbaEntry();
    LookupMissesByInitial("START");
    assert IsLabelName("START");
    StartAbaText(line);
    AssembleRendered(None, "START", 1, NoOperand);
  }

  /** BRA is entry 35, whose opcode is BPL's; the branch bytes are the opcode and a 0xFF placeholder. */
  lemma BraEntry()
    ensures 35 < |AllInstructions| && AllInstructions[35].mnemonic == "BRA"
    ensures GetInstructionByMnemonic(AllInstructions[35].mnemonic) == Some(35)
    ensures AllInstructions[35].IsAddressingModeSupported(Relative)
    ensures SyntaxBytes(35, Branch("START")) == [0x2A, 0xFF]
  {
    BraEncodesAsBpl();
  }

  /** An unlabelled branch after a one-byte line: two bytes, offset 0 + 2. */
  lemma BranchToStart(line: string)
    requires line == "BRA START"
    ensures EncodeLine(Some(0), line) == Ok(Column("", line, Some(35), Some(Relative), [0x2A, 0xFF], 2))
  {
    BraEntry();
    BraStartText(line);
    AssembleRendered(Some(0), "", 35, Branch("START"));
  }

  // ---------------------------------------------------------------------------
  // A program

  /** The text's two lines. */
  lemma ProgramLines(text: string, first: string, second: string)
    requires text == "START ABA\nBRA START" && first == "START ABA" && second == "BRA START"
    ensures GetLines(text) == [first, second]
  {
    assert text == (first + "\n") + second;
    GetLinesLeadingLine(first, second);
    OneLine(second);
  }

  /** Two lines that both encode: both columns are kept and both may write the table. */
  lemma RunTwo(encode: LineEncoder, p1: string, p2: string, c0: Column, c1: Column)
    requires encode(None, p1) == Ok(c0) && encode(Some(c0.offset), p2) == Ok(c1)
    ensures RunWith(encode, [], map[], [p1, p2]) ==
      Outcome([c0, c1], RecordLabel(RecordLabel(map[], None, c0), Some(c0.offset), c1), None)
  {
    assert [p1, p2] == [p1] + [p2];
    RunStep(encode, [], map[], p1, [p2], Ok(c0));
    assert [] + [c0] == [c0];
    assert [p2] == [p2] + [];
    RunStep(encode, [c0], RecordLabel(map[], None, c0), p2, [], Ok(c1));
  }

  /** The two lines' columns: ABA at 0, then BRA two bytes on. */
  lemma ProgramColumns(first: string, second: string, c0: Column, c1: Column)
    requires first == "START ABA" && second == "BRA START"
    requires c0 == Column("START", first, Some(1), Some(Inherent), [0x1B], 0)
    requires c1 == Column("", second, Some(35), Some(Relative), [0x2A, 0xFF], 2)
    ensures EncodeLine(None, first) == Ok(c0)
    ensures EncodeLine(Some(c0.offset), second) == Ok(c1)
  {
    LabelledAba(first);
    BranchToStart(second);
  }

  /** Only the branch line writes the table, under its own (empty) label, at offset 0. */
  lemma ProgramLabels(c0: Column, c1: Column)
    requires c0 == Column("START", "START ABA", Some(1), Some(Inherent), [0x1B], 0)
    requires c1 == Column("", "BRA START", Some(35), Some(Relative), [0x2A, 0xFF], 2)
    ensures RecordLabel(RecordLabel(map[], None, c0), Some(c0.offset), c1) == map["" := 0]
  {
  }

  /**
   * "START ABA" then "BRA START": two columns at offsets 0 and 2, BRA emitted
   * as 0x2A; the branch line writes the label table under its own empty label,
   * at the offset the line starts from, and START is never recorded.
   */
  lemma BranchBack(text: string, first: string, second: string, c0: Column, c1: Column)
    requires text == "START ABA\nBRA START" && first == "START ABA" && second == "BRA START"
    requires c0 == Column("START", first, Some(1), Some(Inherent), [0x1B], 0)
    requires c1 == Column("", second, Some(35), Some(Relative), [0x2A, 0xFF], 2)
    ensures Run([], map[], GetLines(text)) == Outcome([c0, c1], map["" := 0], None)
    ensures "START" !in Run([], map[], GetLines(text)).labels
  {
    ProgramLines(text, first, second);
    ProgramColumns(first, second, c0, c1);
    RunTwo(EncodeLine, first, second, c0, c1);
    ProgramLabels(c0, c1);
  }
}
