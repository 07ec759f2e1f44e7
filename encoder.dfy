/**
 * What Assembler::AssembleSingleLine computes for one line, as functions:
 * tokenise, tell a label from a mnemonic, infer the addressing mode from the
 * operand's first and last characters, emit opcode and operand bytes, and
 * advance the running offset. The thrown std::runtime_error messages and the
 * undefined-behaviour cases become AsmError values.
 */
module Encoder {
  import opened Wrappers
  import opened Widths
  import opened Catalog
  import opened Text

  datatype AsmError =
    | InvalidLabelName            // "Invalid label name"
    | InvalidInstructionMnemonic  // "Invalid instruction mnemonic"
    | InvalidAddressingMode       // "Invalid addressing mode" (out_of_range from opcodes.at)
    | MalformedNumber             // std::invalid_argument from std::stoul, not caught
    | MissingMnemonic             // a single non-mnemonic token: tokens[1] is read past the end
    | EmptyOperand                // the operand "#": back() of an empty string

  /**
   * One assembled line. `labelName` is the source's `label` field (`label` is
   * a keyword in Dafny); `instruction` is an index into AllInstructions (None
   * for a blank line); `mode` is None on a blank line, whose mode the source
   * leaves zero-initialised.
   */
  datatype Column = Column(
    labelName: string,
    raw: string,
    instruction: Option<nat>,
    mode: Option<AddressingMode>,
    assembled: seq<u8>,
    offset: u32)

  /** The offset of the last line assembled so far, if any. */
  function Previous(lines: seq<Column>): Option<u32> {
    if lines == [] then None else Some(lines[|lines| - 1].offset)
  }

  /** A line starts at the previous line's offset, or at 0. */
  function StartOffset(prev: Option<u32>): u32 {
    prev.GetOr(0)
  }

  /** A character that starts a numeric operand: '#', '$' or a decimal digit. */
  predicate IsNumberLead(c: char) {
    c == '#' || c == '$' || IsDigit(c)
  }

  /** A token that starts like a number, which the source refuses as a label. */
  predicate StartsLikeNumber(t: string) {
    |t| > 0 && IsNumberLead(t[0])
  }

  // ---------------------------------------------------------------------------
  // Label or mnemonic

  /** The statement a line's tokens denote: optional label, instruction, operand token. */
  datatype Statement = Statement(labelName: string, instruction: nat, operand: Option<string>)

  /**
   * A first token that is not a mnemonic is a label, unless it starts like a
   * number; the mnemonic then is the second token, and the operand moves one
   * token to the right.
   */
  function ParseStatement(tokens: seq<string>): (r: Result<Statement, AsmError>)
    requires |tokens| > 0
    requires forall k :: 0 <= k < |tokens| ==> IsWord(tokens[k])
    ensures r.Ok? ==> r.value.instruction < |AllInstructions|
    ensures r.Ok? && r.value.operand.Some? ==> IsWord(r.value.operand.value)
  {
    match GetInstructionByMnemonic(tokens[0])
    case Some(k) => Ok(Statement("", k, if |tokens| > 1 then Some(tokens[1]) else None))
    case None =>
      if StartsLikeNumber(tokens[0]) then Err(InvalidLabelName)
      else if |tokens| == 1 then Err(MissingMnemonic)
      else
        match GetInstructionByMnemonic(tokens[1])
        case None => Err(InvalidInstructionMnemonic)
        case Some(k) => Ok(Statement(tokens[0], k, if |tokens| > 2 then Some(tokens[2]) else None))
  }

  // ---------------------------------------------------------------------------
  // Addressing mode

  /** The inferred mode and the operand text left after a leading '#' is erased. */
  datatype Operand = Operand(mode: AddressingMode, text: string)

  function Classify(operand: Option<string>): (r: Result<Operand, AsmError>)
    requires operand.Some? ==> |operand.value| > 0
    ensures r.Ok? && r.value.mode != Inherent && r.value.mode != Relative ==> |r.value.text| > 0
  {
    match operand
    case None => Ok(Operand(Inherent, ""))
    case Some(o) =>
      if !IsStringNumber(o) && !IsDigit(o[0]) && o[0] != '#' && o[0] != '$' then
        Ok(Operand(Relative, o))
      else
        var text := if o[0] == '#' then o[1..] else o;
        var mode := if o[0] == '#' then Immediate else if o[0] == '$' then Extended else Direct;
        if text == [] then Err(EmptyOperand)
        else if text[|text| - 1] == 'X' then Ok(Operand(IndexedX, text))
        else if text[|text| - 1] == 'Y' then Ok(Operand(IndexedY, text))
        else Ok(Operand(mode, text))
  }

  /**
   * The mode depends only on the operand token's first and last characters:
   * a token not starting like a number is a branch target; "#" alone is
   * rejected; otherwise a final 'X' or 'Y' wins over the first character.
   */
  lemma ClassifyShape(o: string)
    requires |o| > 0
    ensures (Classify(Some(o)).Ok? && Classify(Some(o)).value.mode == Relative) <==> !IsNumberLead(o[0])
    ensures Classify(Some(o)) == Err(EmptyOperand) <==> o == "#"
    ensures IsNumberLead(o[0]) && o != "#" ==>
      && Classify(Some(o)).Ok?
      && Classify(Some(o)).value.mode ==
           if o[|o| - 1] == 'X' then IndexedX
           else if o[|o| - 1] == 'Y' then IndexedY
           else if o[0] == '#' then Immediate
           else if o[0] == '$' then Extended
           else Direct
    ensures Classify(Some(o)).Err? ==> Classify(Some(o)) == Err(EmptyOperand)
    ensures Classify(Some(o)).Ok? ==> Classify(Some(o)).value.text == if o[0] == '#' then o[1..] else o
  {
    if IsNumberLead(o[0]) && o[0] == '#' && |o| > 1 {
      assert o[1..][|o[1..]| - 1] == o[|o| - 1];
    }
  }

  // ---------------------------------------------------------------------------
  // Operand value and bytes

  /** std::stoul of the operand: hexadecimal after '$', decimal otherwise, kept to 16 bits. */
  function OperandValue(text: string): Result<u16, AsmError>
    requires |text| > 0
  {
    var parsed := if text[0] == '$' then ParseUnsigned(text[1..], 16) else ParseUnsigned(text, 10);
    match parsed
    case None => Err(MalformedNumber)
    case Some(n) => Ok(ToU16(n))
  }

  /** The operand bytes for a byte count of 1 (low byte) or 2 (big-endian). */
  function OperandBytes(byteCount: u8, value: u16): seq<u8> {
    if byteCount == 1 then [LowByte(value)]
    else if byteCount == 2 then [HighByte(value), LowByte(value)]
    else []
  }

  /** The value a big-endian operand field stands for. */
  function DecodeOperand(bs: seq<u8>): nat {
    if |bs| == 0 then 0 else DecodeOperand(bs[..|bs| - 1]) * U8_LIMIT + bs[|bs| - 1]
  }

  /** The operand bytes hold the value modulo the width of the field. */
  lemma OperandBytesRoundTrip(byteCount: u8, value: u16)
    requires byteCount == 1 || byteCount == 2
    ensures |OperandBytes(byteCount, value)| == byteCount
    ensures DecodeOperand(OperandBytes(byteCount, value)) == value % (if byteCount == 1 then U8_LIMIT else U16_LIMIT)
  {
    var bs := OperandBytes(byteCount, value);
    if byteCount == 2 {
      BigEndianRoundTrip(value);
      assert bs[..1] == [HighByte(value)];
      assert [HighByte(value)][..0] == [];
      assert DecodeOperand([HighByte(value)]) == HighByte(value);
    } else {
      assert bs[..0] == [];
    }
  }

  // ---------------------------------------------------------------------------
  // The whole line

  /** The offset grows by the bytes emitted, except on the very first line. */
  function Advance(prev: Option<u32>, col: Column): Column {
    if prev.None? then col else col.(offset := AddU32(col.offset, |col.assembled|))
  }

  /** The statement on a line; None for a blank line. */
  function ParseLine(line: string): (r: Result<Option<Statement>, AsmError>)
    ensures r.Ok? && r.value.Some? ==> r.value.value.instruction < |AllInstructions|
    ensures r.Ok? && r.value.Some? && r.value.value.operand.Some? ==> IsWord(r.value.value.operand.value)
  {
    var tokens := Tokens(line);
    TokensAreWords(line);
    if tokens == [] then Ok(None)
    else
      match ParseStatement(tokens)
      case Err(e) => Err(e)
      case Ok(st) => Ok(Some(st))
  }

  /** AssembleSingleLine given the previous line's offset (None when there is none). */
  function EncodeLine(prev: Option<u32>, line: string): Result<Column, AsmError> {
    match ParseLine(line)
    case Err(e) => Err(e)
    case Ok(None) => Ok(Column("", line, None, None, [], StartOffset(prev)))
    case Ok(Some(st)) =>
      match Classify(st.operand)
      case Err(e) => Err(e)
      case Ok(operand) => EncodeStatement(prev, line, st, operand, AllInstructions[st.instruction])
  }

  /** The bytes and offset of a parsed statement whose instruction is `inst`. */
  function EncodeStatement(prev: Option<u32>, line: string, st: Statement, operand: Operand, inst: Instruction): Result<Column, AsmError>
    requires operand.mode != Inherent && operand.mode != Relative ==> |operand.text| > 0
  {
    if !inst.IsAddressingModeSupported(operand.mode) then Err(InvalidAddressingMode)
    else
      var operation := inst.opcodes[operand.mode];
      var col := Column(st.labelName, line, Some(st.instruction), Some(operand.mode), operation.opcodes, StartOffset(prev));
      if operand.mode == Inherent then Ok(Advance(prev, col))
      else if operand.mode == Relative then Ok(Advance(prev, col.(assembled := operation.opcodes + [0xFF])))
      else
        match OperandValue(operand.text)
        case Err(e) => Err(e)
        case Ok(value) =>
          if st.instruction == OrgIndex then Ok(Advance(prev, col.(offset := value)))
          else Ok(Advance(prev, col.(assembled := operation.opcodes + OperandBytes(operation.byteCount, value))))
  }

  /** The label write a successful line makes: relative lines only, keyed by their own label. */
  function RecordLabel(table: map<string, u16>, prev: Option<u32>, col: Column): map<string, u16> {
    if col.mode == Some(Relative) then table[col.labelName := ToU16(StartOffset(prev))] else table
  }

  // ---------------------------------------------------------------------------
  // What a line yields

  /** Exactly the blank lines yield a column without an instruction: no bytes, offset kept. */
  lemma BlankLine(prev: Option<u32>, line: string)
    ensures Tokens(line) == [] <==> (EncodeLine(prev, line).Ok? && EncodeLine(prev, line).value.instruction.None?)
    ensures Tokens(line) == [] ==>
      EncodeLine(prev, line) == Ok(Column("", line, None, None, [], StartOffset(prev)))
  {
  }

  /** Parse errors are reported as they are; later stages raise only their own three kinds. */
  lemma StageErrors(prev: Option<u32>, line: string)
    ensures ParseLine(line).Err? ==> EncodeLine(prev, line) == Err(ParseLine(line).error)
    ensures ParseLine(line).Ok? && EncodeLine(prev, line).Err? ==>
      EncodeLine(prev, line).error in {EmptyOperand, InvalidAddressingMode, MalformedNumber}
  {
    if ParseLine(line).Ok? && ParseLine(line).value.Some? {
      var st := ParseLine(line).value.value;
      if Classify(st.operand).Ok? {
        var operand := Classify(st.operand).value;
        assert EncodeLine(prev, line) == EncodeStatement(prev, line, st, operand, AllInstructions[st.instruction]);
      }
    }
  }

  /** "Invalid label name": a first token that is no mnemonic and starts like a number. */
  lemma LabelNameRejected(prev: Option<u32>, line: string)
    ensures EncodeLine(prev, line) == Err(InvalidLabelName) <==>
      && |Tokens(line)| > 0
      && GetInstructionByMnemonic(Tokens(line)[0]).None?
      && StartsLikeNumber(Tokens(line)[0])
  {
    StageErrors(prev, line);
    TokensAreWords(line);
  }

  /** A label alone on its line: the source reads the missing second token. */
  lemma MnemonicMissing(prev: Option<u32>, line: string)
    ensures EncodeLine(prev, line) == Err(MissingMnemonic) <==>
      && |Tokens(line)| == 1
      && GetInstructionByMnemonic(Tokens(line)[0]).None?
      && !StartsLikeNumber(Tokens(line)[0])
  {
    StageErrors(prev, line);
    TokensAreWords(line);
  }

  /** "Invalid instruction mnemonic": neither of the first two tokens is a mnemonic. */
  lemma MnemonicRejected(prev: Option<u32>, line: string)
    ensures EncodeLine(prev, line) == Err(InvalidInstructionMnemonic) <==>
      && |Tokens(line)| >= 2
      && GetInstructionByMnemonic(Tokens(line)[0]).None?
      && !StartsLikeNumber(Tokens(line)[0])
      && GetInstructionByMnemonic(Tokens(line)[1]).None?
  {
    StageErrors(prev, line);
    TokensAreWords(line);
  }

  /** The operand token, found after the mnemonic. */
  function OperandToken(line: string): Option<string> {
    match ParseLine(line)
    case Ok(Some(st)) => st.operand
    case _ => None
  }

  /** The operand "#" is refused; nothing else is, once the statement parses. */
  lemma EmptyOperandRejected(prev: Option<u32>, line: string)
    ensures EncodeLine(prev, line) == Err(EmptyOperand) <==>
      ParseLine(line).Ok? && OperandToken(line) == Some("#")
  {
    if ParseLine(line).Ok? && ParseLine(line).value.Some? {
      var st := ParseLine(line).value.value;
      if st.operand.Some? {
        ClassifyShape(st.operand.value);
      }
    }
  }

  /**
   * "Invalid addressing mode": the statement and its operand are well formed
   * but the instruction has no opcode for the inferred mode.
   */
  lemma ModeRejected(prev: Option<u32>, line: string, st: Statement, operand: Operand)
    requires ParseLine(line) == Ok(Some(st))
    requires Classify(st.operand) == Ok(operand)
    ensures EncodeLine(prev, line) == Err(InvalidAddressingMode) <==>
      !AllInstructions[st.instruction].IsAddressingModeSupported(operand.mode)
  {
  }

  /** An operand led by a decimal digit always has a value; only '#' or '$' can lead to no digits. */
  lemma MalformedNeedsPrefix(prev: Option<u32>, line: string)
    requires EncodeLine(prev, line) == Err(MalformedNumber)
    ensures OperandToken(line).Some?
    ensures OperandToken(line).value[0] == '#' || OperandToken(line).value[0] == '$'
  {
    var st := ParseLine(line).value.value;
    var o := st.operand.value;
    ClassifyShape(o);
  }

  /** The bytes and offset of a statement, for any instruction `inst`. */
  lemma StatementShape(prev: Option<u32>, line: string, st: Statement, operand: Operand, inst: Instruction)
    requires operand.mode != Inherent && operand.mode != Relative ==> |operand.text| > 0
    requires EncodeStatement(prev, line, st, operand, inst).Ok?
    ensures var col := EncodeStatement(prev, line, st, operand, inst).value;
      && col.raw == line
      && col.labelName == st.labelName
      && col.instruction == Some(st.instruction)
      && col.mode == Some(operand.mode)
      && inst.IsAddressingModeSupported(operand.mode)
      && var op := inst.opcodes[operand.mode];
      && col.assembled[..|op.opcodes|] == op.opcodes
      && |col.assembled| == |op.opcodes| +
           (if operand.mode == Inherent then 0
            else if operand.mode == Relative then 1
            else if st.instruction == OrgIndex then 0
            else if op.byteCount == 1 || op.byteCount == 2 then op.byteCount as int
            else 0)
      && (operand.mode == Relative ==> col.assembled[|col.assembled| - 1] == 0xFF)
      && (st.instruction != OrgIndex ==>
            col.offset == if prev.None? then 0 else AddU32(prev.value, |col.assembled|))
      && (st.instruction == OrgIndex && operand.mode != Inherent && operand.mode != Relative ==>
            && col.assembled == op.opcodes
            && OperandValue(operand.text).Ok?
            && col.offset == AddU32(OperandValue(operand.text).value, if prev.None? then 0 else |op.opcodes|))
  {
    var op := inst.opcodes[operand.mode];
    var col := EncodeStatement(prev, line, st, operand, inst).value;
    assert col.assembled[..|op.opcodes|] == op.opcodes;
    if operand.mode != Inherent && operand.mode != Relative && st.instruction != OrgIndex && (op.byteCount == 1 || op.byteCount == 2) {
      OperandBytesRoundTrip(op.byteCount, OperandValue(operand.text).value);
    }
  }

  /** The statement and operand behind a line that holds an instruction. */
  lemma Unfold(prev: Option<u32>, line: string) returns (st: Statement, operand: Operand)
    requires EncodeLine(prev, line).Ok?
    requires EncodeLine(prev, line).value.instruction.Some?
    ensures ParseLine(line) == Ok(Some(st))
    ensures Classify(st.operand) == Ok(operand)
    ensures EncodeLine(prev, line) == EncodeStatement(prev, line, st, operand, AllInstructions[st.instruction])
  {
    st := ParseLine(line).value.value;
    operand := Classify(st.operand).value;
  }

  /**
   * The bytes of an instruction line: its opcodes, then as many bytes as the
   * operation's byte count (the 0xFF placeholder for a branch), and the
   * opcodes identify the addressing mode.
   */
  lemma InstructionBytes(prev: Option<u32>, line: string)
    requires EncodeLine(prev, line).Ok?
    requires EncodeLine(prev, line).value.instruction.Some?
    requires EncodeLine(prev, line).value.instruction.value != OrgIndex
    ensures var col := EncodeLine(prev, line).value;
      && col.instruction.value < |AllInstructions|
      && col.mode.Some?
      && AllInstructions[col.instruction.value].IsAddressingModeSupported(col.mode.value)
      && var op := AllInstructions[col.instruction.value].opcodes[col.mode.value];
      && |col.assembled| == |op.opcodes| + op.byteCount
      && col.assembled[..|op.opcodes|] == op.opcodes
      && ModeOfOpcodes(op.opcodes) == col.mode
      && 1 <= |col.assembled| <= 4
      && (col.mode == Some(Relative) ==> col.assembled[|col.assembled| - 1] == 0xFF)
  {
    var st, operand := Unfold(prev, line);
    var inst := AllInstructions[st.instruction];
    StatementShape(prev, line, st, operand, inst);
    CatalogOperation(st.instruction, operand.mode);
  }

  /** A column keeps the text of its line. */
  lemma KeepsRaw(prev: Option<u32>, line: string)
    requires EncodeLine(prev, line).Ok?
    ensures EncodeLine(prev, line).value.raw == line
  {
    if EncodeLine(prev, line).value.instruction.Some? {
      var st, operand := Unfold(prev, line);
      StatementShape(prev, line, st, operand, AllInstructions[st.instruction]);
    } else {
      BlankLine(prev, line);
    }
  }

  /** ORG emits no bytes; its single mode is extended and it sets a 16-bit offset. */
  lemma OrgBytes(prev: Option<u32>, line: string)
    requires EncodeLine(prev, line).Ok?
    requires EncodeLine(prev, line).value.instruction == Some(OrgIndex)
    ensures EncodeLine(prev, line).value.assembled == []
    ensures EncodeLine(prev, line).value.mode == Some(Extended)
    ensures EncodeLine(prev, line).value.offset < U16_LIMIT
  {
    var st, operand := Unfold(prev, line);
    OrgEntry();
    StatementShape(prev, line, st, operand, AllInstructions[OrgIndex]);
  }

  /**
   * Offsets: an instruction other than ORG ends at the previous line's
   * offset plus its bytes, wrapped to 32 bits, except on the very first
   * line, which stays at 0.
   */
  lemma OffsetAdvances(prev: Option<u32>, line: string)
    requires EncodeLine(prev, line).Ok?
    requires EncodeLine(prev, line).value.instruction.Some?
    requires EncodeLine(prev, line).value.instruction.value != OrgIndex
    ensures prev.None? ==> EncodeLine(prev, line).value.offset == 0
    ensures prev.Some? ==>
      EncodeLine(prev, line).value.offset == AddU32(prev.value, |EncodeLine(prev, line).value.assembled|)
  {
    var st, operand := Unfold(prev, line);
    var inst := AllInstructions[st.instruction];
    StatementShape(prev, line, st, operand, inst);
  }

  /** On a line that succeeds, the label table changes only for a branch, at its own label. */
  lemma LabelWrite(table: map<string, u16>, prev: Option<u32>, line: string, name: string)
    requires EncodeLine(prev, line).Ok?
    ensures var col := EncodeLine(prev, line).value;
      var after := RecordLabel(table, prev, col);
      && after.Keys == table.Keys + (if col.mode == Some(Relative) then {col.labelName} else {})
      && (name in after && name != col.labelName ==> after[name] == table[name])
      && (col.mode == Some(Relative) ==> after[col.labelName] == StartOffset(prev) % U16_LIMIT)
      && (col.mode != Some(Relative) ==> after == table)
  {
  }

  // ---------------------------------------------------------------------------
  // Source lines written in the assembler's syntax

  /** The operand forms the assembler understands, with their numeric values. */
  datatype OperandSyntax =
    | NoOperand
    | Imm(n: nat)          // #n
    | ImmHex(n: nat)       // #$hex
    | Dir(n: nat)          // n
    | Ext(n: nat)          // $hex
    | IdxX(n: nat)         // n,X
    | IdxY(n: nat)         // n,Y
    | ExtIdxX(n: nat)      // $hex,X
    | ExtIdxY(n: nat)      // $hex,Y
    | Branch(target: string)

  function SyntaxMode(o: OperandSyntax): AddressingMode {
    match o
    case NoOperand => Inherent
    case Imm(_) => Immediate
    case ImmHex(_) => Immediate
    case Dir(_) => Direct
    case Ext(_) => Extended
    case IdxX(_) => IndexedX
    case IdxY(_) => IndexedY
    case ExtIdxX(_) => IndexedX
    case ExtIdxY(_) => IndexedY
    case Branch(_) => Relative
  }

  /** A branch target is a token that does not start like a number. */
  predicate WellFormedSyntax(o: OperandSyntax) {
    o.Branch? ==> IsWord(o.target) && !IsNumberLead(o.target[0])
  }

  function SyntaxToken(o: OperandSyntax): string
    requires !o.NoOperand?
  {
    match o
    case Imm(n) => "#" + Numeral(n, 10)
    case ImmHex(n) => "#$" + Numeral(n, 16)
    case Dir(n) => Numeral(n, 10)
    case Ext(n) => "$" + Numeral(n, 16)
    case IdxX(n) => Numeral(n, 10) + ",X"
    case IdxY(n) => Numeral(n, 10) + ",Y"
    case ExtIdxX(n) => "$" + Numeral(n, 16) + ",X"
    case ExtIdxY(n) => "$" + Numeral(n, 16) + ",Y"
    case Branch(t) => t
  }

  /** A label the first column accepts: a word that is no mnemonic and does not start like a number. */
  predicate IsLabelName(name: string) {
    IsWord(name) && !StartsLikeNumber(name) && GetInstructionByMnemonic(name).None?
  }

  /** `[label] mnemonic [operand]`, separated by single spaces. */
  function RenderLine(name: string, mnemonic: string, o: OperandSyntax): string {
    Unwords((if name == "" then [] else [name]) + [mnemonic] + (if o.NoOperand? then [] else [SyntaxToken(o)]))
  }

  lemma SyntaxTokenIsWord(o: OperandSyntax)
    requires !o.NoOperand? && WellFormedSyntax(o)
    ensures IsWord(SyntaxToken(o))
  {
    match o
    case Imm(n) => NumeralIsWord(n, 10); WordConcat("#", Numeral(n, 10));
    case ImmHex(n) => NumeralIsWord(n, 16); WordConcat("#$", Numeral(n, 16));
    case Dir(n) => NumeralIsWord(n, 10);
    case Ext(n) => NumeralIsWord(n, 16); WordConcat("$", Numeral(n, 16));
    case IdxX(n) => NumeralIsWord(n, 10); WordConcat(Numeral(n, 10), ",X");
    case IdxY(n) => NumeralIsWord(n, 10); WordConcat(Numeral(n, 10), ",Y");
    case ExtIdxX(n) => NumeralIsWord(n, 16); WordConcat("$", Numeral(n, 16)); WordConcat("$" + Numeral(n, 16), ",X");
    case ExtIdxY(n) => NumeralIsWord(n, 16); WordConcat("$", Numeral(n, 16)); WordConcat("$" + Numeral(n, 16), ",Y");
    case Branch(_) =>
  }

  lemma NumeralIsWord(n: nat, base: nat)
    requires IsBase(base)
    ensures IsWord(Numeral(n, base))
  {
    var ds := Numeral(n, base);
    assert forall q :: 0 <= q < |ds| ==> IsDigitIn(ds[q], base);
  }

  lemma WordConcat(a: string, b: string)
    requires IsWord(a) && IsWord(b)
    ensures IsWord(a + b)
  {
    forall q | 0 <= q < |a + b|
      ensures !IsSpace((a + b)[q])
    {
      if q < |a| {
        assert (a + b)[q] == a[q];
      } else {
        assert (a + b)[q] == b[q - |a|];
      }
    }
  }

  lemma MnemonicIsWord(k: nat)
    requires k < |AllInstructions|
    ensures IsWord(AllInstructions[k].mnemonic)
  {
    MnemonicsAreWords(k);
  }

  /** A rendered line parses back to its label, instruction and operand token. */
  lemma RenderedParses(name: string, k: nat, o: OperandSyntax)
    requires k < |AllInstructions| && GetInstructionByMnemonic(AllInstructions[k].mnemonic) == Some(k)
    requires name == "" || IsLabelName(name)
    requires WellFormedSyntax(o)
    ensures ParseLine(RenderLine(name, AllInstructions[k].mnemonic, o)) ==
      Ok(Some(Statement(name, k, if o.NoOperand? then None else Some(SyntaxToken(o)))))
  {
    var m := AllInstructions[k].mnemonic;
    MnemonicIsWord(k);
    if !o.NoOperand? {
      SyntaxTokenIsWord(o);
    }
    var ts := (if name == "" then [] else [name]) + [m] + (if o.NoOperand? then [] else [SyntaxToken(o)]);
    TokensUnwords(ts);
  }

  /** A rendered operand is classified as its syntax says, and its value is read back modulo 2^16. */
  lemma RenderedOperand(o: OperandSyntax)
    requires !o.NoOperand? && WellFormedSyntax(o)
    ensures |SyntaxToken(o)| > 0
    ensures Classify(Some(SyntaxToken(o))).Ok?
    ensures Classify(Some(SyntaxToken(o))).value.mode == SyntaxMode(o)
    ensures !o.Branch? ==> OperandValue(Classify(Some(SyntaxToken(o))).value.text) == Ok(ToU16(o.n))
  {
    match o
    case Branch(t) =>
      assert !IsDigit(t[0]);
    case Imm(n) =>
      ImmediateOperand(n);
    case ImmHex(n) =>
      ImmediateHexOperand(n);
    case Dir(n) =>
      DecimalOperand(n, [], Direct);
      assert Numeral(n, 10) + [] == SyntaxToken(o);
    case Ext(n) =>
      ExtendedOperand(n);
    case IdxX(n) =>
      DecimalOperand(n, ",X", IndexedX);
    case IdxY(n) =>
      DecimalOperand(n, ",Y", IndexedY);
    case ExtIdxX(n) =>
      HexIndexedOperand(n, ",X", IndexedX);
    case ExtIdxY(n) =>
      HexIndexedOperand(n, ",Y", IndexedY);
  }

  /** The last digit of a numeral is neither 'X' nor 'Y'. */
  lemma NumeralEnd(n: nat, base: nat)
    requires IsBase(base)
    ensures Numeral(n, base)[|Numeral(n, base)| - 1] !in {'X', 'Y'}
    ensures IsDigit(Numeral(n, base)[0]) || base == 16
  {
    var ds := Numeral(n, base);
    assert IsDigitIn(ds[|ds| - 1], base);
    assert IsDigitIn(ds[0], base);
  }

  lemma ImmediateOperand(n: nat)
    ensures Classify(Some("#" + Numeral(n, 10))) == Ok(Operand(Immediate, Numeral(n, 10)))
    ensures OperandValue(Numeral(n, 10)) == Ok(ToU16(n))
  {
    var ds := Numeral(n, 10);
    var t := "#" + ds;
    NumeralEnd(n, 10);
    assert t[1..] == ds;
    NumeralRoundTrip(n, 10, []);
    assert ds + [] == ds;
  }

  lemma ExtendedOperand(n: nat)
    ensures Classify(Some("$" + Numeral(n, 16))) == Ok(Operand(Extended, "$" + Numeral(n, 16)))
    ensures OperandValue("$" + Numeral(n, 16)) == Ok(ToU16(n))
  {
    var ds := Numeral(n, 16);
    var t := "$" + ds;
    NumeralEnd(n, 16);
    assert t[1..] == ds;
    assert t[|t| - 1] == ds[|ds| - 1];
    NumeralRoundTrip(n, 16, []);
    assert ds + [] == ds;
  }

  /** "#$hex": the '#' is erased, the mode stays IMMEDIATE and the rest is read as hexadecimal. */
  lemma ImmediateHexOperand(n: nat)
    ensures Classify(Some("#$" + Numeral(n, 16))) == Ok(Operand(Immediate, "$" + Numeral(n, 16)))
    ensures OperandValue("$" + Numeral(n, 16)) == Ok(ToU16(n))
  {
    var ds := Numeral(n, 16);
    var t := "#$" + ds;
    NumeralEnd(n, 16);
    assert t[1..] == "$" + ds;
    assert t[|t| - 1] == ds[|ds| - 1];
    ExtendedOperand(n);
  }

  /** "$hex,X" / "$hex,Y": the final letter makes the mode indexed, and the value is read up to the comma. */
  lemma HexIndexedOperand(n: nat, suffix: string, mode: AddressingMode)
    requires (suffix == ",X" && mode == IndexedX) || (suffix == ",Y" && mode == IndexedY)
    ensures Classify(Some("$" + Numeral(n, 16) + suffix)) == Ok(Operand(mode, "$" + Numeral(n, 16) + suffix))
    ensures OperandValue("$" + Numeral(n, 16) + suffix) == Ok(ToU16(n))
  {
    HexIndexedMode(n, suffix, mode);
    HexIndexedValue(n, suffix);
  }

  lemma HexIndexedMode(n: nat, suffix: string, mode: AddressingMode)
    requires (suffix == ",X" && mode == IndexedX) || (suffix == ",Y" && mode == IndexedY)
    ensures Classify(Some("$" + Numeral(n, 16) + suffix)) == Ok(Operand(mode, "$" + Numeral(n, 16) + suffix))
  {
    var t := "$" + Numeral(n, 16) + suffix;
    assert t[0] == '$';
    assert t[|t| - 1] == suffix[1];
  }

  lemma HexIndexedValue(n: nat, suffix: string)
    requires suffix == ",X" || suffix == ",Y"
    ensures OperandValue("$" + Numeral(n, 16) + suffix) == Ok(ToU16(n))
  {
    var ds := Numeral(n, 16);
    var t := "$" + ds + suffix;
    assert t[0] == '$';
    assert t[1..] == ds + suffix;
    NumeralRoundTrip(n, 16, suffix);
  }

  /** A decimal numeral, bare or followed by ",X" / ",Y". */
  lemma DecimalOperand(n: nat, suffix: string, mode: AddressingMode)
    requires (suffix == [] && mode == Direct) || (suffix == ",X" && mode == IndexedX) || (suffix == ",Y" && mode == IndexedY)
    ensures Classify(Some(Numeral(n, 10) + suffix)) == Ok(Operand(mode, Numeral(n, 10) + suffix))
    ensures OperandValue(Numeral(n, 10) + suffix) == Ok(ToU16(n))
  {
    DecimalMode(n, suffix, mode);
    DecimalValue(n, suffix);
  }

  lemma DecimalMode(n: nat, suffix: string, mode: AddressingMode)
    requires (suffix == [] && mode == Direct) || (suffix == ",X" && mode == IndexedX) || (suffix == ",Y" && mode == IndexedY)
    ensures Classify(Some(Numeral(n, 10) + suffix)) == Ok(Operand(mode, Numeral(n, 10) + suffix))
  {
    var ds := Numeral(n, 10);
    var t := ds + suffix;
    NumeralEnd(n, 10);
    assert t[0] == ds[0];
    if suffix == [] {
      assert t == ds;
    } else {
      assert t[|t| - 1] == suffix[1];
    }
  }

  lemma DecimalValue(n: nat, suffix: string)
    requires suffix == [] || suffix == ",X" || suffix == ",Y"
    ensures OperandValue(Numeral(n, 10) + suffix) == Ok(ToU16(n))
  {
    var ds := Numeral(n, 10);
    NumeralEnd(n, 10);
    assert (ds + suffix)[0] == ds[0];
    NumeralRoundTrip(n, 10, suffix);
  }

  /** The bytes the syntax stands for, given the operation for its mode. */
  function SyntaxBytesOf(op: Operation, isOrg: bool, o: OperandSyntax): seq<u8> {
    match o
    case NoOperand => op.opcodes
    case Branch(_) => op.opcodes + [0xFF]
    case _ => if isOrg then op.opcodes else op.opcodes + OperandBytes(op.byteCount, ToU16(o.n))
  }

  function SyntaxBytes(k: nat, o: OperandSyntax): seq<u8>
    requires k < |AllInstructions| && AllInstructions[k].IsAddressingModeSupported(SyntaxMode(o))
  {
    SyntaxBytesOf(AllInstructions[k].opcodes[SyntaxMode(o)], k == OrgIndex, o)
  }

  /** The offset of a statement's column: ORG's value, else advanced from the previous line. */
  function SyntaxOffset(prev: Option<u32>, isOrg: bool, o: OperandSyntax, opcodeCount: nat, byteCount: nat): u32 {
    if isOrg && !o.NoOperand? && !o.Branch? then AddU32(ToU16(o.n), if prev.None? then 0 else opcodeCount)
    else if prev.None? then 0
    else AddU32(prev.value, byteCount)
  }

  /** A statement with a rendered operand, for any instruction `inst` supporting its mode. */
  lemma RenderedStatement(prev: Option<u32>, line: string, st: Statement, o: OperandSyntax, inst: Instruction)
    requires WellFormedSyntax(o)
    requires st.operand == if o.NoOperand? then None else Some(SyntaxToken(o))
    requires inst.IsAddressingModeSupported(SyntaxMode(o))
    ensures st.operand.Some? ==> |st.operand.value| > 0
    ensures Classify(st.operand).Ok?
    ensures var operation := inst.opcodes[SyntaxMode(o)];
      var bytes := SyntaxBytesOf(operation, st.instruction == OrgIndex, o);
      EncodeStatement(prev, line, st, Classify(st.operand).value, inst) ==
        Ok(Column(st.labelName, line, Some(st.instruction), Some(SyntaxMode(o)), bytes,
          SyntaxOffset(prev, st.instruction == OrgIndex, o, |operation.opcodes|, |bytes|)))
  {
    if o.NoOperand? {
      assert Classify(st.operand) == Ok(Operand(Inherent, ""));
    } else {
      RenderedOperand(o);
      if !o.Branch? {
        RenderedValue(prev, line, st, o, inst, Classify(st.operand).value);
      }
    }
  }

  lemma RenderedValue(prev: Option<u32>, line: string, st: Statement, o: OperandSyntax, inst: Instruction, operand: Operand)
    requires !o.NoOperand? && !o.Branch?
    requires operand.mode == SyntaxMode(o) && |operand.text| > 0
    requires OperandValue(operand.text) == Ok(ToU16(o.n))
    requires inst.IsAddressingModeSupported(SyntaxMode(o))
    ensures var operation := inst.opcodes[SyntaxMode(o)];
      var bytes := SyntaxBytesOf(operation, st.instruction == OrgIndex, o);
      EncodeStatement(prev, line, st, operand, inst) ==
        Ok(Column(st.labelName, line, Some(st.instruction), Some(SyntaxMode(o)), bytes,
          SyntaxOffset(prev, st.instruction == OrgIndex, o, |operation.opcodes|, |bytes|)))
  {
  }

  /**
   * Assembling a rendered line: the column carries the label, the
   * instruction, the mode the syntax names and the bytes it stands for; ORG
   * moves the offset to its value modulo 2^16; every other line advances
   * from the previous offset (not on the first line).
   */
  lemma AssembleRendered(prev: Option<u32>, name: string, k: nat, o: OperandSyntax)
    requires k < |AllInstructions| && GetInstructionByMnemonic(AllInstructions[k].mnemonic) == Some(k)
    requires name == "" || IsLabelName(name)
    requires WellFormedSyntax(o)
    requires AllInstructions[k].IsAddressingModeSupported(SyntaxMode(o))
    ensures EncodeLine(prev, RenderLine(name, AllInstructions[k].mnemonic, o)) ==
      Ok(Column(name, RenderLine(name, AllInstructions[k].mnemonic, o), Some(k), Some(SyntaxMode(o)), SyntaxBytes(k, o),
        SyntaxOffset(prev, k == OrgIndex, o, 0, |SyntaxBytes(k, o)|)))
    ensures k == OrgIndex ==>
      && !o.NoOperand? && !o.Branch?
      && EncodeLine(prev, RenderLine(name, AllInstructions[k].mnemonic, o)).value.offset == ToU16(o.n)
  {
    var line := RenderLine(name, AllInstructions[k].mnemonic, o);
    RenderedParses(name, k, o);
    var st := Statement(name, k, if o.NoOperand? then None else Some(SyntaxToken(o)));
    var inst := AllInstructions[k];
    RenderedStatement(prev, line, st, o, inst);
    assert EncodeLine(prev, line) == EncodeStatement(prev, line, st, Classify(st.operand).value, inst);
    if k == OrgIndex {
      OrgEntry();
      assert |inst.opcodes[SyntaxMode(o)].opcodes| == 0;
      AddU32Zero(ToU16(o.n));
    }
  }
}
