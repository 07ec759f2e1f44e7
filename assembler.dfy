/**
 * The Assembler class of assembler.h: the lines assembled so far, the
 * single-line encoder that also writes the shared label table, the driver
 * that assembles a text line by line, the label search and Reset.
 */
module Assembly {
  import opened Wrappers
  import opened Widths
  import opened Catalog
  import opened Text
  import opened Encoder

  /**
   * The global `labelAddresses` map. It is shared by every assembler and
   * survives Reset, so it is an object of its own that assemblers hold.
   */
  class LabelTable {
    var addresses: map<string, u16>

    constructor ()
      ensures addresses == map[]
    {
      addresses := map[];
    }
  }

  /** The lines, the label table and the error that stopped the driver, if any. */
  datatype Outcome = Outcome(lines: seq<Column>, labels: map<string, u16>, failure: Option<AsmError>)

  /** Encodes one line, given the offset of the column before it. */
  type LineEncoder = (Option<u32>, string) -> Result<Column, AsmError>

  /**
   * Assemble over the pieces getline yields, with `encode` for each line: each
   * line is encoded after the ones before it and its column may write the label
   * table; the first error stops the run and leaves its line out.
   */
  function RunWith(encode: LineEncoder, lines: seq<Column>, labels: map<string, u16>, pieces: seq<string>): Outcome
    decreases |pieces|
  {
    if pieces == [] then Outcome(lines, labels, None)
    else
      match encode(Previous(lines), pieces[0])
      case Err(e) => Outcome(lines, labels, Some(e))
      case Ok(col) => RunWith(encode, lines + [col], RecordLabel(labels, Previous(lines), col), pieces[1..])
  }

  /** Assemble as the source runs it: every line through EncodeLine. */
  function Run(lines: seq<Column>, labels: map<string, u16>, pieces: seq<string>): Outcome {
    RunWith(EncodeLine, lines, labels, pieces)
  }

  class Assembler {
    var lines: seq<Column>
    const labelAddresses: LabelTable

    constructor (labelAddresses: LabelTable)
      ensures this.labelAddresses == labelAddresses
      ensures lines == []
    {
      this.labelAddresses := labelAddresses;
      lines := [];
    }

    /**
     * One line, assembled after `lines`: the column of EncodeLine, and on a
     * branch line the label table records the line's own label at its start.
     */
    method AssembleSingleLine(str: string) returns (r: Result<Column, AsmError>)
      modifies labelAddresses
      ensures r == EncodeLine(Previous(lines), str)
      ensures labelAddresses.addresses ==
        if r.Ok? then RecordLabel(old(labelAddresses.addresses), Previous(lines), r.value)
        else old(labelAddresses.addresses)
    {
      var tokens := SplitTokens(str);
      TokensAreWords(str);
      if tokens == [] {
        var start: u32 := 0;
        if |lines| > 0 {
          start := lines[|lines| - 1].offset;
        }
        return Ok(Column("", str, None, None, [], start));
      }

      // A first token that is no mnemonic is a label.
      var name := "";
      var instruction := GetInstructionByMnemonic(tokens[0]);
      if instruction.None? {
        if StartsLikeNumber(tokens[0]) {
          return Err(InvalidLabelName);
        }
        name := tokens[0];
        if |tokens| == 1 {
          return Err(MissingMnemonic);
        }
        instruction := GetInstructionByMnemonic(tokens[1]);
      }
      if instruction.None? {
        return Err(InvalidInstructionMnemonic);
      }

      // The operand is the token after the mnemonic.
      var at := if name == "" then 1 else 2;
      var operandToken := if |tokens| > at then Some(tokens[at]) else None;
      var st := Statement(name, instruction.value, operandToken);
      assert ParseLine(str) == Ok(Some(st));
      var operand := InferMode(operandToken);
      if operand.Err? {
        return Err(operand.error);
      }
      r := Emit(str, st, operand.value, AllInstructions[st.instruction]);
    }

    /**
     * The addressing mode from the operand's first and last characters; a
     * leading '#' is erased from the token, as the source does in place.
     */
    static method InferMode(token: Option<string>) returns (r: Result<Operand, AsmError>)
      requires token.Some? ==> |token.value| > 0
      ensures r == Classify(token)
    {
      var mode := Inherent;
      if token.None? {
        return Ok(Operand(mode, ""));
      }
      var operand := token.value;
      if !IsStringNumber(operand) && !IsDigit(operand[0]) && operand[0] != '#' && operand[0] != '$' {
        mode := Relative;
      } else {
        if operand[0] == '#' {
          mode := Immediate;
          operand := operand[1..];
        } else if operand[0] == '$' {
          mode := Extended;
        } else {
          mode := Direct;
        }
        if operand == [] {
          return Err(EmptyOperand);
        }
        if operand[|operand| - 1] == 'X' {
          mode := IndexedX;
        } else if operand[|operand| - 1] == 'Y' {
          mode := IndexedY;
        }
      }
      return Ok(Operand(mode, operand));
    }

    /**
     * The bytes of a statement whose instruction is `inst`: its opcodes, then the operand bytes, the
     * branch placeholder and label write, or ORG's new offset; the offset
     * then grows by the bytes unless this is the first line.
     */
    method Emit(str: string, st: Statement, operand: Operand, inst: Instruction) returns (r: Result<Column, AsmError>)
      requires operand.mode != Inherent && operand.mode != Relative ==> |operand.text| > 0
      modifies labelAddresses
      ensures r == EncodeStatement(Previous(lines), str, st, operand, inst)
      ensures labelAddresses.addresses ==
        if r.Ok? then RecordLabel(old(labelAddresses.addresses), Previous(lines), r.value)
        else old(labelAddresses.addresses)
    {
      var offset: u32 := 0;
      if |lines| > 0 {
        offset := lines[|lines| - 1].offset;
      }
      var mode := operand.mode;
      if mode !in inst.opcodes {
        return Err(InvalidAddressingMode);
      }
      var operation := inst.opcodes[mode];
      var assembled := operation.opcodes;
      if mode != Inherent && mode != Relative {
        var text := operand.text;
        var parsed := if text[0] == '$' then ParseUnsigned(text[1..], 16) else ParseUnsigned(text, 10);
        if parsed.None? {
          return Err(MalformedNumber);
        }
        var value := ToU16(parsed.value);
        if st.instruction == OrgIndex {
          offset := value;
        } else if operation.byteCount == 1 {
          assembled := assembled + [LowByte(value)];
        } else if operation.byteCount == 2 {
          assembled := assembled + [HighByte(value)];
          assembled := assembled + [LowByte(value)];
        }
        assert OperandValue(text) == Ok(value);
        assert st.instruction != OrgIndex ==> assembled == operation.opcodes + OperandBytes(operation.byteCount, value);
      } else if mode == Relative {
        assembled := assembled + [0xFF];
        labelAddresses.addresses := labelAddresses.addresses[st.labelName := ToU16(offset)];
      }
      if |lines| > 0 {
        offset := AddU32(offset, |assembled|);
      }
      r := Ok(Column(st.labelName, str, Some(st.instruction), Some(mode), assembled, offset));
    }

    /**
     * Assembles `text` line by line, appending one column per line; an error
     * stops it, as the exception the source throws does.
     */
    method Assemble(text: string) returns (failure: Option<AsmError>)
      modifies this, labelAddresses
      ensures Outcome(lines, labelAddresses.addresses, failure) ==
        Run(old(lines), old(labelAddresses.addresses), GetLines(text))
    {
      var i := 0;
      while i < |text|
        invariant i <= |text|
        invariant Run(lines, labelAddresses.addresses, GetLinesFrom(text, i)) ==
          Run(old(lines), old(labelAddresses.addresses), GetLines(text))
        decreases |text| - i
      {
        var j := LineEnd(text, i);
        var rest := GetLinesFrom(text, Resume(text, j));
        GetLinesFromFirst(text, i);
        ghost var before, table := lines, labelAddresses.addresses;
        var r := AssembleSingleLine(text[i..j]);
        AssembleStep(before, table, text[i..j], rest, r);
        if r.Err? {
          return Some(r.error);
        }
        lines := lines + [r.value];
        i := Resume(text, j);
      }
      return None;
    }

    /** The first column whose label is `name`, by index. */
    method GetColumnByLabel(name: string) returns (r: Option<nat>)
      ensures r.Some? ==>
        && r.value < |lines|
        && lines[r.value].labelName == name
        && forall j :: 0 <= j < r.value ==> lines[j].labelName != name
      ensures r.None? ==> forall j :: 0 <= j < |lines| ==> lines[j].labelName != name
    {
      var i := 0;
      while i < |lines|
        invariant i <= |lines|
        invariant forall j :: 0 <= j < i ==> lines[j].labelName != name
      {
        if lines[i].labelName == name {
          return Some(i);
        }
        i := i + 1;
      }
      return None;
    }

    /** Forgets the lines; the label table is left as it is. */
    method Reset()
      modifies this
      ensures lines == []
      ensures labelAddresses.addresses == old(labelAddresses.addresses)
    {
      lines := [];
    }
  }

  // ---------------------------------------------------------------------------
  // What a run of Assemble does

  /** One step of a run: the first piece is encoded; an error stops the run there. */
  lemma RunStep(encode: LineEncoder, lines: seq<Column>, labels: map<string, u16>, piece: string, rest: seq<string>,
                r: Result<Column, AsmError>)
    requires r == encode(Previous(lines), piece)
    ensures RunWith(encode, lines, labels, [piece] + rest) ==
      if r.Err? then Outcome(lines, labels, Some(r.error))
      else RunWith(encode, lines + [r.value], RecordLabel(labels, Previous(lines), r.value), rest)
  {
    assert ([piece] + rest)[0] == piece;
    assert ([piece] + rest)[1..] == rest;
  }

  /** One step of Assemble, on the source's own run. */
  lemma AssembleStep(lines: seq<Column>, labels: map<string, u16>, piece: string, rest: seq<string>,
                     r: Result<Column, AsmError>)
    requires r == EncodeLine(Previous(lines), piece)
    ensures Run(lines, labels, [piece] + rest) ==
      if r.Err? then Outcome(lines, labels, Some(r.error))
      else Run(lines + [r.value], RecordLabel(labels, Previous(lines), r.value), rest)
  {
    RunStep(EncodeLine, lines, labels, piece, rest, r);
  }

  /**
   * A run keeps the earlier lines and adds at most one column per piece; it
   * stops early exactly when it fails.
   */
  lemma {:induction false} RunShape(encode: LineEncoder, lines: seq<Column>, labels: map<string, u16>, pieces: seq<string>)
    ensures var out := RunWith(encode, lines, labels, pieces);
      && |lines| <= |out.lines| <= |lines| + |pieces|
      && out.lines[..|lines|] == lines
      && (out.failure.None? <==> |out.lines| == |lines| + |pieces|)
    decreases |pieces|
  {
    if pieces != [] {
      var r := encode(Previous(lines), pieces[0]);
      assert pieces == [pieces[0]] + pieces[1..];
      RunStep(encode, lines, labels, pieces[0], pieces[1..], r);
      if r.Ok? {
        var next := lines + [r.value];
        RunShape(encode, next, RecordLabel(labels, Previous(lines), r.value), pieces[1..]);
        var out := RunWith(encode, next, RecordLabel(labels, Previous(lines), r.value), pieces[1..]);
        assert out.lines[..|lines|] == out.lines[..|next|][..|lines|];
      }
    }
  }

  /** Each new column is its piece encoded after the columns before it. */
  lemma {:induction false} RunColumns(encode: LineEncoder, lines: seq<Column>, labels: map<string, u16>, pieces: seq<string>)
    ensures var out := RunWith(encode, lines, labels, pieces);
      forall i :: |lines| <= i < |out.lines| && i - |lines| < |pieces| ==>
        encode(Previous(out.lines[..i]), pieces[i - |lines|]) == Ok(out.lines[i])
    decreases |pieces|
  {
    if pieces != [] {
      var r := encode(Previous(lines), pieces[0]);
      assert pieces == [pieces[0]] + pieces[1..];
      RunStep(encode, lines, labels, pieces[0], pieces[1..], r);
      if r.Ok? {
        var next := lines + [r.value];
        var t := RecordLabel(labels, Previous(lines), r.value);
        RunColumns(encode, next, t, pieces[1..]);
        RunShape(encode, next, t, pieces[1..]);
        var out := RunWith(encode, next, t, pieces[1..]);
        assert out.lines[..|lines|] == lines by {
          assert out.lines[..|lines|] == out.lines[..|next|][..|lines|];
        }
        assert out.lines[|lines|] == r.value by {
          assert out.lines[|lines|] == out.lines[..|next|][|lines|];
        }
        forall i | |lines| <= i < |out.lines| && i - |lines| < |pieces|
          ensures encode(Previous(out.lines[..i]), pieces[i - |lines|]) == Ok(out.lines[i])
        {
          if i > |lines| {
            assert pieces[i - |lines|] == pieces[1..][i - |next|];
          }
        }
      }
    }
  }

  /** A failed run names the error of the first piece it could not encode. */
  lemma {:induction false} RunFailure(encode: LineEncoder, lines: seq<Column>, labels: map<string, u16>, pieces: seq<string>)
    ensures var out := RunWith(encode, lines, labels, pieces);
      out.failure.Some? ==>
        && |lines| <= |out.lines| < |lines| + |pieces|
        && encode(Previous(out.lines), pieces[|out.lines| - |lines|]) == Err(out.failure.value)
    decreases |pieces|
  {
    if pieces != [] {
      var r := encode(Previous(lines), pieces[0]);
      assert pieces == [pieces[0]] + pieces[1..];
      RunStep(encode, lines, labels, pieces[0], pieces[1..], r);
      if r.Ok? {
        var next := lines + [r.value];
        var t := RecordLabel(labels, Previous(lines), r.value);
        RunFailure(encode, next, t, pieces[1..]);
        var out := RunWith(encode, next, t, pieces[1..]);
        if out.failure.Some? {
          assert pieces[|out.lines| - |lines|] == pieces[1..][|out.lines| - |next|];
        }
      }
    }
  }

  /** The label table is written, never read: the columns and the error do not depend on it. */
  lemma {:induction false} LabelsWriteOnly(encode: LineEncoder, lines: seq<Column>, t1: map<string, u16>, t2: map<string, u16>,
                                           pieces: seq<string>)
    ensures RunWith(encode, lines, t1, pieces).lines == RunWith(encode, lines, t2, pieces).lines
    ensures RunWith(encode, lines, t1, pieces).failure == RunWith(encode, lines, t2, pieces).failure
    decreases |pieces|
  {
    if pieces != [] {
      var r := encode(Previous(lines), pieces[0]);
      assert pieces == [pieces[0]] + pieces[1..];
      RunStep(encode, lines, t1, pieces[0], pieces[1..], r);
      RunStep(encode, lines, t2, pieces[0], pieces[1..], r);
      if r.Ok? {
        LabelsWriteOnly(encode, lines + [r.value], RecordLabel(t1, Previous(lines), r.value),
                        RecordLabel(t2, Previous(lines), r.value), pieces[1..]);
      }
    }
  }

  /** Every column keeps its line. */
  lemma RunKeepsLines(lines: seq<Column>, labels: map<string, u16>, pieces: seq<string>)
    ensures var out := Run(lines, labels, pieces);
      && |lines| <= |out.lines| <= |lines| + |pieces|
      && forall i :: |lines| <= i < |out.lines| ==> out.lines[i].raw == pieces[i - |lines|]
  {
    RunShape(EncodeLine, lines, labels, pieces);
    RunColumns(EncodeLine, lines, labels, pieces);
    var out := Run(lines, labels, pieces);
    forall i | |lines| <= i < |out.lines|
      ensures out.lines[i].raw == pieces[i - |lines|]
    {
      KeepsRaw(Previous(out.lines[..i]), pieces[i - |lines|]);
    }
  }

  /**
   * The offset law of an encoder: a column other than ORG ends at the offset it
   * starts from plus its own bytes, and the very first one stays at 0.
   */
  ghost predicate AdvancesOffsets(encode: LineEncoder) {
    forall prev: Option<u32>, line: string ::
      encode(prev, line).Ok? && encode(prev, line).value.instruction.Some? &&
      encode(prev, line).value.instruction.value != OrgIndex ==>
        encode(prev, line).value.offset ==
          if prev.None? then 0 else AddU32(prev.value, |encode(prev, line).value.assembled|)
  }

  /** EncodeLine keeps the offset law. */
  lemma EncodeLineAdvances()
    ensures AdvancesOffsets(EncodeLine)
  {
    forall prev: Option<u32>, line: string |
      EncodeLine(prev, line).Ok? && EncodeLine(prev, line).value.instruction.Some? &&
      EncodeLine(prev, line).value.instruction.value != OrgIndex
      ensures EncodeLine(prev, line).value.offset ==
        if prev.None? then 0 else AddU32(prev.value, |EncodeLine(prev, line).value.assembled|)
    {
      OffsetAdvances(prev, line);
    }
  }

  /**
   * Offsets along a run: an instruction other than ORG ends at the previous
   * column's offset plus its own bytes; the very first column stays at 0.
   */
  lemma RunOffsets(encode: LineEncoder, lines: seq<Column>, labels: map<string, u16>, pieces: seq<string>)
    requires AdvancesOffsets(encode)
    ensures var out := RunWith(encode, lines, labels, pieces);
      forall i :: |lines| <= i < |out.lines| && out.lines[i].instruction.Some? && out.lines[i].instruction.value != OrgIndex ==>
        out.lines[i].offset == if i == 0 then 0 else AddU32(out.lines[i - 1].offset, |out.lines[i].assembled|)
  {
    RunShape(encode, lines, labels, pieces);
    RunColumns(encode, lines, labels, pieces);
    var out := RunWith(encode, lines, labels, pieces);
    forall i | |lines| <= i < |out.lines| && out.lines[i].instruction.Some? && out.lines[i].instruction.value != OrgIndex
      ensures out.lines[i].offset == if i == 0 then 0 else AddU32(out.lines[i - 1].offset, |out.lines[i].assembled|)
    {
      var prefix := out.lines[..i];
      assert encode(Previous(prefix), pieces[i - |lines|]) == Ok(out.lines[i]);
      if i > 0 {
        assert prefix[|prefix| - 1] == out.lines[i - 1];
      }
    }
  }

  // ---------------------------------------------------------------------------
  // The label table after a run

  /** A column that writes `name`: a branch line labelled `name`. */
  predicate WritesLabel(col: Column, name: string) {
    col.mode == Some(Relative) && col.labelName == name
  }

  /** The label writes of cols[from..], each made at the offset of the column before it. */
  function Replay(labels: map<string, u16>, cols: seq<Column>, from: nat): map<string, u16>
    requires from <= |cols|
    decreases |cols| - from
  {
    if from == |cols| then labels
    else Replay(RecordLabel(labels, Previous(cols[..from]), cols[from]), cols, from + 1)
  }

  /** A run leaves the table its new columns' writes make, in order. */
  lemma {:induction false} RunLabels(encode: LineEncoder, lines: seq<Column>, labels: map<string, u16>, pieces: seq<string>)
    ensures |lines| <= |RunWith(encode, lines, labels, pieces).lines|
    ensures RunWith(encode, lines, labels, pieces).labels ==
      Replay(labels, RunWith(encode, lines, labels, pieces).lines, |lines|)
    decreases |pieces|
  {
    RunShape(encode, lines, labels, pieces);
    if pieces != [] {
      var r := encode(Previous(lines), pieces[0]);
      assert pieces == [pieces[0]] + pieces[1..];
      RunStep(encode, lines, labels, pieces[0], pieces[1..], r);
      if r.Ok? {
        var next := lines + [r.value];
        var t := RecordLabel(labels, Previous(lines), r.value);
        RunShape(encode, next, t, pieces[1..]);
        RunLabels(encode, next, t, pieces[1..]);
        var out := RunWith(encode, next, t, pieces[1..]);
        assert out.lines[..|lines|] == lines by {
          assert out.lines[..|lines|] == out.lines[..|next|][..|lines|];
        }
        assert out.lines[|lines|] == r.value by {
          assert out.lines[|lines|] == out.lines[..|next|][|lines|];
        }
      }
    }
  }

  /** Without a write to `name`, the table keeps what it had for `name`. */
  lemma {:induction false} ReplayKeeps(labels: map<string, u16>, cols: seq<Column>, from: nat, name: string)
    requires from <= |cols|
    requires forall j :: from <= j < |cols| ==> !WritesLabel(cols[j], name)
    ensures name in Replay(labels, cols, from) <==> name in labels
    ensures name in labels ==> Replay(labels, cols, from)[name] == labels[name]
    decreases |cols| - from
  {
    if from < |cols| {
      ReplayKeeps(RecordLabel(labels, Previous(cols[..from]), cols[from]), cols, from + 1, name);
    }
  }

  /** The last write wins: `name` maps to the start offset of the last branch line labelled `name`. */
  lemma {:induction false} LastWriteWins(labels: map<string, u16>, cols: seq<Column>, from: nat, name: string, i: nat)
    requires from <= i < |cols|
    requires WritesLabel(cols[i], name)
    requires forall j :: i < j < |cols| ==> !WritesLabel(cols[j], name)
    ensures name in Replay(labels, cols, from)
    ensures Replay(labels, cols, from)[name] == ToU16(StartOffset(Previous(cols[..i])))
    decreases |cols| - from
  {
    var next := RecordLabel(labels, Previous(cols[..from]), cols[from]);
    if from == i {
      ReplayKeeps(next, cols, from + 1, name);
    } else {
      LastWriteWins(next, cols, from + 1, name, i);
    }
  }
}
