/**
 * The M68HC11 instruction catalog of assembler.h: every mnemonic the assembler
 * knows, and for each addressing mode it supports the opcode bytes and the
 * number of operand bytes that follow them.
 *
 * The table is kept exactly as the source has it, oddities included: BMI and
 * BNE share opcode 0x2B, BPL and BRA share 0x2A, and BRN is listed twice.
 */
module Catalog {
  import opened Widths
  import opened Wrappers

  /** Assembler_AddressingMode. */
  datatype AddressingMode =
    | Inherent
    | Immediate
    | Direct
    | Extended
    | IndexedX
    | IndexedY
    | Relative

  /** The opcode bytes of one (mnemonic, mode) pair and the count of operand bytes after them. */
  datatype Operation = Operation(opcodes: seq<u8>, byteCount: u8)

  /** One catalog entry. The `execute` simulation hook is not modelled. */
  datatype Instruction = Instruction(
    mnemonic: string,
    description: string,
    opcodes: map<AddressingMode, Operation>)
  {
    predicate IsAddressingModeSupported(mode: AddressingMode) {
      mode in opcodes
    }
  }

  /** AllInstructions, in source order; the comment before each entry is its index. */
  const AllInstructions: seq<Instruction> := [
    // 0
    Instruction("ORG", "", map[
        Extended := Operation([], 0)]),
    // 1
    Instruction("ABA", "Add accumulators", map[
        Inherent := Operation([0x1B], 0)]),
    // 2
    Instruction("ABX", "Add B to X", map[
        Inherent := Operation([0x3A], 0)]),
    // 3
    Instruction("ABY", "Add B to Y", map[
        Inherent := Operation([0x18, 0x3A], 0)]),
    // 4
    Instruction("ADCA", "Add with Carry to A", map[
        Immediate := Operation([0x89], 1),
        Direct := Operation([0x99], 1),
        Extended := Operation([0xB9], 2),
        IndexedX := Operation([0xA9], 1),
        IndexedY := Operation([0x18, 0xA9], 1)]),
    // 5
    Instruction("ADCB", "Add with Carry to B", map[
        Immediate := Operation([0xC9], 1),
        Direct := Operation([0xD9], 1),
        Extended := Operation([0xF9], 2),
        IndexedX := Operation([0xE9], 1),
        IndexedY := Operation([0x18, 0xE9], 1)]),
    // 6
    Instruction("ADDA", "Add Memory to A", map[
        Immediate := Operation([0x8B], 1),
        Direct := Operation([0x9B], 1),
        Extended := Operation([0xBB], 2),
        IndexedX := Operation([0xAB], 1),
        IndexedY := Operation([0x18, 0xAB], 1)]),
    // 7
    Instruction("ADDB", "Add Memory to B", map[
        Immediate := Operation([0xCB], 1),
        Direct := Operation([0xDB], 1),
        Extended := Operation([0xFB], 2),
        IndexedX := Operation([0xEB], 1),
        IndexedY := Operation([0x18, 0xEB], 1)]),
    // 8
    Instruction("ADDD", "Add 16-Bit to D", map[
        Immediate := Operation([0xC3], 2),
        Direct := Operation([0xD3], 1),
        Extended := Operation([0xF3], 2),
        IndexedX := Operation([0xE3], 1),
        IndexedY := Operation([0x18, 0xE3], 1)]),
    // 9
    Instruction("ANDA", "AND A with Memory", map[
        Immediate := Operation([0x84], 1),
        Direct := Operation([0x94], 1),
        Extended := Operation([0xB4], 2),
        IndexedX := Operation([0xA4], 1),
        IndexedY := Operation([0x18, 0xA4], 1)]),
    // 10
    Instruction("ANDB", "AND B with Memory", map[
        Immediate := Operation([0xC4], 1),
        Direct := Operation([0xD4], 1),
        Extended := Operation([0xF4], 2),
        IndexedX := Operation([0xE4], 1),
        IndexedY := Operation([0x18, 0xE4], 1)]),
    // 11
    Instruction("ASL", "Arithmetic Shift Left", map[
        Extended := Operation([0x78], 2),
        IndexedX := Operation([0x68], 1),
        IndexedY := Operation([0x18, 0x68], 1)]),
    // 12
    Instruction("ASLA", "Arithmetic Shift Left A", map[
        Inherent := Operation([0x48], 0)]),
    // 13
    Instruction("ASLB", "Arithmetic Shift Left B", map[
        Inherent := Operation([0x58], 0)]),
    // 14
    Instruction("ASLD", "Arithmetic Shift Left D", map[
        Inherent := Operation([0x05], 0)]),
    // 15
    Instruction("ASR", "Arithmetic Shift Right", map[
        Extended := Operation([0x77], 2),
        IndexedX := Operation([0x67], 1),
        IndexedY := Operation([0x18, 0x67], 1)]),
    // 16
    Instruction("ASRA", "Arithmetic Shift Right A", map[
        Inherent := Operation([0x47], 0)]),
    // 17
    Instruction("ASRB", "Arithmetic Shift Right B", map[
        Inherent := Operation([0x57], 0)]),
    // 18
    Instruction("BCC", "Branch if Carry Clear", map[
        Relative := Operation([0x24], 1)]),
    // 19
    Instruction("BCLR", "Clear Bit(s)", map[
        Direct := Operation([0x15], 2),
        IndexedX := Operation([0x1D], 2),
        IndexedY := Operation([0x18, 0x1D], 2)]),
    // 20
    Instruction("BCS", "Branch if Carry Set", map[
        Relative := Operation([0x25], 1)]),
    // 21
    Instruction("BEQ", "Branch If Equal", map[
        Relative := Operation([0x27], 1)]),
    // 22
    Instruction("BGE", "Branch If Greater Than or Equal (Signed)", map[
        Relative := Operation([0x2C], 1)]),
    // 23
    Instruction("BGT", "Branch If Greater Than (Signed)", map[
        Relative := Operation([0x2E], 1)]),
    // 24
    Instruction("BHI", "Branch if Higher (Unsigned)", map[
        Relative := Operation([0x22], 1)]),
    // 25
    Instruction("BHS", "Branch if Higher or Same (Unsigned)", map[
        Relative := Operation([0x24], 1)]),
    // 26
    Instruction("BITA", "Bit(s) Test A with Memory", map[
        Immediate := Operation([0x85], 1),
        Direct := Operation([0x95], 1),
        Extended := Operation([0xB5], 2),
        IndexedX := Operation([0xA5], 1),
        IndexedY := Operation([0x18, 0xA5], 1)]),
    // 27
    Instruction("BITB", "Bit(s) Test B with Memory", map[
        Immediate := Operation([0xC5], 1),
        Direct := Operation([0xD5], 1),
        Extended := Operation([0xF5], 2),
        IndexedX := Operation([0xE5], 1),
        IndexedY := Operation([0x18, 0xE5], 1)]),
    // 28
    Instruction("BLE", "Branch if Less Than or Equal (Signed)", map[
        Relative := Operation([0x2F], 1)]),
    // 29
    Instruction("BLO", "Branch if Lower (Unsigned)", map[
        Relative := Operation([0x25], 1)]),
    // 30
    Instruction("BLS", "Branch if Lower or Same (Unsigned)", map[
        Relative := Operation([0x23], 1)]),
    // 31
    Instruction("BLT", "Branch if Less Than (Signed)", map[
        Relative := Operation([0x2D], 1)]),
    // 32
    Instruction("BMI", "Branch if Minus", map[
        Relative := Operation([0x2B], 1)]),
    // 33
    Instruction("BNE", "Branch if Not Equal", map[
        Relative := Operation([0x2B], 1)]),
    // 34
    Instruction("BPL", "Branch if Plus", map[
        Relative := Operation([0x2A], 1)]),
    // 35
    Instruction("BRA", "Branch Always", map[
        Relative := Operation([0x2A], 1)]),
    // 36
    Instruction("BRCLR", "Branch if Bit(s) Clear", map[
        Direct := Operation([0x13], 1),
        IndexedX := Operation([0x1F], 1),
        IndexedY := Operation([0x18, 0x1F], 1)]),
    // 37
    Instruction("BRN", "Branch Never", map[
        Relative := Operation([0x21], 1)]),
    // 38
    Instruction("BRN", "Branch Never", map[
        Relative := Operation([0x21], 1)])
  ]

  /** OrgInst is the first entry; the assembler compares against it by identity. */
  const OrgIndex: nat := 0

  /**
   * GetInstructionByMnemonic: the index of the first entry, in catalog order,
   * whose mnemonic equals the query exactly (case-sensitive); None stands for
   * `nullptr`.
   */
  function GetInstructionByMnemonic(mnemonic: string): (r: Option<nat>)
    ensures r.Some? ==>
      && r.value < |AllInstructions|
      && AllInstructions[r.value].mnemonic == mnemonic
      && forall j :: 0 <= j < r.value ==> AllInstructions[j].mnemonic != mnemonic
    ensures r.None? ==> forall j :: 0 <= j < |AllInstructions| ==> AllInstructions[j].mnemonic != mnemonic
  {
    FindFrom(mnemonic, 0)
  }

  /** The find_if search behind GetInstructionByMnemonic, from index `k` on. */
  function FindFrom(mnemonic: string, k: nat): (r: Option<nat>)
    requires k <= |AllInstructions|
    requires forall j :: 0 <= j < k ==> AllInstructions[j].mnemonic != mnemonic
    ensures r.Some? ==>
      && k <= r.value < |AllInstructions|
      && AllInstructions[r.value].mnemonic == mnemonic
      && forall j :: 0 <= j < r.value ==> AllInstructions[j].mnemonic != mnemonic
    ensures r.None? ==> forall j :: 0 <= j < |AllInstructions| ==> AllInstructions[j].mnemonic != mnemonic
    decreases |AllInstructions| - k
  {
    if k == |AllInstructions| then None
    else if AllInstructions[k].mnemonic == mnemonic then Some(k)
    else FindFrom(mnemonic, k + 1)
  }

  /** Conversely, the first entry carrying a mnemonic is what the lookup returns. */
  lemma LookupFinds(mnemonic: string, k: nat)
    requires k < |AllInstructions| && AllInstructions[k].mnemonic == mnemonic
    requires forall j :: 0 <= j < k ==> AllInstructions[j].mnemonic != mnemonic
    ensures GetInstructionByMnemonic(mnemonic) == Some(k)
  {
  }

  /*
   * A reference decoder for the addressing mode, written from the layout of
   * the M68HC11 opcode map rather than from the table: page-1 opcodes are
   * grouped by high nibble (0x8_/0xC_ immediate, 0x9_/0xD_ direct, 0xA_/0xE_
   * and 0x6_ indexed, 0xB_/0xF_ and 0x7_ extended, 0x2_ relative, 0x0_,
   * 0x3_, 0x4_, 0x5_ inherent, with the bit instructions of row 0x1_), and
   * the 0x18 prefix selects the Y-indexed page, where 0x3A is ABY.
   */
  function ModeOfOpcodes(ops: seq<u8>): Option<AddressingMode> {
    if |ops| == 0 then Some(Extended)
    else if |ops| == 1 then Some(ModeOfPage1(ops[0]))
    else if |ops| == 2 && ops[0] == 0x18 then
      Some(if ops[1] == 0x3A then Inherent else IndexedY)
    else None
  }

  function ModeOfPage1(b: u8): AddressingMode {
    var high := b / 16;
    if high == 0x8 || high == 0xC then Immediate
    else if high == 0x9 || high == 0xD then Direct
    else if high == 0xA || high == 0xE || high == 0x6 then IndexedX
    else if high == 0xB || high == 0xF || high == 0x7 then Extended
    else if high == 0x2 then Relative
    else if 0x12 <= b <= 0x15 then Direct
    else if 0x1C <= b <= 0x1F then IndexedX
    else Inherent
  }

  /** ORG is entry 0, supports only EXTENDED, with no opcode bytes and no operand bytes. */
  lemma OrgEntry()
    ensures AllInstructions[OrgIndex].mnemonic == "ORG"
    ensures AllInstructions[OrgIndex].opcodes == map[Extended := Operation([], 0)]
    ensures GetInstructionByMnemonic("ORG") == Some(OrgIndex)
  {
  }

  /**
   * Byte counts and opcode shapes across the catalog: INHERENT operations take
   * no operand byte, RELATIVE ones take one, EXTENDED ones take two except ORG,
   * the rest one or two; every entry but ORG has one or two opcode bytes, and
   * the reference decoder recovers the mode from them.
   */
  lemma CatalogOperation(k: nat, m: AddressingMode)
    requires k < |AllInstructions| && m in AllInstructions[k].opcodes
    ensures m == Inherent ==> AllInstructions[k].opcodes[m].byteCount == 0
    ensures m == Relative ==> AllInstructions[k].opcodes[m].byteCount == 1
    ensures m == Extended && k != OrgIndex ==> AllInstructions[k].opcodes[m].byteCount == 2
    ensures AllInstructions[k].opcodes[m].byteCount <= 2
    ensures k != OrgIndex ==> 1 <= |AllInstructions[k].opcodes[m].opcodes| <= 2
    ensures ModeOfOpcodes(AllInstructions[k].opcodes[m].opcodes) == Some(m)
  {
    match m
    case Inherent => InherentEntries(k);
    case Immediate => ImmediateEntries(k);
    case Direct => DirectEntries(k);
    case Extended => if k == OrgIndex { OrgEntry(); } else { ExtendedEntries(k); }
    case IndexedX => IndexedXEntries(k);
    case IndexedY => IndexedYEntries(k);
    case Relative => RelativeEntries(k);
  }

  // One lemma per addressing mode keeps each case split over the 39 entries small.

  lemma InherentEntries(k: nat)
    requires k < |AllInstructions| && Inherent in AllInstructions[k].opcodes
    ensures AllInstructions[k].opcodes[Inherent].byteCount == 0
    ensures ModeOfOpcodes(AllInstructions[k].opcodes[Inherent].opcodes) == Some(Inherent)
  {
  }

  lemma ImmediateEntries(k: nat)
    requires k < |AllInstructions| && Immediate in AllInstructions[k].opcodes
    ensures AllInstructions[k].opcodes[Immediate].byteCount in {1, 2}
    ensures ModeOfOpcodes(AllInstructions[k].opcodes[Immediate].opcodes) == Some(Immediate)
  {
  }

  lemma DirectEntries(k: nat)
    requires k < |AllInstructions| && Direct in AllInstructions[k].opcodes
    ensures AllInstructions[k].opcodes[Direct].byteCount in {1, 2}
    ensures ModeOfOpcodes(AllInstructions[k].opcodes[Direct].opcodes) == Some(Direct)
  {
  }

  lemma ExtendedEntries(k: nat)
    requires 0 < k < |AllInstructions| && Extended in AllInstructions[k].opcodes
    ensures AllInstructions[k].opcodes[Extended].byteCount == 2
    ensures ModeOfOpcodes(AllInstructions[k].opcodes[Extended].opcodes) == Some(Extended)
  {
  }

  lemma IndexedXEntries(k: nat)
    requires k < |AllInstructions| && IndexedX in AllInstructions[k].opcodes
    ensures AllInstructions[k].opcodes[IndexedX].byteCount in {1, 2}
    ensures ModeOfOpcodes(AllInstructions[k].opcodes[IndexedX].opcodes) == Some(IndexedX)
  {
  }

  lemma IndexedYEntries(k: nat)
    requires k < |AllInstructions| && IndexedY in AllInstructions[k].opcodes
    ensures AllInstructions[k].opcodes[IndexedY].byteCount in {1, 2}
    ensures ModeOfOpcodes(AllInstructions[k].opcodes[IndexedY].opcodes) == Some(IndexedY)
  {
  }

  lemma RelativeEntries(k: nat)
    requires k < |AllInstructions| && Relative in AllInstructions[k].opcodes
    ensures AllInstructions[k].opcodes[Relative].byteCount == 1
    ensures ModeOfOpcodes(AllInstructions[k].opcodes[Relative].opcodes) == Some(Relative)
  {
  }

  /** Where INDEXED_X and INDEXED_Y are both supported, the Y form is 0x18 then the X form. */
  lemma IndexedYPrefix(k: nat)
    requires k < |AllInstructions|
    requires IndexedX in AllInstructions[k].opcodes && IndexedY in AllInstructions[k].opcodes
    ensures AllInstructions[k].opcodes[IndexedY].opcodes == [0x18] + AllInstructions[k].opcodes[IndexedX].opcodes
    ensures AllInstructions[k].opcodes[IndexedY].byteCount == AllInstructions[k].opcodes[IndexedX].byteCount
  {
  }

  /** Hence no opcode sequence is listed under two different addressing modes anywhere in the catalog. */
  lemma ModesDistinctByOpcode(i: nat, j: nat, m1: AddressingMode, m2: AddressingMode)
    requires i < |AllInstructions| && m1 in AllInstructions[i].opcodes
    requires j < |AllInstructions| && m2 in AllInstructions[j].opcodes
    requires AllInstructions[i].opcodes[m1].opcodes == AllInstructions[j].opcodes[m2].opcodes
    ensures m1 == m2
  {
    CatalogOperation(i, m1);
    CatalogOperation(j, m2);
  }

  /** The duplicate BRN (entries 37 and 38) always resolves to the first copy. */
  lemma DuplicateBrn()
    ensures AllInstructions[37] == AllInstructions[38]
    ensures AllInstructions[38].mnemonic == "BRN"
    ensures GetInstructionByMnemonic("BRN") == Some(37)
  {
    LookupFinds("BRN", 37);
  }

  /** BNE is looked up to an entry whose opcodes are BMI's, 0x2B (on the M68HC11, BNE is 0x26). */
  lemma BneEncodesAsBmi()
    ensures GetInstructionByMnemonic("BNE") == Some(33)
    ensures AllInstructions[32].mnemonic == "BMI"
    ensures AllInstructions[33].opcodes == AllInstructions[32].opcodes == map[Relative := Operation([0x2B], 1)]
  {
    LookupFinds("BNE", 33);
  }

  /** BRA is looked up to an entry whose opcodes are BPL's, 0x2A (on the M68HC11, BRA is 0x20). */
  lemma BraEncodesAsBpl()
    ensures GetInstructionByMnemonic("BRA") == Some(35)
    ensures AllInstructions[34].mnemonic == "BPL"
    ensures AllInstructions[35].opcodes == AllInstructions[34].opcodes == map[Relative := Operation([0x2A], 1)]
  {
    LookupFinds("BRA", 35);
  }

  /** Every mnemonic is a non-empty run of upper-case letters. */
  lemma MnemonicsAreWords(k: nat)
    requires k < |AllInstructions|
    ensures |AllInstructions[k].mnemonic| > 0
    ensures forall q :: 0 <= q < |AllInstructions[k].mnemonic| ==> 'A' <= AllInstructions[k].mnemonic[q] <= 'Z'
  {
  }

  /** Every mnemonic in the table starts with 'O' (ORG), 'A' or 'B'. */
  lemma MnemonicInitial(k: nat)
    requires k < |AllInstructions|
    ensures |AllInstructions[k].mnemonic| > 0
    ensures AllInstructions[k].mnemonic[0] in {'O', 'A', 'B'}
  {
  }

  /** So a word starting with any other letter is not found by the lookup. */
  lemma LookupMissesByInitial(mnemonic: string)
    requires |mnemonic| > 0 && mnemonic[0] !in {'O', 'A', 'B'}
    ensures GetInstructionByMnemonic(mnemonic) == None
  {
    var r := GetInstructionByMnemonic(mnemonic);
    if r.Some? {
      MnemonicInitial(r.value);
      assert false;
    }
  }
}
