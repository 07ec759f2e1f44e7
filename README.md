# M68HC11 assembler, modelled in Dafny

This project models the assembler in `assembler.h` of the m68hc11x
repository and proves properties of the model. The assembler turns M68HC11
source text into machine bytes one line at a time. It has three parts:

- **The instruction catalog** (`catalog.dfy`, module `Catalog`). This is
  `AllInstructions`, a constant list of 39 entries in source order. Each
  entry maps the addressing modes it supports to one `Operation`: the opcode
  bytes and the number of operand bytes that follow them. It also holds the
  ORG pseudo-instruction (entry 0, `OrgInst`) and the `find_if` lookup by
  mnemonic. The table is kept exactly as written:
  - BMI and BNE are both `0x2B`;
  - BPL and BRA are both `0x2A`;
  - BRN is listed twice.
- **The single-line encoder** (`encoder.dfy`, module `Encoder`). This is
  what `Assembler::AssembleSingleLine` computes, written as functions. It
  splits the line into tokens and tells a label from a mnemonic. It infers
  the addressing mode from the first and last characters of the operand. It
  then emits the opcode bytes, followed by:
  - the operand bytes, big-endian;
  - or a `0xFF` placeholder on a branch;
  - or, for ORG, nothing: ORG sets the offset instead.

  The running offset is advanced, and a branch line writes the label table.
  The `std::runtime_error` messages become values of `AsmError`.
- **The `Assembler` class** (`assembler.dfy`, module `Assembly`). It holds
  the `lines` vector and a reference to the shared label table. It has:
  - `AssembleSingleLine` and `Emit`, which are imperative and update the
    label table in place, and the static `InferMode`, which erases the `#`
    from its own copy of the operand and touches no state;
  - `Assemble`, a `getline` loop;
  - `GetColumnByLabel` and `Reset`.

  Each method is proved equal to the pure functions of `Encoder`, or to
  `Run`, a fold of those functions over the lines of the text. Lemmas about
  `Run` then state what a whole assembly does:
  - one column per line, in order, until the first error;
  - the offset chain;
  - the final label table, where the last write wins.

Supporting modules:
- `widths.dfy`: the `u8`, `u16` and `u32` widths of `m68hc11x.h`, with
  explicit truncation and 32-bit wrap-around.
- `text.dfy`: the standard-library text handling the assembler relies on:
  `operator>>` tokenising, `std::getline`, `isdigit`/`isspace` and the
  numeral prefix that `std::stoul` reads.
- `scenarios.dfy`: worked single lines and a two-line program.
- `wrappers.dfy`: `Option` and `Result`.

The model keeps the behaviour of `assembler.h` as written, including:
- A single pass: relative lines keep their `0xFF` placeholder byte, since
  nothing later patches it, and no label is ever looked up.
- A line starting with `*` is an ordinary line; there is no comment syntax.
- A label is recorded only on a relative-mode line. The entry is keyed by
  that line's own label (often `""`), not by the branch target, and holds
  the offset the line starts from (assembler.h:557).
- The label table is a global, so `Reset` leaves it as it is
  (assembler.h:423, 448-450).
- Relative mode is chosen from the operand's first character alone, whether
  or not the instruction has a relative form (assembler.h:493-497).
- BNE and BRA carry the opcodes written in the table, BMI's `0x2B` and BPL's
  `0x2A` (assembler.h:343-370).
- The offset does not advance on the very first line: its bytes are not
  counted (assembler.h:563-564).

Error values stand for the source's error paths:
- `InvalidLabelName`, `InvalidInstructionMnemonic` and `InvalidAddressingMode`
  are the three `runtime_error` messages.
- `MalformedNumber` is the `std::invalid_argument` that `std::stoul` throws
  when the operand has no digits. That happens for `#` followed by neither a
  decimal digit nor `$` and a hex digit (`#$10` is read as hex 0x10), and
  for `$` with no hex digit after it. The source does not catch it.
- `MissingMnemonic` stands for the read of `tokens[1]` on a line holding one
  non-mnemonic token, which is undefined behaviour.
- `EmptyOperand` stands for `back()` on the empty operand left by `#`; this
  too is undefined behaviour.

An error ends `Assemble`. The columns of the earlier lines stay in `lines`,
as they do when the exception leaves the source's loop.

## Model

| member | source | states |
|---|---|---|
| Catalog.GetInstructionByMnemonic | assembler.h:398-409 | The result is the index of the first entry whose mnemonic equals the query exactly (no entry before it matches); None exactly when no entry has that mnemonic |
| Catalog.FindFrom | assembler.h:400-402 | The `find_if` scan from index k finds the first match at or after k, or none anywhere, given no match before k |
| Catalog.LookupFinds | assembler.h:398-409 | Conversely, the first entry carrying a mnemonic is what the lookup returns |
| Catalog.OrgEntry | assembler.h:75-80 | Entry 0 is ORG: its only mode is EXTENDED, with no opcode bytes and a byte count of 0, and looking up "ORG" finds entry 0 |
| Catalog.CatalogOperation | assembler.h:74-394 | Per mode: INHERENT takes 0 operand bytes, RELATIVE 1, EXTENDED 2 (except ORG), none more than 2. Every entry but ORG has 1 or 2 opcode bytes, and a decoder written from the M68HC11 opcode-map layout recovers the mode from them |
| Catalog.InherentEntries | assembler.h:74-394 | Each INHERENT operation has byte count 0, and the reference decoder reads its opcodes as INHERENT |
| Catalog.ImmediateEntries | assembler.h:74-394 | Each IMMEDIATE operation has byte count 1 or 2, and the reference decoder reads its opcodes as IMMEDIATE |
| Catalog.DirectEntries | assembler.h:74-394 | Each DIRECT operation has byte count 1 or 2, and the reference decoder reads its opcodes as DIRECT |
| Catalog.ExtendedEntries | assembler.h:74-394 | Each EXTENDED operation other than ORG has byte count 2, and the reference decoder reads its opcodes as EXTENDED |
| Catalog.IndexedXEntries | assembler.h:74-394 | Each INDEXED_X operation has byte count 1 or 2, and the reference decoder reads its opcodes as INDEXED_X |
| Catalog.IndexedYEntries | assembler.h:74-394 | Each INDEXED_Y operation has byte count 1 or 2, and the reference decoder reads its opcodes as INDEXED_Y |
| Catalog.RelativeEntries | assembler.h:74-394 | Each RELATIVE operation has byte count 1, and the reference decoder reads its opcodes as RELATIVE |
| Catalog.IndexedYPrefix | assembler.h:74-394 | Where an entry supports both INDEXED_X and INDEXED_Y, the Y opcodes are 0x18 followed by the X opcodes, with the same byte count |
| Catalog.ModesDistinctByOpcode | assembler.h:74-394 | No opcode sequence appears under two different addressing modes anywhere in the table |
| Catalog.DuplicateBrn | assembler.h:380-393 | Entries 37 and 38 are the same BRN, and the lookup always returns the first copy |
| Catalog.BneEncodesAsBmi | assembler.h:343-356 | "BNE" is looked up to entry 33, which has exactly BMI's opcode map: RELATIVE 0x2B with 1 operand byte |
| Catalog.BraEncodesAsBpl | assembler.h:357-370 | "BRA" is looked up to entry 35, which has exactly BPL's opcode map: RELATIVE 0x2A with 1 operand byte |
| Catalog.MnemonicsAreWords | assembler.h:74-394 | Every mnemonic is a non-empty run of upper-case letters, so it is one token |
| Catalog.MnemonicInitial | assembler.h:74-394 | Every mnemonic starts with 'O', 'A' or 'B' |
| Catalog.LookupMissesByInitial | assembler.h:398-409 | A query starting with any other character finds nothing |
| Widths.BigEndianRoundTrip | assembler.h:547-550 | The bytes `value >> 8` and `value` (truncated to u8) rebuild the u16 value |
| Text.SplitTokens | assembler.h:456-461 | The `while (ss >> token)` loop yields exactly Tokens(s), the maximal runs of non-whitespace in order |
| Text.TokensAreWords | assembler.h:456-461 | Every token is non-empty and free of whitespace |
| Text.TokensUnwords | assembler.h:456-461 | Splitting words joined by single spaces gives the words back |
| Text.FirstWord | assembler.h:456-461 | A word, a space and more text: the word is the first token, followed by the tokens of the rest |
| Text.LastWord | assembler.h:456-461 | A word on its own is a single token |
| Text.TokensFromShift | assembler.h:456-461 | The tokens read from a suffix do not depend on the text before it |
| Text.GetLinesCount | assembler.h:432 | getline yields one line per '\n', plus one for unterminated trailing text; an empty text yields none |
| Text.GetLinesFromHaveNoNewline | assembler.h:432 | No line getline yields contains '\n' |
| Text.GetLinesFromShift | assembler.h:432 | The lines read from a suffix do not depend on the text before it |
| Text.GetLinesLeadingLine | assembler.h:432 | A line followed by '\n' at the front of a text comes back as the first line |
| Text.GetLinesTerminated | assembler.h:432 | '\n'-terminated lines at the front of a text come back first, one by one, empty lines included |
| Text.OneLine | assembler.h:432 | A non-empty text without '\n' is one line |
| Text.ParseUnsigned | assembler.h:531-538 | The `std::stoul` model fails exactly when the text does not start with a digit of the base |
| Text.NumeralRoundTrip | assembler.h:531-538 | `std::stoul` reads the numeral of n back as n, whatever non-digit follows it |
| Text.IsStringNumber | assembler.h:425-427 | A non-empty string of decimal digits; used where mode inference tests the operand, and ClassifyShape shows the test is subsumed by the first-character test |
| Text.Tokens | assembler.h:456-461 | The tokens `ss >> token` extracts, the maximal runs of non-whitespace in order; characterised by TokensAreWords, TokensUnwords, FirstWord and LastWord, and computed by SplitTokens |
| Text.GetLines | assembler.h:432 | The lines the `getline` loop yields, split at '\n' with no empty trailing line; characterised by GetLinesCount, GetLinesFromHaveNoNewline, GetLinesTerminated and OneLine |
| Catalog.Instruction.IsAddressingModeSupported | assembler.h:48-50 | `opcodes.count(mode)`: the mode has an operation in the entry's map; ModeRejected uses it for "Invalid addressing mode" |
| Encoder.ParseStatement | assembler.h:470-485 | A parsed statement names a catalog entry, and its operand token is a word |
| Encoder.ParseLine | assembler.h:456-485 | The same for a whole line; a blank line has no statement |
| Encoder.Classify | assembler.h:487-521 | A numeric mode is only reported with a non-empty operand text |
| Encoder.ClassifyShape | assembler.h:487-521 | The operand is RELATIVE exactly when it does not start with '#', '$' or a digit. "#" alone is the only operand rejected. Otherwise a final 'X'/'Y' gives INDEXED_X/INDEXED_Y; failing that, '#' gives IMMEDIATE, '$' EXTENDED and a digit DIRECT. The operand text left is the token with a leading '#' erased, and otherwise the whole token |
| Encoder.OperandValue | assembler.h:531-538 | `std::stoul` of the operand, in hex after '$' and decimal otherwise, truncated to u16; MalformedNumber when no digit follows. Characterised by ImmediateOperand, ExtendedOperand, DecimalValue, HexIndexedValue and MalformedNeedsPrefix |
| Encoder.OperandBytes | assembler.h:543-551 | The low byte for byteCount 1, high then low byte for 2, nothing otherwise; OperandBytesRoundTrip decodes them back |
| Encoder.OperandBytesRoundTrip | assembler.h:543-551 | The operand field has byteCount bytes and holds the value modulo 2^8 or 2^16, big-endian |
| Encoder.Advance | assembler.h:563-564 | Adds the line's byte count to its offset, wrapped to 32 bits, unless it is the first line; OffsetAdvances and RunOffsets state the result |
| Encoder.EncodeStatement | assembler.h:523-566 | The `try` block and the offset advance for a parsed statement whose instruction is `inst`: InvalidAddressingMode for a missing mode, the opcodes, then the branch placeholder, ORG's new offset or the operand bytes. Characterised by StatementShape, RenderedStatement and ModeRejected; Emit computes it |
| Encoder.EncodeLine | assembler.h:452-567 | The column AssembleSingleLine returns, or its error, given the previous line's offset. Characterised by BlankLine, StageErrors, the error iff lemmas, StatementShape, InstructionBytes, OrgBytes, OffsetAdvances, KeepsRaw and AssembleRendered; AssembleSingleLine computes it |
| Encoder.RecordLabel | assembler.h:557 | `insert_or_assign(col.label, col.offset)` of a relative line, at its start offset truncated to u16; other lines leave the table alone. Characterised by LabelWrite |
| Encoder.BlankLine | assembler.h:463-468 | A line yields a column without an instruction exactly when it has no tokens. That column has no bytes and keeps the previous line's offset (0 on the first line) |
| Encoder.StageErrors | assembler.h:474-561 | A parse error is reported as is; once the line parses, only EmptyOperand, InvalidAddressingMode or MalformedNumber can follow |
| Encoder.LabelNameRejected | assembler.h:474-477 | "Invalid label name" occurs exactly when the first token is not a mnemonic and starts with '#', '$' or a digit |
| Encoder.MnemonicMissing | assembler.h:479-480 | MissingMnemonic occurs exactly when the line is one token that is neither a mnemonic nor number-like |
| Encoder.MnemonicRejected | assembler.h:479-485 | "Invalid instruction mnemonic" occurs exactly when neither of the first two tokens is a mnemonic and the first is a valid label |
| Encoder.EmptyOperandRejected | assembler.h:499-519 | EmptyOperand occurs exactly when the line parses and its operand token is "#" |
| Encoder.ModeRejected | assembler.h:523-561 | For a well-formed statement, "Invalid addressing mode" occurs exactly when the instruction has no opcode for the inferred mode |
| Encoder.MalformedNeedsPrefix | assembler.h:531-538 | A number that fails to parse always comes from an operand led by '#' or '$' |
| Encoder.StatementShape | assembler.h:523-564 | The column keeps the line, label, instruction and mode. Its bytes start with the opcodes, with 0, 1 (placeholder 0xFF) or byteCount more. A non-ORG line ends at the previous offset plus its bytes (0 on the first line); ORG ends at its value |
| Encoder.InstructionBytes | assembler.h:523-555 | An instruction line other than ORG emits its opcodes plus byteCount bytes (1 to 4 in all), and the opcodes identify the mode; a branch ends in 0xFF |
| Encoder.KeepsRaw | assembler.h:453-454 | A column keeps its line's text |
| Encoder.OrgBytes | assembler.h:540-541 | ORG emits no bytes, its mode is EXTENDED, and it sets the offset to a 16-bit value |
| Encoder.OffsetAdvances | assembler.h:563-564 | A non-ORG instruction line ends at the previous offset plus its byte count, wrapped to 32 bits; on the first line it stays at 0 |
| Encoder.LabelWrite | assembler.h:553-558 | Only a branch line changes the label table. It adds or overwrites only its own label, at its start offset modulo 2^16; all other keys keep their values |
| Encoder.RenderedParses | assembler.h:456-491 | A line written as `[label] mnemonic [operand]` parses back to that label, instruction and operand token |
| Encoder.RenderedOperand | assembler.h:487-538 | Each written operand form (#n, #$hex, n, $hex, n,X, n,Y, $hex,X, $hex,Y, or a label) is classified as the mode it names, and its number is read back modulo 2^16 |
| Encoder.ImmediateOperand | assembler.h:499-538 | "#n" is IMMEDIATE with the '#' removed, and reads back as n modulo 2^16 |
| Encoder.ImmediateHexOperand | assembler.h:499-538 | "#$hex" is IMMEDIATE; the '#' is erased, so the rest "$hex" is read as hexadecimal, modulo 2^16 |
| Encoder.ExtendedOperand | assembler.h:499-538 | "$hex" is EXTENDED and reads back as the hexadecimal value modulo 2^16 |
| Encoder.HexIndexedOperand | assembler.h:504-538 | "$hex,X" and "$hex,Y" are INDEXED_X and INDEXED_Y (the final letter overrides the '$'), and read back as the hexadecimal value modulo 2^16 (stoul stops at the comma) |
| Encoder.HexIndexedMode | assembler.h:504-519 | The mode half of HexIndexedOperand |
| Encoder.HexIndexedValue | assembler.h:533-535 | The value half of HexIndexedOperand |
| Encoder.DecimalOperand | assembler.h:507-538 | "n", "n,X" and "n,Y" are DIRECT, INDEXED_X and INDEXED_Y, and each reads back as n modulo 2^16 (stoul stops at the comma) |
| Encoder.DecimalMode | assembler.h:507-519 | The mode half of DecimalOperand |
| Encoder.DecimalValue | assembler.h:536-538 | The value half of DecimalOperand |
| Encoder.RenderedStatement | assembler.h:523-564 | A statement with a written operand encodes to the column whose bytes and offset the syntax dictates, for any instruction that supports its mode |
| Encoder.RenderedValue | assembler.h:527-552 | The same, for the numeric operand forms |
| Encoder.AssembleRendered | assembler.h:452-567 | Assembling a written line yields its label, instruction, mode and the bytes the syntax stands for. ORG moves the offset to its value modulo 2^16; other lines advance from the previous offset, except the first |
| Assembly.LabelTable.constructor | assembler.h:423 | The global label table starts empty |
| Assembly.Assembler.constructor | assembler.h:569-570 | A new assembler has no lines and shares the given label table |
| Assembly.Assembler.AssembleSingleLine | assembler.h:452-567 | The result is EncodeLine after the current lines. The label table gains the branch line's write on success and is otherwise unchanged |
| Assembly.Assembler.InferMode | assembler.h:487-521 | The mode inference, with the in-place erase of '#', computes Classify |
| Assembly.Assembler.Emit | assembler.h:523-566 | The opcode and operand emission, ORG's offset, the label write and the offset advance compute EncodeStatement and the label write |
| Assembly.Assembler.Assemble | assembler.h:431-435 | The new lines, label table and stopping error are those of Run over the getline lines of the text |
| Assembly.Assembler.GetColumnByLabel | assembler.h:437-446 | The index of the first column with that label, or None exactly when no column has it |
| Assembly.Assembler.Reset | assembler.h:448-450 | The lines are emptied and the label table is untouched |
| Assembly.RunWith | assembler.h:431-435 | The driver loop over the lines, for any line encoder: each line is encoded after the columns before it and its label write applied; the first error stops the run. Characterised by RunStep, RunShape, RunColumns, RunFailure, LabelsWriteOnly, RunOffsets and RunLabels |
| Assembly.Run | assembler.h:431-435 | RunWith with the source's encoder EncodeLine; Assemble computes it, and RunKeepsLines and BranchBack state results of it |
| Assembly.RunStep | assembler.h:432-433 | One step of the driver: an error stops the run; otherwise the column is appended and its label write applied |
| Assembly.AssembleStep | assembler.h:432-433 | The same step, with the source's own encoder |
| Assembly.RunShape | assembler.h:431-435 | A run keeps the earlier lines and adds at most one column per line. It adds one for every line exactly when no error occurs |
| Assembly.RunColumns | assembler.h:431-435 | Each new column is its line encoded after all the columns before it |
| Assembly.RunFailure | assembler.h:431-435 | A failed run stops short of its last line and reports the error of the first line it could not encode, after the columns it added |
| Assembly.LabelsWriteOnly | assembler.h:557 | The label table is written and never read, so the columns and the error do not depend on its contents |
| Assembly.RunKeepsLines | assembler.h:431-435 | Each column of a run keeps the text of its line |
| Assembly.EncodeLineAdvances | assembler.h:563-564 | The source's encoder obeys the offset law AdvancesOffsets |
| Assembly.RunOffsets | assembler.h:463-564 | Along a run, each instruction other than ORG ends at the previous column's offset plus its own bytes, wrapped to 32 bits. The very first column stays at 0 |
| Assembly.RunLabels | assembler.h:557 | The table after a run is the starting table with the new columns' writes applied, in order |
| Assembly.ReplayKeeps | assembler.h:557 | Without a write to a name, the table keeps what it had for that name |
| Assembly.LastWriteWins | assembler.h:557 | A name maps to the start offset, modulo 2^16, of the last branch line labelled with it |
| Scenarios.AdcaEntry | assembler.h:105-115 | ADCA is entry 4, found by its mnemonic, with immediate and X-indexed forms |
| Scenarios.AdcaImmediateBytes | assembler.h:109 | `ADCA #5` stands for the bytes 89 05 |
| Scenarios.AdcaIndexedXBytes | assembler.h:112 | `ADCA 16,X` stands for the bytes A9 10 |
| Scenarios.AbaEntry | assembler.h:81-90 | ABA is entry 1, found by its mnemonic, inherent only, with the byte 1B |
| Scenarios.AdcaImmediate | assembler.h:452-567 | The first line `ADCA #5` assembles to 89 05 with the offset left at 0 |
| Scenarios.AdcaIndexedX | assembler.h:452-567 | `ADCA 16,X` after a line ending at 0x10 assembles to A9 10 and ends at 0x12 |
| Scenarios.OrgSetsOffset | assembler.h:540-541 | `ORG $100` emits nothing and sets the offset to 0x100 |
| Scenarios.OrgDecimal | assembler.h:559-561 | `ORG 100` is rejected as an invalid addressing mode, since ORG has no direct form |
| Scenarios.UnknownMnemonic | assembler.h:483-485 | `LDAA #5` is rejected as an invalid instruction mnemonic, since LDAA is not in the table |
| Scenarios.NumericLabel | assembler.h:475-477 | `9FOO ABA` is rejected as an invalid label name |
| Scenarios.InherentWithOperand | assembler.h:559-561 | `ABA LOOP` is rejected as an invalid addressing mode |
| Scenarios.LabelledAba | assembler.h:452-567 | `START ABA` as the first line: label START, byte 1B, offset 0 |
| Scenarios.BraEntry | assembler.h:364-370 | BRA is entry 35, and a branch with it stands for 2A FF |
| Scenarios.BranchToStart | assembler.h:553-564 | `BRA START` after a line ending at 0 assembles to 2A FF and ends at 2 |
| Scenarios.ProgramLines | assembler.h:432 | `START ABA\nBRA START` splits into its two lines |
| Scenarios.ProgramColumns | assembler.h:452-567 | The two lines encode to the ABA column at 0 and the BRA column at 2 |
| Scenarios.ProgramLabels | assembler.h:557 | Only the BRA line writes the table, under its own empty label, at offset 0 |
| Scenarios.BranchBack | assembler.h:431-435 | Assembling `START ABA\nBRA START` from scratch gives the two columns and the table {"" ↦ 0}, with no error. START is never recorded, and the branch keeps its FF placeholder |

## Left out

- CPUState (assembler.h:15-31) and the `execute` simulation hooks of the catalog entries: they are never called by the assembler and throw "Unimplemented instruction!" by default.
- The `stream` member and the `std::stringstream` interface of `Assemble`: the text is a `string` parameter, and the `getline` loop is modelled by its line splitting.
- `Column.operand`: the source declares it but never writes it.
- The zero-initialised mode of a blank line's column: `addressingmode.h` is not part of this model, so the mode is `None` there.
- `GetColumnByLabel` returns a `Column*` into `lines` in the source. The model returns the index of the column instead, since address identity and later aliasing are not modelled.
- `col.instruction == OrgInst` compares `shared_ptr`s by identity in the source; the model compares catalog indices, and entry 0 is ORG.
- Text.ParseUnsigned: does not model std::stoul's leading whitespace, sign, "0x" prefix or `unsigned long` overflow. It reads the longest leading run of digits of the base, truncated to 16 bits. So the overflow that the source reports as "Invalid addressing mode" (its `out_of_range` is caught) is not modelled.
- Text.IsSpace: models `isspace` in the C locale only; no other locale or encoding.
- The undefined behaviour of `tokens[1]` on a one-token line and `back()` on an empty operand is not given an outcome. It becomes the error values MissingMnemonic and EmptyOperand.
- `main.cpp` (the ImGui window, the listing that prints `offset - assembled.size()` and the test-program file I/O) and `imguiutil.cpp` (layout with floating point) are UI and I/O and are not part of this model.
- A branch-fixup pass, undefined-label checks and `*` comment lines are not modelled, because `assembler.h` has none of them.
