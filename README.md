# SAP-1 emulator, modelled and verified in Dafny

This project models the Rust SAP-1 ("Simple-As-Possible") 8-bit processor
emulator. The machine has a 16-byte memory that holds both program and data.
It also has an accumulator (A), a B register, an output latch, sticky carry
and zero flags, and a 4-bit program counter. Two more fields, the
instruction register and the ALU latch, are never used. Each clock cycle
fetches `memory[prog_count]`, advances the program counter (back to 0 after
15), splits the byte into a high-nibble opcode and a low-nibble operand, and
executes the instruction: NOP, LDA, ADD, SUB, STA, LDI, JMP, JC, JZ, OUT or
HLT. Opcodes 9 to 13 do nothing.

Files and modules:

- `u8.dfy`, module `U8`: bytes and nibbles. The decode takes `/ 16` and
  `% 16`. It is proved equal to the source's bit operations `>> 4` and
  `& 15`, which are defined bit by bit on naturals (`ShiftRight`,
  `BitAnd`). Also holds the wrapping and checked additions Rust provides.
- `machine.dfy`, module `Machine`: the machine state as a datatype, and the
  decode/execute table, one clock cycle, bounded runs and the printed trace
  as functions. The lemmas give each opcode's exact transition, and show
  that bounds, flags, reserved fields and the halted state are kept across
  any number of cycles.
- `sap.dfy`, module `Emulator`: the `Sap` struct as a class. Memory is an
  `array` that STA writes in place. `ExecuteInstruction` follows the Rust
  `match` statement by statement, and `ProcessClockCycle` follows the fetch
  and the increment-then-reset. Each method is proved to produce exactly the
  state the `Machine` function gives. `RunCycles` is the driver loop of
  `main`, bounded to `n` cycles.
- `programs.dfy`, module `Programs`: the image `main` loads, proved to count
  (after the first LDI and `k` passes of its loop, `out` holds `k mod 256`),
  and a short program ending in HLT.

Modelling decisions:

- HLT in the source busy-waits forever (`loop{}`). Here it sets a `halted`
  field. A cycle on a halted machine changes nothing. The cycle that halts
  prints nothing, because in the source `println!` is never reached after
  `loop{}`.
- SUB is modelled as written: it adds B to A, does not load B from memory,
  and does not touch carry. Its native `u8` `+` panics on overflow in debug
  builds, so `Machine.CanExecute` requires `a_reg + b_reg <= 255` for SUB.
  The other instructions need nothing.
- `read_mem` indexes the 16-byte array, so a cycle requires
  `prog_count < 16`. This holds forever once it holds
  (`Machine.Cycle`, `Machine.RunKeepsPcInRange`).
- A run of `n` cycles requires `Machine.CanRun(s, n)`: that no fetch of the
  run is out of range and no SUB in it overflows. From a program counter in range,
  only the SUB overflow can make it fail (`Machine.RunBlockedOnlyByOverflow`).
- Where the code and the usual meaning of the mnemonics differ, the model
  follows the code:
  - SUB does not load B from memory (unlike ADD), and it adds rather than
    subtracts.
  - The zero flag is sticky: it is set when a result is 0 and never cleared.
    The carry flag is sticky in the same way.
  - No line is printed on the cycle that executes HLT.

## Model

| member | source | states |
|---|---|---|
| U8.HighNibble | src/main.rs:47 | the opcode is the number of whole sixteens in the instruction byte: `16 * op <= instruction < 16 * op + 16` |
| U8.LowNibble | src/main.rs:48 | the operand is what is left over: `instruction == 16 * opcode + operand`, with the operand below 16 |
| U8.HighNibbleIsShift | src/main.rs:47 | the opcode the model decodes, `instruction / 16`, is `instruction >> 4` computed bit by bit |
| U8.LowNibbleIsMask | src/main.rs:48 | the operand the model decodes, `instruction % 16`, is `instruction & 15` computed bit by bit |
| U8.ShiftRightByFour | src/main.rs:47 | shifting any unsigned value right by four bits divides it by 16 |
| U8.BitAndFifteen | src/main.rs:48 | masking any unsigned value with 15 keeps its remainder modulo 16 |
| U8.EncodeDecode | src/main.rs:47-48 | `16 * opcode + operand` gives back the instruction byte |
| U8.DecodeEncode | src/main.rs:47-48 | decoding `16 * op + k` gives back `op` and `k` |
| U8.WrappingAdd | src/main.rs:60 | the wrapped `u8` sum is the true sum, or the true sum minus 256 |
| U8.CheckedAdd | src/main.rs:64 | `checked_add` gives a value exactly when the true sum is below 256, and that value is the true sum |
| U8.CheckedAgreesWithWrapping | src/main.rs:60-67 | `checked_add` is `None` exactly when the true sum exceeds 255, and then the wrapped sum is the sum minus 256; otherwise the two agree |
| Machine.Init | src/main.rs:107-117 | the initial machine holds the image, with the program counter at 0 and not halted |
| Machine.ReadMem | src/main.rs:31-33 | `read_mem` is the byte stored at the address; the address must be below 16 |
| Machine.CanExecute | src/main.rs:71-72 | an instruction can fail only as SUB, when `a_reg + b_reg` does not fit in a `u8` |
| Machine.Execute | src/main.rs:46-103 | for every instruction: instruction_reg and alu keep their values; carry and zero are never cleared; `out` becomes `a_reg` under opcode 14 and is otherwise unchanged; the program counter changes only on a taken jump, to the operand, so it stays below 16; memory changes only under opcode 4; the machine halts exactly under opcode 15 |
| Machine.NextPc | src/main.rs:38-41 | increment-then-reset-above-15 equals `(pc + 1) mod 16` |
| Machine.Fetch | src/main.rs:37 | the fetched instruction is the memory byte at the program counter |
| Machine.Cycle | src/main.rs:36-42 | from a program counter below 16, the next one is below 16; it is `(pc + 1) mod 16` unless the fetched instruction is a taken jump, in which case it is the operand; reserved fields are kept and flags stay set; a halted machine does not change |
| Machine.Printed | src/main.rs:43 | the value a cycle prints is `out` after it, or nothing when that cycle halted |
| Machine.Line | src/main.rs:43 | the same as a list: empty after a halt, otherwise the single value `out` |
| Machine.LineIsPrinted | src/main.rs:43 | a cycle prints at most one line, and it is the printed value |
| Machine.Run | src/main.rs:119-121 | the state after `n` turns of the driver loop; after at least one turn the program counter is below 16 |
| Machine.Trace | src/main.rs:119-121 | the lines printed over `n` turns, each turn's line after those of the earlier turns |
| Machine.TraceAtMostOnePerCycle | src/main.rs:43 | a run of `n` cycles prints at most `n` lines |
| Machine.NopChangesNothing | src/main.rs:51 | opcode 0, and the unassigned opcodes 9 to 13 (the `_` arm at line 100), leave the whole state unchanged |
| Machine.LdaLoadsAccumulator | src/main.rs:53-56 | LDA changes only `a_reg`, setting it to `memory[operand]` |
| Machine.AddAccumulates | src/main.rs:58-69 | ADD sets `b_reg := memory[k]` and `a_reg := (a + memory[k]) mod 256`; zero becomes `old zero or wrapped sum == 0`; carry becomes `old carry or a + memory[k] > 255`; nothing else changes |
| Machine.SubAddsB | src/main.rs:71-77 | SUB (when `a + b <= 255`) sets `a_reg := a + b`, leaves `b_reg`, carry and memory unchanged, and sets zero only when the sum is 0 |
| Machine.StaWritesOneCell | src/main.rs:79 | STA writes `a_reg` into `memory[operand]`; every other cell and every register is unchanged |
| Machine.LdiLoadsLiteral | src/main.rs:81 | LDI changes only `a_reg`, setting it to the operand, so the result is at most 15 |
| Machine.JmpJumps | src/main.rs:83 | JMP changes only the program counter, setting it to the operand |
| Machine.JcJumpsOnCarry | src/main.rs:85-89 | JC sets the program counter to the operand when carry is set, and otherwise changes nothing |
| Machine.JzJumpsOnZero | src/main.rs:91-95 | JZ sets the program counter to the operand when zero is set, and otherwise changes nothing |
| Machine.OutLatchesAccumulator | src/main.rs:97 | OUT changes only `out`, setting it to `a_reg` |
| Machine.HltHalts | src/main.rs:99 | HLT changes only the halted indicator |
| Machine.RunStep | src/main.rs:119-121 | a run of `n + 1` cycles is one cycle, then a run of `n`, with that cycle's line printed first |
| Machine.RunSplit | src/main.rs:119-121 | `m + n` cycles can run exactly when `m` can and then `n` more can; the state and the printed lines are those of `m` cycles followed by `n` |
| Machine.RunThen | src/main.rs:119-121 | a run of `m` cycles that can go on for `n` more is a run of `m + n` cycles |
| Machine.RunOneMore | src/main.rs:119-121 | inside a run of `n` cycles, the state after cycle `i + 1` is one cycle after the state after `i`, and the printed lines grow by that cycle's line |
| Machine.RunKeepsPcInRange | src/main.rs:36-41 | over any number of cycles the program counter stays in 0..15 |
| Machine.RunBlockedOnlyByOverflow | src/main.rs:36-42 | from a program counter in range, a run can take another cycle exactly when it has halted or the next fetched instruction is not an overflowing SUB, so only that overflow can stop it |
| Machine.StraightLineRun | src/main.rs:37-41 | over a run with no taken jump and no halt, the program counter after `n` cycles is `(p0 + n) mod 16` |
| Machine.RunFlagsSticky | src/main.rs:61-67 | once set, carry and zero stay set over any number of cycles |
| Machine.RunKeepsReservedFields | src/main.rs:4-29 | `instruction_reg` and `alu` never change over any number of cycles |
| Machine.HaltedIsTerminal | src/main.rs:99 | a halted machine can be driven for any number of cycles; no field changes and nothing is printed |
| Machine.RunPastHalt | src/main.rs:99 | once a run has halted, running longer gives the same state and the same printed lines |
| Emulator.Sap.constructor | src/main.rs:107-117 | the object holds a fresh 16-cell memory with the image, and every register and flag is zero |
| Emulator.Sap.ExecuteInstruction | src/main.rs:46-103 | the in-place execution of one instruction byte leaves the object in exactly the state `Machine.Execute` gives |
| Emulator.Sap.ProcessClockCycle | src/main.rs:36-44 | the in-place fetch, increment-with-reset and execute leave exactly the state `Machine.Cycle` gives; the returned value is the printed `out`, or `None` when halted |
| Emulator.Sap.RunCycles | src/main.rs:119-121 | `n` driver iterations leave the state `Machine.Run` gives, and return the lines `Machine.Trace` gives |
| Programs.CounterPass | src/main.rs:110 | one pass of ADD 15; OUT; JMP 1 takes the count `k` to `k + 1` (mod 256), sets both flags for good at the 256th pass, and prints `k`, `k+1`, `k+1` |
| Programs.CounterStep | src/main.rs:110 | a run at the head of the loop after `k` passes is there after `k + 1` passes three cycles later, with the printed lines extended accordingly |
| Programs.CounterStart | src/main.rs:107-117 | the first cycle of the image in `main`, LDI 0, reaches the head of the loop and prints 0 |
| Programs.CounterLoop | src/main.rs:110 | from any state whose first `m` cycles reach the head of the loop having printed 0, after `m + 3k` cycles the state is the `k`-pass state and the printed lines are `CounterTrace(k)` |
| Programs.CounterCounts | src/main.rs:107-121 | the image in `main` runs without fault; after `1 + 3k` cycles `out` and `a_reg` hold `k mod 256`, and the successive OUTs print 1, 2, 3, ... |
| Programs.HaltProgramStart | src/main.rs:81-99 | from address 0 of any memory that starts with LDI 5; OUT; LDI 10; OUT; HLT, with any register contents, five cycles print the old `out`, then 5, 5 and 10, and end halted with only the program counter, `a_reg`, `out` and the halt changed |
| Programs.HaltProgram | src/main.rs:99 | driving that program for any `n >= 5` cycles gives the same halted state and the same four printed lines |
| Programs.HaltImagePrints | src/main.rs:107-121 | the zeroed machine loaded with that program, driven for any `n >= 5` cycles, is halted and has printed 0, 5, 5 and 10 |

## Left out

- The `println!` after each cycle (src/main.rs:43) is console output. It is
  modelled as the value `ProcessClockCycle` returns and as `Machine.Trace`.
- The unbounded `loop` in `main` (src/main.rs:119-121) is modelled as
  `RunCycles(n)` and `Machine.Run(s, n)` for any bound `n`.
- The busy-wait of HLT (src/main.rs:99) is modelled as the `halted`
  indicator, not as divergence.
- Debug and release builds differ on SUB's overflowing `+` (src/main.rs:72):
  one panics, the other wraps. The model only says the overflow must not
  happen: it is a precondition.
- `std::num::Wrapping` (src/main.rs:1) is modelled as addition modulo 256.
- A caller that sets `prog_count` above 15 makes `read_mem` panic. That case
  is excluded by precondition rather than modelled as a fault.
- A call to `execute_instruction` on an already halted machine cannot happen
  in the source (HLT never returns). For such a call, `ExecuteInstruction`
  simply applies the table again.
