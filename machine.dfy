/** The SAP-1 machine as values: its state, the decode/execute table, one
    clock cycle, a bounded run of cycles and the values it prints. These
    functions are the specification the `Emulator.Sap` class is proved
    against. */
module Machine {
  import opened U8

  /** The 16-byte memory image (`[u8; 16]`), program and data alike. */
  type Memory = m: seq<Byte> | |m| == 16 witness seq(16, _ => 0)

  /** The fields of `Sap`. `halted` stands for the busy-wait of HLT: once it
      is set the machine makes no further progress. */
  datatype State = State(
    instructionReg: Byte,
    progCount: Byte,
    memory: Memory,
    aReg: Byte,
    bReg: Byte,
    alu: Byte,
    out: Byte,
    carry: bool,
    zero: bool,
    halted: bool)

  /** A machine built from a memory image with every register and flag zero. */
  function Init(image: Memory): (s: State)
    ensures s.memory == image && s.progCount == 0 && !s.halted
  {
    State(0, 0, image, 0, 0, 0, 0, false, false, false)
  }

  /** `read_mem`: indexing a 16-cell memory needs an address below 16. */
  function ReadMem(memory: Memory, addr: Byte): Byte
    requires addr < 16
  {
    memory[addr]
  }

  /** The only instruction that can fail is SUB, whose native `u8` addition
      overflows when `a_reg + b_reg` exceeds 255. */
  predicate CanExecute(s: State, instr: Byte)
  {
    HighNibble(instr) == 3 ==> s.aReg + s.bReg <= 255
  }

  /** Whether `instr` is a jump that is taken in state `s`. */
  predicate TakenJump(s: State, instr: Byte)
  {
    var op := HighNibble(instr);
    op == 6 || (op == 7 && s.carry) || (op == 8 && s.zero)
  }

  /** `execute_instruction`: the decode/execute table. */
  function Execute(s: State, instr: Byte): (r: State)
    requires CanExecute(s, instr)
    // the reserved fields are never written
    ensures r.instructionReg == s.instructionReg && r.alu == s.alu
    // the flags are sticky: nothing assigns false to them
    ensures s.carry ==> r.carry
    ensures s.zero ==> r.zero
    // only OUT writes the output latch, and it writes the accumulator
    ensures r.out == if HighNibble(instr) == 14 then s.aReg else s.out
    // only a taken jump moves the program counter, and always to a 4-bit address
    ensures r.progCount == if TakenJump(s, instr) then LowNibble(instr) else s.progCount
    ensures s.progCount < 16 ==> r.progCount < 16
    // only STA writes memory
    ensures HighNibble(instr) != 4 ==> r.memory == s.memory
    // only HLT halts, and nothing resumes a halted machine
    ensures r.halted <==> s.halted || HighNibble(instr) == 15
  {
    var k := LowNibble(instr);
    match HighNibble(instr)
    // NOP
    case 0 => s
    // LDA
    case 1 => s.(aReg := ReadMem(s.memory, k))
    // ADD
    case 2 =>
      var b := ReadMem(s.memory, k);
      var sum := WrappingAdd(s.aReg, b);
      s.(bReg := b,
         zero := if sum == 0 then true else s.zero,
         carry := if CheckedAdd(s.aReg, b).None? then true else s.carry,
         aReg := sum)
    // SUB, which adds the B register without reloading it
    case 3 =>
      var dif := s.aReg + s.bReg;
      s.(zero := if dif == 0 then true else s.zero, aReg := dif)
    // STA
    case 4 => s.(memory := s.memory[k := s.aReg])
    // LDI
    case 5 => s.(aReg := k)
    // JMP
    case 6 => s.(progCount := k)
    // JC
    case 7 => if s.carry then s.(progCount := k) else s
    // JZ
    case 8 => if s.zero then s.(progCount := k) else s
    // OUT
    case 14 => s.(out := s.aReg)
    // HLT
    case 15 => s.(halted := true)
    // 9 to 13 are not assigned and do nothing
    case _ => s
  }

  /** The program counter after the fetch: one more, reset to 0 past 15. */
  function NextPc(pc: Byte): (next: Byte)
    requires pc < 16
    ensures next == (pc + 1) % 16
  {
    var p := pc + 1;
    if p > 15 then 0 else p
  }

  /** The instruction byte the next cycle fetches. */
  function Fetch(s: State): Byte
    requires s.progCount < 16
  {
    ReadMem(s.memory, s.progCount)
  }

  /** A cycle can run when the fetch is in bounds and the fetched
      instruction does not overflow. */
  predicate CanCycle(s: State)
  {
    s.progCount < 16 && (!s.halted ==> CanExecute(s, Fetch(s)))
  }

  /** `process_clock_cycle`: fetch, advance the program counter, execute.
      A halted machine stays as it is. */
  function Cycle(s: State): (r: State)
    requires CanCycle(s)
    ensures r.progCount < 16
    ensures s.halted ==> r == s
    ensures !s.halted && !TakenJump(s, Fetch(s)) ==> r.progCount == (s.progCount + 1) % 16
    ensures !s.halted && TakenJump(s, Fetch(s)) ==> r.progCount == LowNibble(Fetch(s))
    ensures r.instructionReg == s.instructionReg && r.alu == s.alu
    ensures (s.carry ==> r.carry) && (s.zero ==> r.zero)
  {
    if s.halted then s
    else
      var instruction := Fetch(s);
      Execute(s.(progCount := NextPc(s.progCount)), instruction)
  }

  /** What the cycle that produced `r` prints: `out`, unless it halted. */
  function Printed(r: State): Option<Byte>
  {
    if r.halted then None else Some(r.out)
  }

  /** The same as a list of printed lines, empty or of one value. */
  function Line(r: State): seq<Byte>
  {
    if r.halted then [] else [r.out]
  }

  /** The line list and the printed value say the same thing: at most one
      line, and it is the printed value. */
  lemma LineIsPrinted(r: State)
    ensures |Line(r)| <= 1
    ensures Printed(r).None? <==> Line(r) == []
    ensures Printed(r).Some? ==> Line(r) == [Printed(r).value]
  {
  }

  /** `n` cycles can run from `s` without an overflow or an out-of-range fetch. */
  predicate CanRun(s: State, n: nat)
    decreases n
  {
    n == 0 || (CanCycle(s) && CanRun(Cycle(s), n - 1))
  }

  /** The state after `n` cycles. */
  function Run(s: State, n: nat): (r: State)
    requires CanRun(s, n)
    ensures n > 0 ==> r.progCount < 16
    decreases n
  {
    if n == 0 then s else Run(Cycle(s), n - 1)
  }

  /** The lines printed over `n` cycles, one value per cycle that does not halt. */
  function Trace(s: State, n: nat): seq<Byte>
    requires CanRun(s, n)
    decreases n
  {
    if n == 0 then []
    else
      var t := Cycle(s);
      Line(t) + Trace(t, n - 1)
  }

  // ---------------------------------------------------------------------
  // The decode/execute table, opcode by opcode

  /** NOP and the unassigned opcodes 9 to 13 change nothing. */
  lemma NopChangesNothing(s: State, instr: Byte)
    requires HighNibble(instr) == 0 || 9 <= HighNibble(instr) <= 13
    ensures Execute(s, instr) == s
  {
  }

  /** LDA sets only the accumulator, to the addressed cell. */
  lemma LdaLoadsAccumulator(s: State, instr: Byte)
    requires HighNibble(instr) == 1
    ensures Execute(s, instr) == s.(aReg := s.memory[instr % 16])
  {
  }

  /** ADD loads B from memory and adds it to A modulo 256; the zero flag is
      set when the wrapped sum is 0 and the carry flag when the true sum
      exceeds 255; memory is unchanged. */
  lemma AddAccumulates(s: State, instr: Byte)
    requires HighNibble(instr) == 2
    ensures var m := s.memory[instr % 16];
            Execute(s, instr) == s.(aReg := (s.aReg + m) % 256,
                                    bReg := m,
                                    zero := s.zero || (s.aReg + m) % 256 == 0,
                                    carry := s.carry || s.aReg + m > 255)
  {
    CheckedAgreesWithWrapping(s.aReg, s.memory[instr % 16]);
  }

  /** SUB as written: it adds the B register already held, sets zero only
      when that sum is 0, and leaves B, carry and memory alone. */
  lemma SubAddsB(s: State, instr: Byte)
    requires HighNibble(instr) == 3 && s.aReg + s.bReg <= 255
    ensures Execute(s, instr) == s.(aReg := s.aReg + s.bReg,
                                    zero := s.zero || (s.aReg == 0 && s.bReg == 0))
  {
  }

  /** STA writes the accumulator into exactly one memory cell. */
  lemma StaWritesOneCell(s: State, instr: Byte)
    requires HighNibble(instr) == 4
    ensures var r := Execute(s, instr);
            && r == s.(memory := r.memory)
            && r.memory[instr % 16] == s.aReg
            && forall j :: 0 <= j < 16 && j != instr % 16 ==> r.memory[j] == s.memory[j]
  {
  }

  /** LDI loads the 4-bit literal, so A is at most 15 afterwards. */
  lemma LdiLoadsLiteral(s: State, instr: Byte)
    requires HighNibble(instr) == 5
    ensures Execute(s, instr) == s.(aReg := instr % 16)
    ensures Execute(s, instr).aReg <= 15
  {
  }

  /** JMP sets the program counter to its operand. */
  lemma JmpJumps(s: State, instr: Byte)
    requires HighNibble(instr) == 6
    ensures Execute(s, instr) == s.(progCount := instr % 16)
  {
  }

  /** JC jumps exactly when carry is set, and changes nothing otherwise. */
  lemma JcJumpsOnCarry(s: State, instr: Byte)
    requires HighNibble(instr) == 7
    ensures Execute(s, instr) == if s.carry then s.(progCount := instr % 16) else s
  {
  }

  /** JZ jumps exactly when zero is set, and changes nothing otherwise. */
  lemma JzJumpsOnZero(s: State, instr: Byte)
    requires HighNibble(instr) == 8
    ensures Execute(s, instr) == if s.zero then s.(progCount := instr % 16) else s
  {
  }

  /** OUT copies the accumulator into the output latch and does nothing else. */
  lemma OutLatchesAccumulator(s: State, instr: Byte)
    requires HighNibble(instr) == 14
    ensures Execute(s, instr) == s.(out := s.aReg)
  {
  }

  /** HLT changes nothing but the halted indicator. */
  lemma HltHalts(s: State, instr: Byte)
    requires HighNibble(instr) == 15
    ensures Execute(s, instr) == s.(halted := true)
  {
  }

  // ---------------------------------------------------------------------
  // Runs of several cycles

  /** Running `m + n` cycles is running `m` and then `n`. */
  lemma {:induction false} RunSplit(s: State, m: nat, n: nat)
    ensures CanRun(s, m + n) <==> CanRun(s, m) && CanRun(Run(s, m), n)
    ensures CanRun(s, m + n) ==> Run(s, m + n) == Run(Run(s, m), n)
    ensures CanRun(s, m + n) ==> Trace(s, m + n) == Trace(s, m) + Trace(Run(s, m), n)
    decreases m
  {
    if m > 0 && CanCycle(s) {
      RunSplit(Cycle(s), m - 1, n);
      assert m + n - 1 == (m - 1) + n;
    }
  }

  /** A run prints at most one line per cycle. */
  lemma {:induction false} TraceAtMostOnePerCycle(s: State, n: nat)
    requires CanRun(s, n)
    ensures |Trace(s, n)| <= n
    decreases n
  {
    if n > 0 {
      TraceAtMostOnePerCycle(Cycle(s), n - 1);
      LineIsPrinted(Cycle(s));
    }
  }

  /** A run of one cycle more is one cycle followed by the run. */
  lemma RunStep(s: State, n: nat)
    requires CanCycle(s) && CanRun(Cycle(s), n)
    ensures CanRun(s, n + 1) && Run(s, n + 1) == Run(Cycle(s), n)
    ensures Trace(s, n + 1) == Line(Cycle(s)) + Trace(Cycle(s), n)
  {
  }

  /** A run that can go on after `m` cycles can do `m + n` cycles in one go. */
  lemma RunThen(s: State, m: nat, n: nat)
    requires CanRun(s, m) && CanRun(Run(s, m), n)
    ensures CanRun(s, m + n) && Run(s, m + n) == Run(Run(s, m), n)
    ensures Trace(s, m + n) == Trace(s, m) + Trace(Run(s, m), n)
  {
    RunSplit(s, m, n);
  }

  /** Every fetch of a run is in bounds: the program counter stays in 0..15. */
  lemma {:induction false} RunKeepsPcInRange(s: State, n: nat)
    requires s.progCount < 16 && CanRun(s, n)
    ensures Run(s, n).progCount < 16
    decreases n
  {
    if n > 0 {
      RunKeepsPcInRange(Cycle(s), n - 1);
    }
  }

  /** From a program counter in range, what can stop a run is only a SUB
      that would overflow: the next cycle can run exactly when the machine
      has halted or the fetched instruction can execute. */
  lemma RunBlockedOnlyByOverflow(s: State, n: nat)
    requires s.progCount < 16 && CanRun(s, n)
    ensures Run(s, n).progCount < 16
    ensures CanRun(s, n + 1) <==> (Run(s, n).halted || CanExecute(Run(s, n), Fetch(Run(s, n))))
  {
    RunKeepsPcInRange(s, n);
    RunSplit(s, n, 1);
  }

  /** `n` cycles from `s` run without halting, overflowing or taking a jump. */
  predicate StraightLine(s: State, n: nat)
    decreases n
  {
    n == 0 || (CanCycle(s) && !s.halted && !TakenJump(s, Fetch(s)) && StraightLine(Cycle(s), n - 1))
  }

  /** Within a run of `n` cycles, cycle `i + 1` follows the first `i`. */
  lemma RunOneMore(s: State, i: nat, n: nat)
    requires i < n && CanRun(s, n)
    ensures CanRun(s, i) && CanCycle(Run(s, i)) && CanRun(s, i + 1)
    ensures Run(s, i + 1) == Cycle(Run(s, i))
    ensures Trace(s, i + 1) == Trace(s, i) + Line(Cycle(Run(s, i)))
  {
    RunSplit(s, i, n - i);
    RunSplit(s, i, 1);
  }

  /** One step and then `n` more, counted modulo 16, is `n + 1` steps. */
  lemma CountOnModSixteen(p: int, n: nat)
    ensures ((p + 1) % 16 + n) % 16 == (p + 1 + n) % 16
  {
  }

  /** Without a taken jump, a run fetches consecutive addresses modulo 16. */
  lemma {:induction false} StraightLineRun(s: State, n: nat)
    requires s.progCount < 16 && StraightLine(s, n)
    ensures CanRun(s, n) && Run(s, n).progCount == (s.progCount + n) % 16
    decreases n
  {
    if n > 0 {
      var t := Cycle(s);
      assert t.progCount == (s.progCount + 1) % 16;
      StraightLineRun(t, n - 1);
      RunStep(s, n - 1);
      CountOnModSixteen(s.progCount, n - 1);
      assert s.progCount + 1 + (n - 1) == s.progCount + n;
    }
  }

  /** The flags stay set for the rest of a run once set. */
  lemma {:induction false} RunFlagsSticky(s: State, n: nat)
    requires CanRun(s, n)
    ensures s.carry ==> Run(s, n).carry
    ensures s.zero ==> Run(s, n).zero
    decreases n
  {
    if n > 0 {
      RunFlagsSticky(Cycle(s), n - 1);
    }
  }

  /** The instruction register and the ALU latch keep their values forever. */
  lemma {:induction false} RunKeepsReservedFields(s: State, n: nat)
    requires CanRun(s, n)
    ensures Run(s, n).instructionReg == s.instructionReg && Run(s, n).alu == s.alu
    decreases n
  {
    if n > 0 {
      RunKeepsReservedFields(Cycle(s), n - 1);
    }
  }

  /** A halted machine can be driven for any number of cycles; no field
      changes and nothing more is printed. */
  lemma {:induction false} HaltedIsTerminal(s: State, n: nat)
    requires s.halted && s.progCount < 16
    ensures CanRun(s, n) && Run(s, n) == s && Trace(s, n) == []
    decreases n
  {
    if n > 0 {
      HaltedIsTerminal(s, n - 1);
    }
  }

  /** Once a run has halted, driving more cycles changes nothing and prints
      nothing. */
  lemma RunPastHalt(s: State, m: nat, n: nat)
    requires CanRun(s, m) && Run(s, m).halted && Run(s, m).progCount < 16
    ensures CanRun(s, m + n) && Run(s, m + n) == Run(s, m) && Trace(s, m + n) == Trace(s, m)
  {
    HaltedIsTerminal(Run(s, m), n);
    RunSplit(s, m, n);
  }
}
