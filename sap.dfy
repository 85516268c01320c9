/** The emulator object: the `Sap` struct with its memory updated in place,
    and the methods that advance it, each proved to follow the `Machine`
    specification. */
module Emulator {
  import opened U8
  import opened Machine

  class Sap {
    var instructionReg: Byte
    var progCount: Byte
    /** The `[u8; 16]` memory; STA writes into it in place. */
    const memory: array<Byte>
    var aReg: Byte
    var bReg: Byte
    var alu: Byte
    var out: Byte
    var carry: bool
    var zero: bool
    /** Set by HLT, whose busy-wait never hands control back. */
    var halted: bool

    ghost predicate Valid()
      reads this
    {
      memory.Length == 16
    }

    /** The machine state this object holds. */
    ghost function View(): State
      requires Valid()
      reads this, memory
    {
      State(instructionReg, progCount, memory[..], aReg, bReg, alu, out, carry, zero, halted)
    }

    /** A machine loaded with `image`, every register and flag zero. */
    constructor (image: Memory)
      ensures Valid() && fresh(memory)
      ensures View() == Init(image)
    {
      instructionReg, progCount := 0, 0;
      memory := new Byte[16](i => if 0 <= i < 16 then image[i] else 0);
      aReg, bReg, alu, out := 0, 0, 0, 0;
      carry, zero, halted := false, false, false;
      new;
      assert memory[..] == image;
    }

    /** `execute_instruction`: decode the byte and apply its table entry. */
    method ExecuteInstruction(instruction: Byte)
      requires Valid() && CanExecute(View(), instruction)
      modifies this, memory
      ensures Valid()
      ensures View() == Execute(old(View()), instruction)
    {
      var mostSig := HighNibble(instruction);
      var leastSig := LowNibble(instruction);
      match mostSig
      // NOP
      case 0 => return;
      // LDA
      case 1 =>
        var val := ReadMem(memory[..], leastSig);
        aReg := val;
      // ADD
      case 2 =>
        bReg := ReadMem(memory[..], leastSig);
        var sum := WrappingAdd(aReg, bReg);
        if sum == 0 {
          zero := true;
        }
        match CheckedAdd(aReg, bReg) {
          case Some(_) =>
          case None => carry := true;
        }
        aReg := sum;
      // SUB
      case 3 =>
        var dif := aReg + bReg;
        if dif == 0 {
          zero := true;
        }
        aReg := dif;
      // STA
      case 4 => memory[leastSig] := aReg;
      // LDI
      case 5 => aReg := leastSig;
      // JMP
      case 6 => progCount := leastSig;
      // JC
      case 7 =>
        if carry {
          progCount := leastSig;
        }
      // JZ
      case 8 =>
        if zero {
          progCount := leastSig;
        }
      // OUT
      case 14 => out := aReg;
      // HLT
      case 15 => halted := true;
      case _ =>
    }

    /** `process_clock_cycle`: fetch, advance the program counter with
        wraparound, execute, and return the value printed, which is `None`
        when the machine is halted. */
    method ProcessClockCycle() returns (printed: Option<Byte>)
      requires Valid() && CanCycle(View())
      modifies this, memory
      ensures Valid()
      ensures View() == Cycle(old(View()))
      ensures printed == Printed(View())
    {
      if halted {
        return None;
      }
      var instruction := ReadMem(memory[..], progCount);
      progCount := progCount + 1;
      if progCount > 15 {
        progCount := 0;
      }
      ExecuteInstruction(instruction);
      printed := if halted then None else Some(out);
    }

    /** The driver loop of `main`, bounded to `n` cycles; returns the lines
        printed. */
    method RunCycles(n: nat) returns (printed: seq<Byte>)
      requires Valid() && CanRun(View(), n)
      modifies this, memory
      ensures Valid()
      ensures View() == Run(old(View()), n)
      ensures printed == Trace(old(View()), n)
    {
      ghost var start := View();
      printed := [];
      var i := 0;
      while i < n
        invariant 0 <= i <= n && Valid()
        invariant CanRun(start, i) && View() == Run(start, i)
        invariant printed == Trace(start, i)
      {
        RunOneMore(start, i, n);
        var line := ProcessClockCycle();
        match line {
          case Some(v) => printed := printed + [v];
          case None =>
        }
        i := i + 1;
      }
    }
  }
}
