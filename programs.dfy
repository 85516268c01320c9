/** Two programs run on the specification: the counter that `main` loads,
    and a short program that ends in HLT. */
module Programs {
  import opened U8
  import opened Machine

  /** The image `main` loads: LDI 0; ADD 15; OUT; JMP 1, with the constant 1
      in cell 15. */
  const CounterImage: Memory := [80, 47, 224, 97, 0, 0, 0, 0, 0, 0, 0, 0, 0, 0, 0, 1]

  /** The state at the head of the loop (address 1) after `k` passes. The
      256th ADD wraps the accumulator to 0 and sets both flags for good. */
  function CounterAfter(k: nat): State
  {
    Init(CounterImage).(progCount := 1,
                        aReg := k % 256,
                        bReg := if k == 0 then 0 else 1,
                        out := k % 256,
                        carry := k >= 256,
                        zero := k >= 256)
  }

  /** The lines printed up to the head of the loop after `k` passes: 0 for
      the LDI, then per pass the old count (ADD), the new count (OUT) and
      the new count again (JMP). */
  function CounterTrace(k: nat): seq<Byte>
    decreases k
  {
    if k == 0 then [0] else CounterTrace(k - 1) + [(k - 1) % 256, k % 256, k % 256]
  }

  /** The state after the ADD 15 of pass `k + 1`. */
  function CounterAdded(k: nat): State
  {
    CounterAfter(k).(progCount := 2, aReg := (k + 1) % 256, bReg := 1,
                     carry := k + 1 >= 256, zero := k + 1 >= 256)
  }

  /** ADD 15 adds the constant 1 in cell 15; the sum wraps, setting both
      flags, exactly when the count reaches a multiple of 256. */
  lemma CounterAdd(k: nat)
    ensures CanCycle(CounterAfter(k)) && Cycle(CounterAfter(k)) == CounterAdded(k)
  {
    var s := CounterAfter(k);
    assert Fetch(s) == Encode(2, 15);
    AddAccumulates(s.(progCount := 2), Fetch(s));
    assert (k % 256 + 1) % 256 == (k + 1) % 256;
    assert (k % 256 + 1) % 256 == 0 <==> k % 256 == 255;
  }

  /** OUT latches the new count. */
  lemma CounterOut(k: nat)
    ensures CanCycle(CounterAdded(k))
    ensures Cycle(CounterAdded(k)) == CounterAdded(k).(progCount := 3, out := (k + 1) % 256)
  {
    var s := CounterAdded(k);
    assert Fetch(s) == Encode(14, 0);
    OutLatchesAccumulator(s.(progCount := 3), Fetch(s));
  }

  /** JMP 1 returns to the head of the loop. */
  lemma CounterJmp(k: nat)
    ensures var s := CounterAdded(k).(progCount := 3, out := (k + 1) % 256);
            CanCycle(s) && Cycle(s) == CounterAfter(k + 1)
  {
    var s := CounterAdded(k).(progCount := 3, out := (k + 1) % 256);
    assert Fetch(s) == Encode(6, 1);
    JmpJumps(s.(progCount := 0), Fetch(s));
  }

  /** One pass of the loop, ADD 15; OUT; JMP 1, adds one to the count. */
  lemma CounterPass(k: nat)
    ensures CanRun(CounterAfter(k), 3)
    ensures Run(CounterAfter(k), 3) == CounterAfter(k + 1)
    ensures Trace(CounterAfter(k), 3) == [k % 256, (k + 1) % 256, (k + 1) % 256]
  {
    var s0 := CounterAfter(k);
    var s1 := CounterAdded(k);
    var s2 := s1.(progCount := 3, out := (k + 1) % 256);
    CounterAdd(k);
    CounterOut(k);
    CounterJmp(k);
    RunStep(CounterAfter(k + 1), 0);
    RunStep(s2, 0);
    RunStep(s1, 1);
    RunStep(s0, 2);
  }

  /** The first cycle, LDI 0, reaches the head of the loop. */
  lemma CounterStart()
    ensures CanRun(Init(CounterImage), 1)
    ensures Run(Init(CounterImage), 1) == CounterAfter(0)
    ensures Trace(Init(CounterImage), 1) == CounterTrace(0)
  {
    var s := Init(CounterImage);
    assert Cycle(s) == CounterAfter(0);
    RunStep(s, 0);
  }

  /** A run that has reached the head of the loop after `k` passes reaches
      it again after `k + 1`, three cycles later. */
  lemma CounterStep(s: State, m: nat, k: nat)
    requires CanRun(s, m) && Run(s, m) == CounterAfter(k) && Trace(s, m) == CounterTrace(k)
    ensures CanRun(s, m + 3)
    ensures Run(s, m + 3) == CounterAfter(k + 1)
    ensures Trace(s, m + 3) == CounterTrace(k + 1)
  {
    CounterPass(k);
    RunThen(s, m, 3);
  }

  /** From any state whose first `m` cycles reach the head of the loop,
      `k` passes follow. */
  lemma {:induction false} CounterLoop(s: State, m: nat, k: nat)
    requires CanRun(s, m) && Run(s, m) == CounterAfter(0) && Trace(s, m) == CounterTrace(0)
    ensures CanRun(s, m + 3 * k)
    ensures Run(s, m + 3 * k) == CounterAfter(k)
    ensures Trace(s, m + 3 * k) == CounterTrace(k)
    decreases k
  {
    if k > 0 {
      var n := m + 3 * (k - 1);
      CounterLoop(s, m, k - 1);
      CounterStep(s, n, k - 1);
      assert n + 3 == m + 3 * k;
    }
  }

  /** The program of `main` counts: after the LDI and `k` passes of the
      loop the output latch holds `k` modulo 256, and the printed lines are
      those of `CounterTrace`, so the successive OUTs print 1, 2, 3, ... */
  lemma CounterCounts(k: nat)
    ensures CanRun(Init(CounterImage), 1 + 3 * k)
    ensures Run(Init(CounterImage), 1 + 3 * k) == CounterAfter(k)
    ensures Trace(Init(CounterImage), 1 + 3 * k) == CounterTrace(k)
  {
    CounterStart();
    CounterLoop(Init(CounterImage), 1, k);
  }

  /** LDI 5; OUT; LDI 10; OUT; HLT. */
  const HaltCode: seq<Byte> := [85, 224, 90, 224, 240]

  /** The same program as a full image, the rest of memory zero. */
  const HaltImage: Memory := HaltCode + seq(11, _ => 0)

  /** The state HLT leaves behind when the program starts in `s`. */
  function HaltedAfter(s: State): State
  {
    s.(progCount := 5, aReg := 10, out := 10, halted := true)
  }

  /** A memory that starts with the program. */
  predicate HoldsHaltCode(s: State)
  {
    s.memory[..5] == HaltCode
  }

  // The five cycles of the program, one at a time.

  lemma HaltCycleLdi5(s: State)
    requires HoldsHaltCode(s) && s.progCount == 0 && !s.halted
    ensures CanCycle(s) && Cycle(s) == s.(progCount := 1, aReg := 5)
  {
    assert Fetch(s) == s.memory[..5][0] == Encode(5, 5);
    LdiLoadsLiteral(s.(progCount := 1), Fetch(s));
  }

  lemma HaltCycleOut5(s: State)
    requires HoldsHaltCode(s) && s.progCount == 1 && !s.halted && s.aReg == 5
    ensures CanCycle(s) && Cycle(s) == s.(progCount := 2, out := 5)
  {
    assert Fetch(s) == s.memory[..5][1] == Encode(14, 0);
    OutLatchesAccumulator(s.(progCount := 2), Fetch(s));
  }

  lemma HaltCycleLdi10(s: State)
    requires HoldsHaltCode(s) && s.progCount == 2 && !s.halted
    ensures CanCycle(s) && Cycle(s) == s.(progCount := 3, aReg := 10)
  {
    assert Fetch(s) == s.memory[..5][2] == Encode(5, 10);
    LdiLoadsLiteral(s.(progCount := 3), Fetch(s));
  }

  lemma HaltCycleOut10(s: State)
    requires HoldsHaltCode(s) && s.progCount == 3 && !s.halted && s.aReg == 10
    ensures CanCycle(s) && Cycle(s) == s.(progCount := 4, out := 10)
  {
    assert Fetch(s) == s.memory[..5][3] == Encode(14, 0);
    OutLatchesAccumulator(s.(progCount := 4), Fetch(s));
  }

  lemma HaltCycleHlt(s: State)
    requires HoldsHaltCode(s) && s.progCount == 4 && !s.halted
    ensures CanCycle(s) && Cycle(s) == s.(progCount := 5, halted := true)
  {
    assert Fetch(s) == s.memory[..5][4] == Encode(15, 0);
    HltHalts(s.(progCount := 5), Fetch(s));
  }

  /** The first five cycles from address 0 of a memory that starts with the
      program, whatever the registers hold: LDI 5, OUT, LDI 10, OUT, HLT. */
  lemma HaltProgramStart(s0: State)
    requires HoldsHaltCode(s0) && s0.progCount == 0 && !s0.halted
    ensures CanRun(s0, 5)
    ensures Run(s0, 5) == HaltedAfter(s0)
    ensures Trace(s0, 5) == [s0.out, 5, 5, 10]
  {
    var s1 := s0.(progCount := 1, aReg := 5);
    var s2 := s1.(progCount := 2, out := 5);
    var s3 := s2.(progCount := 3, aReg := 10);
    var s4 := s3.(progCount := 4, out := 10);
    HaltCycleLdi5(s0);
    HaltCycleOut5(s1);
    HaltCycleLdi10(s2);
    HaltCycleOut10(s3);
    HaltCycleHlt(s4);
    assert s4.(progCount := 5, halted := true) == HaltedAfter(s0);
    RunStep(s4, 0);
    RunStep(s3, 1);
    RunStep(s2, 2);
    RunStep(s1, 3);
    RunStep(s0, 4);
  }

  /** Four cycles print the old output, then 5, 5 and 10; the fifth halts
      the machine, and from then on no field changes and nothing is printed,
      however many cycles are driven. */
  lemma HaltProgram(s: State, n: nat)
    requires HoldsHaltCode(s) && s.progCount == 0 && !s.halted && n >= 5
    ensures CanRun(s, n)
    ensures Run(s, n) == HaltedAfter(s)
    ensures Trace(s, n) == [s.out, 5, 5, 10]
  {
    HaltProgramStart(s);
    RunPastHalt(s, 5, n - 5);
  }

  /** From the zeroed machine loaded with the program the lines are 0, 5, 5
      and 10. */
  lemma HaltImagePrints(n: nat)
    requires n >= 5
    ensures CanRun(Init(HaltImage), n) && Run(Init(HaltImage), n).halted
    ensures Trace(Init(HaltImage), n) == [0, 5, 5, 10]
  {
    assert HaltImage[..5] == HaltCode;
    HaltProgram(Init(HaltImage), n);
  }
}
