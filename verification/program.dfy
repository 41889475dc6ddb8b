/**
 * The program the RAM is preloaded with (src/Memory.ts) run on a fresh machine
 * (src/NES.ts): LDA $07FE, PRINT, LDA $07FC, PRINT, STA $07FE, HALT.
 */
module PreloadedProgram {
  import MemoryDevice
  import Cpu6502
  import opened Nes
  import opened NesTiming

  /** A machine at its first fetch, with the cells the preloaded program touches as the RAM is built. */
  predicate Preloaded(s: NesState) {
    var r := s.ram;
    && AtFetch(s, 0) && |r| == RamSize
    && r[0] == Cpu6502.LDA && r[1] == 0x07 && r[2] == 0xFE && r[3] == Cpu6502.PRINT
    && r[4] == Cpu6502.LDA && r[5] == 0x07 && r[6] == 0xFC && r[7] == Cpu6502.PRINT
    && r[8] == Cpu6502.STA && r[9] == 0x07 && r[10] == 0xFE && r[11] == Cpu6502.HALT
    && r[0x07FC] == 0x43 && r[0x07FD] == 0x21 && r[0x07FE] == 0x12 && r[0x07FF] == 0x34
  }

  /** The machine right after construction is at its first fetch with the program and data in place. */
  lemma InitialIsPreloaded()
    ensures Preloaded(Initial)
  {
    var r := Initial.ram;
    MemoryDevice.InitialLayout(RamSize);
    assert r[0] == r[..12][0] && r[1] == r[..12][1] && r[2] == r[..12][2] && r[3] == r[..12][3];
    assert r[4] == r[..12][4] && r[5] == r[..12][5] && r[6] == r[..12][6] && r[7] == r[..12][7];
    assert r[8] == r[..12][8] && r[9] == r[..12][9] && r[10] == r[..12][10] && r[11] == r[..12][11];
    assert r[0x07FC] == r[0x07FC..][0] && r[0x07FD] == r[0x07FC..][1];
    assert r[0x07FE] == r[0x07FC..][2] && r[0x07FF] == r[0x07FC..][3];
  }

  /** Cycles 1-8: LDA $07FE (A = 0x1234), then PRINT; the fetch at address 4 is asserted. */
  lemma FirstLoadAndPrint(s: NesState)
    requires Preloaded(s)
    ensures var t := Run(s, 8);
      AtFetch(t, 4) && t.ram == s.ram && t.cpu.a == 0x1234
  {
    LdaSpansSixCycles(s, 0);
    var s6 := Run(s, 6);
    PrintSpansTwoCycles(s6, 3);
    RunAdditive(s, 6, 2);
  }

  /** Cycles 9-16: LDA $07FC (A = 0x4321), then PRINT; the fetch at address 8 is asserted. */
  lemma SecondLoadAndPrint(s: NesState)
    requires Preloaded(s)
    ensures var t := Run(s, 16);
      AtFetch(t, 8) && t.ram == s.ram && t.cpu.a == 0x4321
  {
    FirstLoadAndPrint(s);
    var s8 := Run(s, 8);
    LdaSpansSixCycles(s8, 4);
    var s14 := Run(s8, 6);
    PrintSpansTwoCycles(s14, 7);
    RunAdditive(s8, 6, 2);
    RunAdditive(s, 8, 8);
  }

  /**
   * Cycles 17-22 on their own: from the fetch at address 8 with A = 0x4321, STA $07FE
   * writes 0x43 and 0x21 at 0x07FE and 0x07FF, and the fetch of the HALT at address 11 is asserted.
   */
  lemma StoreStep(s: NesState)
    requires AtFetch(s, 8) && |s.ram| == RamSize && s.cpu.a == 0x4321
    requires s.ram[8] == Cpu6502.STA && s.ram[9] == 0x07 && s.ram[10] == 0xFE
    ensures var t := Run(s, 6);
      && AtFetch(t, 11) && t.cpu.a == 0x4321
      && t.ram == s.ram[0x07FE := 0x43][0x07FF := 0x21]
  {
    assert Operand(s.ram, 8) == 0x07FE;
    assert Cpu6502.HighByte(0x4321) == 0x43 && Cpu6502.LowByte(0x4321) == 0x21;
    StaSpansSixCycles(s, 8);
  }

  /**
   * Cycles 1-22: STA $07FE copies the word at 0x07FC over the word at 0x07FE,
   * and the fetch of the HALT at address 11 is asserted.
   */
  lemma StoreBeforeHalt(s: NesState)
    requires Preloaded(s)
    ensures var t := Run(s, 22);
      && AtFetch(t, 11) && |t.ram| == RamSize && t.ram[11] == Cpu6502.HALT && t.cpu.a == 0x4321
      && t.ram[0x07FE] == 0x43 && t.ram[0x07FF] == 0x21
      && t.ram[0x07FC] == 0x43 && t.ram[0x07FD] == 0x21
  {
    SecondLoadAndPrint(s);
    var s16 := Run(s, 16);
    StoreStep(s16);
    RunAdditive(s, 16, 6);
    var t := Run(s, 22);
    assert t == Run(s16, 6);
    assert t.ram == s.ram[0x07FE := 0x43][0x07FF := 0x21];
  }

  /**
   * After cycle 22 from a fresh machine the first five instructions are done
   * (A = 0x4321, the store applied) and the fetch of the HALT at address 11 is asserted.
   */
  lemma ProgramBeforeHalt()
    ensures var t := Run(Initial, 22);
      && AtFetch(t, 11) && |t.ram| == RamSize && t.ram[11] == Cpu6502.HALT && t.cpu.a == 0x4321
      && t.ram[0x07FE] == 0x43 && t.ram[0x07FF] == 0x21
      && t.ram[0x07FC] == 0x43 && t.ram[0x07FD] == 0x21
  {
    InitialIsPreloaded();
    StoreBeforeHalt(Initial);
  }

  /**
   * By cycle 23 the CPU has halted with A = 0x4321 and the word at 0x07FC has been
   * copied over the word at 0x07FE; in cycle 22 it was still running.
   */
  lemma ProgramOutcome()
    ensures !Run(Initial, 22).cpu.halted
    ensures var t := Run(Initial, 23);
      && t.cpu.halted && t.cpu.a == 0x4321
      && t.ram[0x07FE] == 0x43 && t.ram[0x07FF] == 0x21
      && t.ram[0x07FC] == 0x43 && t.ram[0x07FD] == 0x21
  {
    ProgramBeforeHalt();
    var s22 := Run(Initial, 22);
    HaltFreezesMachine(s22, 11, 1);
    RunAdditive(Initial, 22, 1);
  }

  /** A CPU still running at cycle k was running at every earlier cycle. */
  lemma RunningBefore(s: NesState, j: nat, k: nat)
    requires j <= k && !Run(s, k).cpu.halted
    ensures !Run(s, j).cpu.halted
  {
    if Run(s, j).cpu.halted {
      HaltedStaysHalted(Run(s, j), k - j);
      RunAdditive(s, j, k - j);
    }
  }

  /** Before cycle 23 the CPU is running. */
  lemma ProgramRunsBefore23(n: nat)
    requires n < 23
    ensures !Run(Initial, n).cpu.halted
  {
    ProgramBeforeHalt();
    RunningBefore(Initial, n, 22);
  }

  /** Once a run reaches the fetch of a HALT at cycle k, every later cycle leaves the machine as cycle k + 1 did. */
  lemma SettlesAfterHaltFetch(s: NesState, k: nat, q: nat, n: nat)
    requires AtFetch(Run(s, k), q) && q < |Run(s, k).ram| && Run(s, k).ram[q] == Cpu6502.HALT
    requires n > k
    ensures Run(s, n) == Run(s, k + 1)
  {
    var sk := Run(s, k);
    RunAdditive(s, k, 1);
    RunAdditive(s, k, n - k);
    HaltFreezesMachine(sk, q, n - k);
  }

  /** From cycle 23 on the machine no longer changes. */
  lemma ProgramSettlesAt23(n: nat)
    requires n >= 23
    ensures Run(Initial, n) == Run(Initial, 23)
  {
    ProgramBeforeHalt();
    SettlesAfterHaltFetch(Initial, 22, 11, n);
  }

  /**
   * The demonstration run at the end of src/NES.ts: build a machine, cycle it 100
   * times and describe the CPU.
   */
  method Demo() returns (accumulator: nat)
    ensures accumulator == 0x4321
  {
    var nes := new NES();
    for i := 0 to 100
      invariant nes.Valid() && fresh(nes.bus) && fresh(nes.ram.cells) && fresh(nes.cpu)
      invariant nes.State() == Run(Initial, i)
    {
      nes.Cycle();
      RunSucc(Initial, i);
    }
    ProgramOutcome();
    ProgramSettlesAt23(100);
    accumulator := nes.cpu.Describe();
  }
}
