/**
 * Instruction-level timing of the machine of src/NES.ts and the outcome of the
 * program the RAM is preloaded with.
 */
module NesTiming {
  import opened Optional
  import opened BusRecord
  import MemoryDevice
  import Cpu6502
  import opened Nes

  /**
   * An instruction boundary: the fetch of the opcode at address q is asserted
   * on the bus (PC already past it), the latch is empty and nothing is in flight.
   */
  predicate AtFetch(s: NesState, q: nat) {
    && s.cpu.pc == q + 1 && !s.cpu.halted && s.cpu.valueRead.None?
    && s.cpu.pendingRead && s.cpu.job.None?
    && s.bus.mode == Read && s.bus.address == q
  }

  /** An instruction is in flight. */
  predicate Busy(s: NesState) {
    s.cpu.job.Some? && !s.cpu.halted
  }

  /** The absolute address formed from the two operand bytes after the opcode at q, high byte first. */
  function Operand(ram: seq<Byte>, q: nat): nat
    requires q + 2 < |ram|
  {
    Cpu6502.Word(ram[q + 1], ram[q + 2])
  }

  /** A Tick taken from the state at cycle k gives the state at cycle k + 1. */
  lemma RunStep(s: NesState, k: nat, x: NesState, y: NesState)
    requires Run(s, k) == x && Tick(x) == y
    ensures Run(s, k + 1) == y
  {
    RunSucc(s, k);
  }

  /** The machine in the middle of an instruction: job j in flight, no fetch pending. */
  function InFlight(b: BusState, r: seq<Byte>, pc: nat, a: nat, j: Cpu6502.Job): NesState {
    NesState(b, r, Cpu6502.CpuState(pc, a, false, None, false, Some(j)))
  }

  /** The machine after the fetch at q: PC past the opcode, A = a, RAM r. */
  function Fetching(b: BusState, r: seq<Byte>, q: nat, a: nat): NesState {
    NesState(b, r, Cpu6502.CpuState(q + 1, a, false, None, true, None))
  }

  /** The state k cycles (1 to 6) into an LDA fetched at q, from RAM r and A = a. */
  function LdaTrace(r: seq<Byte>, q: nat, a: nat, k: nat): NesState
    requires q + 2 < |r| && Operand(r, q) + 1 < |r|
  {
    var x := Operand(r, q);
    if k <= 1 then InFlight(BusState(Read, q, r[q]), r, q + 1, a, Cpu6502.Lda(Cpu6502.LoadStart))
    else if k == 2 then InFlight(BusState(Read, q + 1, r[q]), r, q + 2, a, Cpu6502.Lda(Cpu6502.LoadAwaitHi))
    else if k == 3 then
      InFlight(BusState(Read, q + 2, r[q + 1]), r, q + 3, a, Cpu6502.Lda(Cpu6502.LoadAwaitLo(r[q + 1])))
    else if k == 4 then
      InFlight(BusState(Read, x, r[q + 2]), r, q + 3, a, Cpu6502.Lda(Cpu6502.LoadAwaitValueHi(x)))
    else if k == 5 then
      InFlight(BusState(Read, x + 1, r[x]), r, q + 3, a, Cpu6502.Lda(Cpu6502.LoadAwaitValueLo(r[x])))
    else Fetching(BusState(Read, q + 3, r[x + 1]), r, q + 3, Cpu6502.Word(r[x], r[x + 1]))
  }

  /** The dispatch cycle of an LDA. */
  lemma LdaDispatch(s: NesState, q: nat)
    requires AtFetch(s, q) && q + 2 < |s.ram| && s.ram[q] == Cpu6502.LDA
    requires Operand(s.ram, q) + 1 < |s.ram|
    ensures Run(s, 1) == LdaTrace(s.ram, q, s.cpu.a, 1)
  {
    RunStep(s, 0, s, LdaTrace(s.ram, q, s.cpu.a, 1));
  }

  /** Each later cycle of an LDA, one Tick at a time. */
  lemma LdaCycle(r: seq<Byte>, q: nat, a: nat, k: nat)
    requires q + 2 < |r| && Operand(r, q) + 1 < |r| && 1 <= k < 6
    ensures Tick(LdaTrace(r, q, a, k)) == LdaTrace(r, q, a, k + 1)
  {
    var x, y := LdaTrace(r, q, a, k), LdaTrace(r, q, a, k + 1);
    if k == 1 {
      assert Tick(x) == y;
    } else if k == 2 {
      assert Tick(x) == y;
    } else if k == 3 {
      assert Tick(x) == y;
    } else if k == 4 {
      assert Tick(x) == y;
    } else {
      assert Tick(x) == y;
    }
  }

  /** The state k cycles (1 to 6) into an STA fetched at q, from RAM r and A = a. */
  function StaTrace(r: seq<Byte>, q: nat, a: nat, k: nat): NesState
    requires q + 2 < |r| && Operand(r, q) + 1 < |r|
  {
    var x, hi, lo := Operand(r, q), Cpu6502.HighByte(a), Cpu6502.LowByte(a);
    if k <= 1 then InFlight(BusState(Read, q, r[q]), r, q + 1, a, Cpu6502.Sta(Cpu6502.StoreStart))
    else if k == 2 then InFlight(BusState(Read, q + 1, r[q]), r, q + 2, a, Cpu6502.Sta(Cpu6502.StoreAwaitHi))
    else if k == 3 then
      InFlight(BusState(Read, q + 2, r[q + 1]), r, q + 3, a, Cpu6502.Sta(Cpu6502.StoreAwaitLo(r[q + 1])))
    else if k == 4 then
      InFlight(BusState(Write, x, hi), r, q + 3, a, Cpu6502.Sta(Cpu6502.StoreWritingHi(x)))
    else if k == 5 then
      InFlight(BusState(Write, x + 1, lo), r[x := hi], q + 3, a, Cpu6502.Sta(Cpu6502.StoreWritingLo))
    else Fetching(BusState(Read, q + 3, lo), r[x := hi][x + 1 := lo], q + 3, a)
  }

  /** The dispatch cycle of an STA. */
  lemma StaDispatch(s: NesState, q: nat)
    requires AtFetch(s, q) && q + 2 < |s.ram| && s.ram[q] == Cpu6502.STA
    requires Operand(s.ram, q) + 1 < |s.ram|
    ensures Run(s, 1) == StaTrace(s.ram, q, s.cpu.a, 1)
  {
    RunStep(s, 0, s, StaTrace(s.ram, q, s.cpu.a, 1));
  }

  /** Each later cycle of an STA, one Tick at a time. */
  lemma StaCycle(r: seq<Byte>, q: nat, a: nat, k: nat)
    requires q + 2 < |r| && Operand(r, q) + 1 < |r| && 1 <= k < 6
    ensures Tick(StaTrace(r, q, a, k)) == StaTrace(r, q, a, k + 1)
  {
    var x, y := StaTrace(r, q, a, k), StaTrace(r, q, a, k + 1);
    if k == 1 {
      assert Tick(x) == y;
    } else if k == 2 {
      assert Tick(x) == y;
    } else if k == 3 {
      assert Tick(x) == y;
    } else if k == 4 {
      assert Tick(x) == y;
    } else {
      assert Tick(x) == y;
    }
  }

  /**
   * LDA spans six cycles: the dispatch cycle, then one per bus access (operand
   * high byte, operand low byte, data high byte, data low byte) and a last one
   * that finishes the job and asserts the next fetch. A becomes the big-endian
   * word at the operand address; the RAM is untouched.
   */
  lemma LdaSpansSixCycles(s: NesState, q: nat)
    requires AtFetch(s, q) && q + 2 < |s.ram| && s.ram[q] == Cpu6502.LDA
    requires Operand(s.ram, q) + 1 < |s.ram|
    ensures Busy(Run(s, 1)) && Busy(Run(s, 2)) && Busy(Run(s, 3)) && Busy(Run(s, 4)) && Busy(Run(s, 5))
    ensures Run(s, 2).bus.mode == Read && Run(s, 2).bus.address == q + 1
    ensures Run(s, 3).bus.mode == Read && Run(s, 3).bus.address == q + 2
    ensures Run(s, 4).bus.mode == Read && Run(s, 4).bus.address == Operand(s.ram, q)
    ensures Run(s, 5).bus.mode == Read && Run(s, 5).bus.address == Operand(s.ram, q) + 1
    ensures AtFetch(Run(s, 6), q + 3) && Run(s, 6).ram == s.ram
    ensures Run(s, 6).cpu.a == Cpu6502.Word(s.ram[Operand(s.ram, q)], s.ram[Operand(s.ram, q) + 1])
  {
    var r, a := s.ram, s.cpu.a;
    LdaDispatch(s, q);
    LdaCycle(r, q, a, 1);
    RunStep(s, 1, LdaTrace(r, q, a, 1), LdaTrace(r, q, a, 2));
    LdaCycle(r, q, a, 2);
    RunStep(s, 2, LdaTrace(r, q, a, 2), LdaTrace(r, q, a, 3));
    LdaCycle(r, q, a, 3);
    RunStep(s, 3, LdaTrace(r, q, a, 3), LdaTrace(r, q, a, 4));
    LdaCycle(r, q, a, 4);
    RunStep(s, 4, LdaTrace(r, q, a, 4), LdaTrace(r, q, a, 5));
    LdaCycle(r, q, a, 5);
    RunStep(s, 5, LdaTrace(r, q, a, 5), LdaTrace(r, q, a, 6));
  }


  /**
   * STA spans six cycles. Its writes are asserted in cycles 4 and 5 and each is
   * applied to the RAM at the start of the following cycle: A's high byte at the
   * operand address, A's low byte right after it. A is unchanged.
   */
  lemma StaSpansSixCycles(s: NesState, q: nat)
    requires AtFetch(s, q) && q + 2 < |s.ram| && s.ram[q] == Cpu6502.STA
    requires Operand(s.ram, q) + 1 < |s.ram|
    ensures var x, a := Operand(s.ram, q), s.cpu.a;
      && Busy(Run(s, 1)) && Busy(Run(s, 2)) && Busy(Run(s, 3)) && Busy(Run(s, 4)) && Busy(Run(s, 5))
      && Run(s, 2).bus.mode == Read && Run(s, 2).bus.address == q + 1
      && Run(s, 3).bus.mode == Read && Run(s, 3).bus.address == q + 2
      && Run(s, 4).bus == BusState(Write, x, Cpu6502.HighByte(a)) && Run(s, 4).ram == s.ram
      && Run(s, 5).bus == BusState(Write, x + 1, Cpu6502.LowByte(a))
      && Run(s, 5).ram == s.ram[x := Cpu6502.HighByte(a)]
      && AtFetch(Run(s, 6), q + 3) && Run(s, 6).cpu.a == a
      && Run(s, 6).ram == s.ram[x := Cpu6502.HighByte(a)][x + 1 := Cpu6502.LowByte(a)]
  {
    var r, a := s.ram, s.cpu.a;
    StaDispatch(s, q);
    StaCycle(r, q, a, 1);
    RunStep(s, 1, StaTrace(r, q, a, 1), StaTrace(r, q, a, 2));
    StaCycle(r, q, a, 2);
    RunStep(s, 2, StaTrace(r, q, a, 2), StaTrace(r, q, a, 3));
    StaCycle(r, q, a, 3);
    RunStep(s, 3, StaTrace(r, q, a, 3), StaTrace(r, q, a, 4));
    StaCycle(r, q, a, 4);
    RunStep(s, 4, StaTrace(r, q, a, 4), StaTrace(r, q, a, 5));
    StaCycle(r, q, a, 5);
    RunStep(s, 5, StaTrace(r, q, a, 5), StaTrace(r, q, a, 6));
  }


  /** PRINT has no bus access and spans two cycles: dispatch, then finish and fetch. */
  lemma PrintSpansTwoCycles(s: NesState, q: nat)
    requires AtFetch(s, q) && q < |s.ram| && s.ram[q] == Cpu6502.PRINT
    ensures Busy(Run(s, 1))
    ensures AtFetch(Run(s, 2), q + 1) && Run(s, 2).ram == s.ram && Run(s, 2).cpu.a == s.cpu.a
  {
    var r, a := s.ram, s.cpu.a;
    var s1 := NesState(BusState(Read, q, r[q]), r,
      Cpu6502.CpuState(q + 1, a, false, None, false, Some(Cpu6502.Print)));
    RunSucc(s, 0);
    assert Run(s, 1) == s1;
    RunSucc(s, 1);
  }

  /**
   * HALT takes effect in its dispatch cycle, and from then on every cycle leaves
   * the whole machine as it is: PC, A, the bus and the RAM.
   */
  lemma HaltFreezesMachine(s: NesState, q: nat, n: nat)
    requires AtFetch(s, q) && q < |s.ram| && s.ram[q] == Cpu6502.HALT
    requires n >= 1
    ensures Run(s, n) == Run(s, 1)
    ensures Run(s, 1).cpu.halted && Run(s, 1).ram == s.ram
    ensures Run(s, 1).cpu.pc == s.cpu.pc && Run(s, 1).cpu.a == s.cpu.a
  {
    var s1 := NesState(BusState(Read, q, s.ram[q]), s.ram,
      Cpu6502.CpuState(q + 1, s.cpu.a, true, None, false, None));
    RunSucc(s, 0);
    assert Run(s, 1) == s1;
    assert Tick(s1) == s1;
    RunAdditive(s, 1, n - 1);
    FixedPointStays(s1, n - 1);
  }

  /**
   * An unknown opcode creates no job and issues no fetch; from then on each cycle
   * dispatches on the empty latch and the machine never changes again: PC and A
   * are frozen and the bus stays on the read of the offending byte.
   */
  lemma UnknownOpcodeFreezesMachine(s: NesState, q: nat, n: nat)
    requires AtFetch(s, q) && q < |s.ram| && s.ram[q] > Cpu6502.HALT
    requires n >= 1
    ensures Run(s, n) == Run(s, 1)
    ensures !Run(s, 1).cpu.halted && Run(s, 1).cpu.job.None? && Run(s, 1).ram == s.ram
    ensures Run(s, 1).cpu.pc == s.cpu.pc && Run(s, 1).cpu.a == s.cpu.a
    ensures Run(s, 1).bus == BusState(Read, q, s.ram[q])
  {
    var s1 := NesState(BusState(Read, q, s.ram[q]), s.ram,
      Cpu6502.CpuState(q + 1, s.cpu.a, false, None, false, None));
    RunSucc(s, 0);
    assert Run(s, 1) == s1;
    assert Tick(s1) == s1;
    RunAdditive(s, 1, n - 1);
    FixedPointStays(s1, n - 1);
  }

  /**
   * The LDA half of the round trip: loading back the two bytes of a stored at the
   * operand gives a again.
   */
  lemma LoadHalf(t: NesState, q: nat, x: nat, a: nat)
    requires AtFetch(t, q) && q + 2 < |t.ram| && t.ram[q] == Cpu6502.LDA && a < 0x10000
    requires x == Operand(t.ram, q) && x + 1 < |t.ram|
    requires t.ram[x] == Cpu6502.HighByte(a) && t.ram[x + 1] == Cpu6502.LowByte(a)
    ensures AtFetch(Run(t, 6), q + 3) && Run(t, 6).cpu.a == a
  {
    LdaSpansSixCycles(t, q);
    Cpu6502.SplitJoin(a);
  }

  /**
   * The STA half of the round trip: the two bytes of A land at the operand, and the
   * LDA that follows, with the same operand, is left intact.
   */
  lemma StoreHalf(s: NesState, q: nat)
    requires AtFetch(s, q) && q + 5 < |s.ram|
    requires s.ram[q] == Cpu6502.STA && s.ram[q + 3] == Cpu6502.LDA
    requires Operand(s.ram, q + 3) == Operand(s.ram, q)
    requires Operand(s.ram, q) + 1 < |s.ram|
    requires Operand(s.ram, q) + 1 < q + 3 || Operand(s.ram, q) > q + 5
    ensures var t, x := Run(s, 6), Operand(s.ram, q);
      && AtFetch(t, q + 3) && |t.ram| == |s.ram| && t.cpu.a == s.cpu.a
      && t.ram[q + 3] == Cpu6502.LDA && Operand(t.ram, q + 3) == x
      && t.ram[x] == Cpu6502.HighByte(s.cpu.a) && t.ram[x + 1] == Cpu6502.LowByte(s.cpu.a)
  {
    StaSpansSixCycles(s, q);
    var t := Run(s, 6);
    assert t.ram[q + 3] == s.ram[q + 3] && t.ram[q + 4] == s.ram[q + 4] && t.ram[q + 5] == s.ram[q + 5];
  }

  /**
   * STA to an address followed by LDA from the same address gives A back, as long
   * as the two bytes stored lie in the window and do not overwrite the LDA.
   */
  lemma StoreThenLoadRoundTrip(s: NesState, q: nat)
    requires AtFetch(s, q) && q + 5 < |s.ram| && s.cpu.a < 0x10000
    requires s.ram[q] == Cpu6502.STA && s.ram[q + 3] == Cpu6502.LDA
    requires Operand(s.ram, q + 3) == Operand(s.ram, q)
    requires Operand(s.ram, q) + 1 < |s.ram|
    requires Operand(s.ram, q) + 1 < q + 3 || Operand(s.ram, q) > q + 5
    ensures AtFetch(Run(s, 12), q + 6) && Run(s, 12).cpu.a == s.cpu.a
  {
    StoreHalf(s, q);
    var t := Run(s, 6);
    LoadHalf(t, q + 3, Operand(s.ram, q), s.cpu.a);
    RunAdditive(s, 6, 6);
    assert Run(s, 12) == Run(t, 6);
  }
}
