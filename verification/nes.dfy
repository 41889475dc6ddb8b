/**
 * The driver of src/NES.ts: one bus, a 2 KiB RAM mapped at address 0 and the
 * CPU on that bus; every cycle steps the RAM first and the CPU second.
 */
module Nes {
  import opened BusRecord
  import MemoryDevice
  import Cpu6502

  const RamSize: nat := 2 * 1024

  /** A snapshot of the whole machine; the RAM window starts at address 0. */
  datatype NesState = NesState(bus: BusState, ram: seq<Byte>, cpu: Cpu6502.CpuState)

  /** The machine right after construction. */
  const Initial: NesState := NesState(PowerOn, MemoryDevice.InitialImage(RamSize, 0), Cpu6502.Initial)

  /** One machine cycle: the RAM serves the bus, then the CPU ticks on what the RAM left there. */
  function Tick(s: NesState): (t: NesState)
    ensures |t.ram| == |s.ram|
    ensures s.bus.mode == Read ==> t.ram == s.ram
    ensures s.cpu.halted ==> t.cpu == s.cpu
  {
    var (ram, b) := MemoryDevice.Tick(s.ram, 0, s.bus);
    var (cpu, b') := Cpu6502.Tick(s.cpu, b);
    NesState(b', ram, cpu)
  }

  /** The state after n cycles. */
  function Run(s: NesState, n: nat): (t: NesState)
    decreases n
    ensures |t.ram| == |s.ram|
  {
    if n == 0 then s else Run(Tick(s), n - 1)
  }

  /**
   * n applications of step, starting from x. Additivity is proved here, where the
   * solver cannot look inside the step, and carried over to Run below.
   */
  function Iterate<T>(step: T -> T, x: T, n: nat): T
    decreases n
  {
    if n == 0 then x else Iterate(step, step(x), n - 1)
  }

  lemma {:induction false} IterateAdditive<T>(step: T -> T, x: T, m: nat, n: nat)
    decreases m
    ensures Iterate(step, x, m + n) == Iterate(step, Iterate(step, x, m), n)
  {
    if m > 0 {
      IterateAdditive(step, step(x), m - 1, n);
    }
  }

  /** Run is n applications of Tick. */
  lemma {:induction false} RunIsIterate(s: NesState, n: nat)
    decreases n
    ensures Run(s, n) == Iterate(Tick, s, n)
  {
    if n > 0 {
      RunIsIterate(Tick(s), n - 1);
    }
  }

  lemma RunAdditive(s: NesState, m: nat, n: nat)
    ensures Run(s, m + n) == Run(Run(s, m), n)
  {
    RunIsIterate(s, m + n);
    RunIsIterate(s, m);
    RunIsIterate(Run(s, m), n);
    IterateAdditive(Tick, s, m, n);
  }

  lemma RunSucc(s: NesState, n: nat)
    ensures Run(s, n + 1) == Tick(Run(s, n))
  {
    RunAdditive(s, n, 1);
  }

  /**
   * A read asserted on the bus when a cycle starts is served by the RAM before
   * the CPU's step of that cycle, so the CPU sees the addressed byte.
   */
  lemma ReadServedBeforeCpuStep(s: NesState)
    requires s.bus.mode == Read && s.bus.address < |s.ram|
    ensures var (cpu, b) := Cpu6502.Tick(s.cpu, s.bus.(value := s.ram[s.bus.address]));
            Tick(s) == NesState(b, s.ram, cpu)
  {
  }

  /**
   * A write asserted on the bus when a cycle starts is applied to the RAM in that
   * cycle, before the CPU's step, which sees the bus unchanged.
   */
  lemma WriteAppliedBeforeCpuStep(s: NesState)
    requires s.bus.mode == Write && s.bus.address < |s.ram|
    ensures var (cpu, b) := Cpu6502.Tick(s.cpu, s.bus);
            Tick(s) == NesState(b, s.ram[s.bus.address := s.bus.value], cpu)
  {
  }

  /** Once halted, the CPU part of the state never changes again. */
  lemma {:induction false} HaltedStaysHalted(s: NesState, n: nat)
    decreases n
    requires s.cpu.halted
    ensures Run(s, n).cpu == s.cpu
  {
    if n > 0 {
      assert Tick(s).cpu == s.cpu;
      HaltedStaysHalted(Tick(s), n - 1);
    }
  }

  /** A state the cycle maps to itself stays put for ever. */
  lemma {:induction false} FixedPointStays(s: NesState, n: nat)
    requires Tick(s) == s
    ensures Run(s, n) == s
  {
    if n > 0 {
      FixedPointStays(s, n - 1);
    }
  }

  /** In every state the machine reaches from construction, the CPU invariant holds; in particular A < 0x10000. */
  lemma {:induction false} ReachableStatesValid(n: nat)
    ensures Cpu6502.Valid(Run(Initial, n).cpu)
  {
    if n > 0 {
      ReachableStatesValid(n - 1);
      var s := Run(Initial, n - 1);
      RunSucc(Initial, n - 1);
      Cpu6502.TickPreservesValid(s.cpu, MemoryDevice.Tick(s.ram, 0, s.bus).1);
    }
  }

  class NES {
    const bus: Bus
    const ram: MemoryDevice.Memory
    const cpu: Cpu6502.CPU6502

    ghost predicate Valid() {
      && ram.bus == bus && cpu.bus == bus
      && ram.Valid() && ram.start == 0 && ram.cells.Length == RamSize
    }

    function State(): NesState
      reads bus, ram.cells, cpu
    {
      NesState(bus.State(), ram.cells[..], cpu.State())
    }

    /** The bus, then the RAM on it, then the CPU on the same bus. */
    constructor ()
      ensures Valid() && fresh(bus) && fresh(ram.cells) && fresh(cpu)
      ensures State() == Initial
    {
      var b := new Bus();
      var m := new MemoryDevice.Memory(b, RamSize);
      var c := new Cpu6502.CPU6502(b);
      bus, ram, cpu := b, m, c;
    }

    /** Steps the RAM once, then the CPU once. */
    method Cycle()
      requires Valid()
      modifies bus, ram.cells, cpu
      ensures State() == Tick(old(State()))
    {
      ram.Cycle();
      cpu.Cycle();
    }
  }
}
