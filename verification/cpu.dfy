/**
 * The CPU of src/CPU6502/index.ts. Each instruction of the source is a generator
 * that yields once per bus access; here it is a phase value that `Cycle` advances
 * once per resumption, and the tick itself is the pure function `Tick`, which the
 * class method `CPU6502.Cycle` is proved to implement.
 */
module Cpu6502 {
  import opened Optional
  import opened BusRecord

  const LDA: Byte := 0x00
  const STA: Byte := 0x01
  const PRINT: Byte := 0x02
  const HALT: Byte := 0x03

  /** Where an LDA job is suspended; every phase but the first waits at one `yield`. */
  datatype LoadPhase =
    | LoadStart                        // created by dispatch, not yet resumed
    | LoadAwaitHi                      // read of the high operand byte asserted
    | LoadAwaitLo(hi: Byte)            // read of the low operand byte asserted
    | LoadAwaitValueHi(address: nat)   // read of the high data byte asserted
    | LoadAwaitValueLo(valueHi: Byte)  // read of the low data byte asserted

  /** Where an STA job is suspended. */
  datatype StorePhase =
    | StoreStart
    | StoreAwaitHi
    | StoreAwaitLo(hi: Byte)
    | StoreWritingHi(address: nat)     // write of A's high byte asserted
    | StoreWritingLo                   // write of A's low byte asserted

  /** An in-flight instruction. PRINT has no bus access, so it never yields. */
  datatype Job = Lda(load: LoadPhase) | Sta(store: StorePhase) | Print

  /** A snapshot of the CPU fields. */
  datatype CpuState = CpuState(
    pc: nat,
    a: nat,
    halted: bool,
    valueRead: Option<Byte>,   // the one-value latch
    pendingRead: bool,         // an instruction fetch is asserted and not yet resumed
    job: Option<Job>)

  /** The state right after construction: the fetch of address 0 is asserted. */
  const Initial: CpuState := CpuState(1, 0, false, None, true, None)

  /** Invariant of the state between ticks. */
  predicate Valid(s: CpuState) {
    && s.valueRead.None?
    && (s.pendingRead ==> s.job.None?)
    && s.a < 0x10000
  }

  /** `hi << 8 | lo` on two bytes. */
  function Word(hi: Byte, lo: Byte): (w: nat)
    ensures w < 0x10000 && w / 256 == hi && w % 256 == lo
  {
    hi * 256 + lo
  }

  /** `(a & 0xFF00) >> 8`. */
  function HighByte(a: nat): (hi: Byte)
    ensures a < 0x10000 ==> hi * 256 <= a < hi * 256 + 256
  {
    (a / 256) % 256
  }

  /** `a & 0x00FF`. */
  function LowByte(a: nat): (lo: Byte)
    ensures (a - lo) % 256 == 0
  {
    a % 256
  }

  /** Splitting a 16-bit accumulator the way STA does and joining the halves the way LDA does gives it back. */
  lemma SplitJoin(a: nat)
    requires a < 0x10000
    ensures Word(HighByte(a), LowByte(a)) == a
  {
  }

  /** `_consumeValue`: hand out the latch and clear it. */
  function Consume(s: CpuState): (r: (Option<Byte>, CpuState))
    ensures r.0 == s.valueRead && r.1.valueRead.None?
    ensures r.1.(valueRead := s.valueRead) == s
  {
    (s.valueRead, s.(valueRead := None))
  }

  /** A latched value is handed out once; consuming again yields nothing. */
  lemma ConsumeAtMostOnce(s: CpuState)
    ensures Consume(s).0 == s.valueRead
    ensures Consume(s).1.valueRead == None
    ensures Consume(Consume(s).1).0 == None
  {
  }

  /** The resumption of `_getFromMemory`: latch the bus value. */
  function Latch(s: CpuState, b: BusState): CpuState {
    s.(valueRead := Some(b.value))
  }

  /** A read finished inside a job: latch the bus value and consume it at once. */
  function Receive(s: CpuState, b: BusState): (Byte, CpuState) {
    var (v, t) := Consume(Latch(s, b));
    (v.value, t)
  }

  /** The outcome of resuming a job once. */
  datatype Advanced = Advanced(cpu: CpuState, bus: BusState, done: bool)

  /** One resumption of the LDA generator. */
  function AdvanceLoad(p: LoadPhase, s: CpuState, b: BusState): (r: Advanced)
    ensures r.cpu.halted == s.halted && r.cpu.pendingRead == s.pendingRead
  {
    match p
    case LoadStart =>
      Advanced(s.(pc := s.pc + 1, job := Some(Lda(LoadAwaitHi))), ReadRequest(b, s.pc), false)
    case LoadAwaitHi =>
      var (hi, t) := Receive(s, b);
      Advanced(t.(pc := t.pc + 1, job := Some(Lda(LoadAwaitLo(hi)))), ReadRequest(b, t.pc), false)
    case LoadAwaitLo(hi) =>
      var (lo, t) := Receive(s, b);
      var address := Word(hi, lo);
      Advanced(t.(job := Some(Lda(LoadAwaitValueHi(address)))), ReadRequest(b, address), false)
    case LoadAwaitValueHi(address) =>
      var (valueHi, t) := Receive(s, b);
      Advanced(t.(job := Some(Lda(LoadAwaitValueLo(valueHi)))), ReadRequest(b, address + 1), false)
    case LoadAwaitValueLo(valueHi) =>
      var (valueLo, t) := Receive(s, b);
      Advanced(t.(a := Word(valueHi, valueLo)), b, true)
  }

  /** One resumption of the STA generator. */
  function AdvanceStore(p: StorePhase, s: CpuState, b: BusState): (r: Advanced)
    ensures r.cpu.a == s.a && r.cpu.halted == s.halted && r.cpu.pendingRead == s.pendingRead
  {
    match p
    case StoreStart =>
      Advanced(s.(pc := s.pc + 1, job := Some(Sta(StoreAwaitHi))), ReadRequest(b, s.pc), false)
    case StoreAwaitHi =>
      var (hi, t) := Receive(s, b);
      Advanced(t.(pc := t.pc + 1, job := Some(Sta(StoreAwaitLo(hi)))), ReadRequest(b, t.pc), false)
    case StoreAwaitLo(hi) =>
      var (lo, t) := Receive(s, b);
      var address := Word(hi, lo);
      Advanced(t.(job := Some(Sta(StoreWritingHi(address)))), WriteRequest(address, HighByte(t.a)), false)
    case StoreWritingHi(address) =>
      Advanced(s.(job := Some(Sta(StoreWritingLo))), WriteRequest(address + 1, LowByte(s.a)), false)
    case StoreWritingLo =>
      Advanced(s, b, true)
  }

  /** One resumption of the job `j`; PRINT's only effect is console output. */
  function Advance(j: Job, s: CpuState, b: BusState): Advanced {
    match j
    case Lda(p) => AdvanceLoad(p, s, b)
    case Sta(p) => AdvanceStore(p, s, b)
    case Print => Advanced(s, b, true)
  }

  /**
   * A pending LDA resumption only reads, leaving A and the bus value alone; the
   * finishing one leaves the bus and PC as they were.
   */
  lemma AdvanceLoadShape(p: LoadPhase, s: CpuState, b: BusState)
    ensures var r := AdvanceLoad(p, s, b);
      && (!r.done ==> r.cpu.a == s.a && r.bus.mode == Read && r.bus.value == b.value)
      && (!r.done ==> r.cpu.job.Some? && r.cpu.job.value.Lda?)
      && (r.done ==> r.bus == b && r.cpu.pc == s.pc)
  {
  }

  /**
   * The only values an STA resumption ever writes are the two bytes of A; the
   * finishing resumption leaves the bus and PC as they were.
   */
  lemma AdvanceStoreShape(p: StorePhase, s: CpuState, b: BusState)
    ensures var r := AdvanceStore(p, s, b);
      && (r.bus.mode == Write && r.bus != b ==>
            r.bus.value == HighByte(s.a) || r.bus.value == LowByte(s.a))
      && (!r.done ==> r.cpu.job.Some? && r.cpu.job.value.Sta?)
      && (r.done ==> r.bus == b && r.cpu.pc == s.pc)
  {
  }

  /** Bus accesses a job has yet to assert. */
  function Requests(j: Job): nat {
    match j
    case Lda(LoadStart) => 4
    case Lda(LoadAwaitHi) => 3
    case Lda(LoadAwaitLo(_)) => 2
    case Lda(LoadAwaitValueHi(_)) => 1
    case Lda(LoadAwaitValueLo(_)) => 0
    case Sta(StoreStart) => 4
    case Sta(StoreAwaitHi) => 3
    case Sta(StoreAwaitLo(_)) => 2
    case Sta(StoreWritingHi(_)) => 1
    case Sta(StoreWritingLo) => 0
    case Print => 0
  }

  /**
   * Every resumption either asserts one more bus access or, once all are
   * asserted, finishes the job: a job with k accesses to go finishes on its
   * (k+1)-th resumption.
   */
  lemma AdvanceCountsDown(j: Job, s: CpuState, b: BusState)
    ensures var adv := Advance(j, s, b);
      && (adv.done <==> Requests(j) == 0)
      && (!adv.done ==> adv.cpu.job.Some? && Requests(adv.cpu.job.value) == Requests(j) - 1)
      && adv.cpu.halted == s.halted && adv.cpu.pendingRead == s.pendingRead
  {
  }

  /** Assert the next instruction fetch at `pc` and post-increment `pc`. */
  function IssueFetch(s: CpuState, b: BusState): (r: (CpuState, BusState))
    ensures r.1.mode == Read && r.1.address == s.pc && r.1.value == b.value
    ensures r.0.pc == s.pc + 1 && r.0.pendingRead
  {
    (s.(pc := s.pc + 1, pendingRead := true), ReadRequest(b, s.pc))
  }

  /** Consume the latched opcode and create its job; the job is not resumed in this tick. */
  function Dispatch(s: CpuState, b: BusState): (r: (CpuState, BusState))
    ensures r.1 == b && r.0.pc == s.pc && r.0.a == s.a && r.0.valueRead.None?
    ensures r.0.pendingRead == s.pendingRead
  {
    var (opcode, t) := Consume(s);
    if opcode == Some(LDA) then (t.(job := Some(Lda(LoadStart))), b)
    else if opcode == Some(STA) then (t.(job := Some(Sta(StoreStart))), b)
    else if opcode == Some(PRINT) then (t.(job := Some(Print)), b)
    else if opcode == Some(HALT) then (t.(halted := true), b)
    else (t, b)  // unknown opcode or empty latch: reported, no job, no fetch
  }

  /**
   * Dispatch halts exactly on HALT, and a job it creates from an empty job slot
   * has PRINT's zero bus accesses or the four of LDA and STA still to assert.
   */
  lemma DispatchDecides(s: CpuState, b: BusState)
    ensures var (t, _) := Dispatch(s, b);
      && (t.halted <==> s.halted || s.valueRead == Some(HALT))
      && (s.job.None? && t.job.Some? ==>
            Requests(t.job.value) == if s.valueRead == Some(PRINT) then 0 else 4)
  {
  }

  /** One CPU tick on snapshots, `b` being the bus as the devices left it. */
  function Tick(s: CpuState, b: BusState): (r: (CpuState, BusState))
    ensures s.halted ==> r == (s, b)
    ensures Valid(s) ==> Valid(r.0)
  {
    if s.halted then (s, b)
    else
      var s1 := if s.pendingRead then Latch(s, b).(pendingRead := false) else s;
      if s1.job.None? then Dispatch(s1, b)
      else
        var adv := Advance(s1.job.value, s1, b);
        if adv.done then IssueFetch(adv.cpu.(job := None), adv.bus)
        else (adv.cpu, adv.bus)
  }

  /** A halted CPU changes nothing, neither in itself nor on the bus. */
  lemma HaltedTickIsNoOp(s: CpuState, b: BusState)
    requires s.halted
    ensures Tick(s, b) == (s, b)
  {
  }

  /** A tick moves PC by at most one: only issuing a fetch advances it. */
  lemma TickMovesPcByAtMostOne(s: CpuState, b: BusState)
    ensures var t := Tick(s, b).0; t.pc == s.pc || t.pc == s.pc + 1
  {
  }

  /** The invariant holds after every tick; in particular A stays a 16-bit word. */
  lemma TickPreservesValid(s: CpuState, b: BusState)
    requires Valid(s)
    ensures Valid(Tick(s, b).0)
  {
  }

  /**
   * The dispatch tick: the opcode is the fetched bus value (or the empty latch);
   * a known opcode gets a job that has not been resumed, HALT halts, anything else
   * gets nothing. PC, A and the bus are untouched, and no fetch is issued.
   */
  lemma DispatchTick(s: CpuState, b: BusState)
    requires Valid(s) && !s.halted && s.job.None?
    ensures var opcode := if s.pendingRead then Some(b.value) else None;
            var (t, b') := Tick(s, b);
      && b' == b && t.pc == s.pc && t.a == s.a
      && t.valueRead.None? && !t.pendingRead
      && (t.job == Some(Lda(LoadStart)) <==> opcode == Some(LDA))
      && (t.job == Some(Sta(StoreStart)) <==> opcode == Some(STA))
      && (t.job == Some(Print) <==> opcode == Some(PRINT))
      && (t.halted <==> opcode == Some(HALT))
      && (t.job.None? <==> opcode !in {Some(LDA), Some(STA), Some(PRINT)})
  {
  }

  /**
   * After an unknown opcode the CPU has no job, no pending fetch and an empty
   * latch; from then on every tick dispatches on the empty latch and changes
   * nothing: PC and A are frozen and the bus is never written again.
   */
  lemma UnknownOpcodeLivelock(s: CpuState, b: BusState)
    requires !s.halted && s.job.None? && !s.pendingRead && s.valueRead.None?
    ensures Tick(s, b) == (s, b)
  {
  }

  /**
   * The tick in which a job finishes asserts the next fetch at the current PC
   * and increments PC by exactly one.
   */
  lemma FetchOnCompletion(s: CpuState, b: BusState)
    requires !s.halted && !s.pendingRead && s.job.Some? && Requests(s.job.value) == 0
    ensures var (t, b') := Tick(s, b);
      && b'.mode == Read && b'.address == s.pc && t.pc == s.pc + 1
      && t.pendingRead && t.job.None? && !t.halted
  {
  }

  /** The CPU alone, the bus before each tick given by `env` (what the devices left there). */
  function RunWith(s: CpuState, env: seq<BusState>): CpuState
    decreases |env|
  {
    if env == [] then s else RunWith(Tick(s, env[0]).0, env[1..])
  }

  /**
   * Whatever the devices put on the bus, a job with k accesses to go is in flight
   * for the next k ticks and finishes, issuing the next fetch, in the (k+1)-th.
   * With the dispatch tick, an instruction with k accesses spans k + 2 ticks.
   */
  lemma {:induction false} JobSpan(s: CpuState, env: seq<BusState>)
    decreases |env|
    requires !s.halted && !s.pendingRead && s.job.Some?
    requires |env| == Requests(s.job.value) + 1
    ensures forall i :: 0 <= i < |env| ==> RunWith(s, env[..i]).job.Some?
    ensures RunWith(s, env).job.None? && RunWith(s, env).pendingRead
  {
    AdvanceCountsDown(s.job.value, s, env[0]);
    var t := Tick(s, env[0]).0;
    if |env| > 1 {
      JobSpan(t, env[1..]);
    }
    forall i | 0 <= i < |env| ensures RunWith(s, env[..i]).job.Some? {
      if i > 0 {
        assert env[..i][0] == env[0] && env[..i][1..] == env[1..][..i - 1];
      }
    }
  }

  class CPU6502 {
    const bus: Bus
    var pc: nat
    var a: nat
    var halted: bool
    var valueRead: Option<Byte>
    var pendingRead: bool
    var job: Option<Job>

    function State(): CpuState
      reads this
    {
      CpuState(pc, a, halted, valueRead, pendingRead, job)
    }

    /** Builds the CPU on `bus` and asserts the fetch of address 0 (PC post-incremented). */
    constructor (bus: Bus)
      modifies bus
      ensures this.bus == bus
      ensures State() == Initial && Valid(State())
      ensures bus.State() == ReadRequest(old(bus.State()), 0)
    {
      this.bus := bus;
      pc, a, halted, valueRead, pendingRead, job := 0, 0, false, None, false, None;
      new;
      var address := pc;
      pc := pc + 1;
      RequestRead(address);
      pendingRead := true;
    }

    /** The first half of `_getFromMemory`: assert a read and suspend. */
    method RequestRead(address: nat)
      modifies bus
      ensures bus.State() == ReadRequest(old(bus.State()), address)
    {
      bus.mode := Read;
      bus.address := address;
    }

    /** The second half of `_getFromMemory`: latch what the bus carries now. */
    method LatchRead()
      modifies this`valueRead
      ensures valueRead == Some(bus.value)
    {
      valueRead := Some(bus.value);
    }

    /** `_writeToMemory`: assert a write and suspend. */
    method RequestWrite(address: nat, value: Byte)
      modifies bus
      ensures bus.State() == WriteRequest(address, value)
    {
      bus.mode := Write;
      bus.address := address;
      bus.value := value;
    }

    /** `_consumeValue`. */
    method ConsumeValue() returns (v: Option<Byte>)
      modifies this`valueRead
      ensures v == old(valueRead) && valueRead == None
    {
      v := valueRead;
      valueRead := None;
    }

    /** Resume a read inside a job and consume its value at once. */
    method CompleteRead() returns (v: Byte)
      modifies this`valueRead
      ensures v == bus.value && valueRead == None
    {
      LatchRead();
      var latched := ConsumeValue();
      v := latched.value;
    }

    /** One resumption of `_lda`. */
    method ResumeLda(p: LoadPhase) returns (done: bool)
      modifies this, bus
      ensures Advanced(State(), bus.State(), done) == AdvanceLoad(p, old(State()), old(bus.State()))
    {
      match p
      case LoadStart =>
        var address := pc;
        pc := pc + 1;
        RequestRead(address);
        job := Some(Lda(LoadAwaitHi));
        done := false;
      case LoadAwaitHi =>
        var hi := CompleteRead();
        var address := pc;
        pc := pc + 1;
        RequestRead(address);
        job := Some(Lda(LoadAwaitLo(hi)));
        done := false;
      case LoadAwaitLo(hi) =>
        var lo := CompleteRead();
        var address := Word(hi, lo);
        RequestRead(address);
        job := Some(Lda(LoadAwaitValueHi(address)));
        done := false;
      case LoadAwaitValueHi(address) =>
        var valueHi := CompleteRead();
        RequestRead(address + 1);
        job := Some(Lda(LoadAwaitValueLo(valueHi)));
        done := false;
      case LoadAwaitValueLo(valueHi) =>
        var valueLo := CompleteRead();
        a := Word(valueHi, valueLo);
        done := true;
    }

    /** One resumption of `_sta`. */
    method ResumeSta(p: StorePhase) returns (done: bool)
      modifies this, bus
      ensures Advanced(State(), bus.State(), done) == AdvanceStore(p, old(State()), old(bus.State()))
    {
      match p
      case StoreStart =>
        var address := pc;
        pc := pc + 1;
        RequestRead(address);
        job := Some(Sta(StoreAwaitHi));
        done := false;
      case StoreAwaitHi =>
        var hi := CompleteRead();
        var address := pc;
        pc := pc + 1;
        RequestRead(address);
        job := Some(Sta(StoreAwaitLo(hi)));
        done := false;
      case StoreAwaitLo(hi) =>
        var lo := CompleteRead();
        var address := Word(hi, lo);
        RequestWrite(address, HighByte(a));
        job := Some(Sta(StoreWritingHi(address)));
        done := false;
      case StoreWritingHi(address) =>
        RequestWrite(address + 1, LowByte(a));
        job := Some(Sta(StoreWritingLo));
        done := false;
      case StoreWritingLo =>
        done := true;
    }

    /** `job.next()`. */
    method ResumeJob(j: Job) returns (done: bool)
      modifies this, bus
      ensures Advanced(State(), bus.State(), done) == Advance(j, old(State()), old(bus.State()))
    {
      match j
      case Lda(p) => done := ResumeLda(p);
      case Sta(p) => done := ResumeSta(p);
      case Print => done := true;  // `_print` only logs A
    }

    /** One clock tick. */
    method Cycle()
      modifies this, bus
      ensures (State(), bus.State()) == Tick(old(State()), old(bus.State()))
    {
      if halted {
        return;
      }
      if pendingRead {
        LatchRead();
        pendingRead := false;
      }
      if job.None? {
        var opcode := ConsumeValue();
        if opcode == Some(LDA) {
          job := Some(Lda(LoadStart));
        } else if opcode == Some(STA) {
          job := Some(Sta(StoreStart));
        } else if opcode == Some(PRINT) {
          job := Some(Print);
        } else if opcode == Some(HALT) {
          halted := true;
        }
      } else {
        var done := ResumeJob(job.value);
        if done {
          job := None;
          var address := pc;
          pc := pc + 1;
          RequestRead(address);
          pendingRead := true;
        }
      }
    }

    /** `describe()`: the accumulator. */
    method Describe() returns (accumulator: nat)
      ensures accumulator == a
    {
      accumulator := a;
    }
  }
}
