# tsnes core in Dafny

A model of the tick-driven core of the `tsnes` emulator: a shared bus record
(`src/Bus.ts`), a byte-array memory device mapped to an address window
(`src/Memory.ts`), a small CPU whose instructions are resumable step sequences
(`src/CPU6502/index.ts`) and the driver that wires one bus, a 2 KiB RAM at
address 0 and the CPU together and steps the RAM before the CPU on every cycle
(`src/NES.ts`).

Layout:

- `optional.dfy` — `Option`, for the source's nullable latch and job fields.
- `bus.dfy` — module `BusRecord`: the `Bus` class with its three mutable fields,
  the `BusState` snapshot, the `Byte` type, read and write requests.
- `memory.dfy` — module `MemoryDevice`: the `Memory` class (constructor with its
  two fill loops, `Cycle`), the pure `Tick` it is proved to implement, the initial
  image and the lemmas about reads and writes.
- `cpu.dfy` — module `Cpu6502`: the CPU state, one phase datatype per instruction
  (each constructor is one suspension point of the source's generator), the pure
  `Tick`, the `CPU6502` class whose `Cycle` is proved to implement it, and the
  lemmas about dispatch, fetch, halting, the unknown-opcode livelock and job length.
- `nes.dfy` — module `Nes`: the machine snapshot, its `Tick` (RAM, then CPU),
  `Run` for n cycles, the `NES` class and the request/response latency lemmas.
- `timing.dfy` — module `NesTiming`: cycle-exact behaviour of each instruction on
  the whole machine.
- `program.dfy` — module `PreloadedProgram`: the outcome of the program the RAM
  is built with, and the 100-cycle demonstration run.

Each class method that changes state (`Memory.Cycle`, `CPU6502.Cycle`,
`NES.Cycle` and the CPU's helpers) is proved equal to a pure function on
snapshots; the properties are proved as lemmas about those functions.

How the source maps to the model:

- A generator job becomes a phase value. `LoadPhase` and `StorePhase` have one
  constructor per place the generator can be suspended. `CPU6502.ResumeJob` plays
  the part of one `job.next()`.
- The dispatch cycle only creates the job. The job's first resumption happens in
  the next cycle.
- `_getFromMemory` is split at its `yield`. `RequestRead` asserts the request,
  and `LatchRead` is the resumption that copies the bus value into the latch.
- `hi << 8 | lo` is `Word(hi, lo) = hi * 256 + lo`. This is exact because both
  operands are bytes.
- `(a & 0xFF00) >> 8` is `(a / 256) % 256` and `a & 0xFF` is `a % 256`. Both are
  exact for every non-negative `a`.
- PC, A and addresses are unbounded naturals. As in the source, neither `pc` nor
  `address + 1` is masked.
- The bus value has type `Byte` (0..255). So "the bus value is always a byte" is
  checked at every assignment to it. That covers the memory publishing a
  `Uint8Array` cell and the CPU writing masked bytes. Every value the CPU latches
  is therefore a byte too. Storing the bus value into a `Uint8Array` then needs no
  truncation.
- The bus direction is the two-constructor datatype `Mode`. It can take no other
  value.
- The opcode table has four entries: `0x00` LDA absolute into a 16-bit
  accumulator, `0x01` STA absolute, `0x02` print and `0x03` halt.
- An unknown opcode creates no job and issues no new fetch. From then on every
  cycle dispatches on the empty latch, so the CPU livelocks with PC, A and the
  bus frozen.
- Dispatch does not resume the new job in the same cycle. So LDA and STA take 6
  cycles (dispatch, four bus accesses, finish) and print takes 2.

## Model

| member | source | states |
|---|---|---|
| `BusRecord.Bus.constructor` | src/Bus.ts:3-7 | a fresh bus reads address 0 and carries value 0 |
| `MemoryDevice.Memory.constructor` | src/Memory.ts:10-26 | the array has length `size`, the window is `[start, start+size)`, and the contents are `InitialImage(size, start)`: zero-filled, then the program at indices 0.., then the data at indices `start+size-4..`, with writes outside the array dropped |
| `MemoryDevice.InitialImage` | src/Memory.ts:12 | the initial array has exactly `size` cells |
| `MemoryDevice.InitialLayout` | src/Memory.ts:16-25 | with the window at 0 and `size >= 16`, cells 0..11 hold `00 07 FE 02 00 07 FC 02 01 07 FE 03`, the last four hold `43 21 12 34` and every other cell is 0 |
| `MemoryDevice.DataLostWhenWindowIsOffset` | src/Memory.ts:23-25 | if the window starts at address 4 or higher, none of the data bytes land in the array, because the data loop indexes with an address |
| `MemoryDevice.Tick` | src/Memory.ts:28-36 | a memory cycle never changes the bus direction or address, keeps the array length, and changes no cell other than the addressed one |
| `MemoryDevice.Memory.Cycle` | src/Memory.ts:28-36 | the array and the bus after the call are exactly what `Tick` gives for the array and the bus before it |
| `MemoryDevice.OutsideWindowIgnored` | src/Memory.ts:29 | an address outside `[start, start+size)` leaves the array and the bus unchanged |
| `MemoryDevice.ReadPublishes` | src/Memory.ts:30-31 | an in-window read sets the bus value to `array[address-start]` and leaves the array unchanged |
| `MemoryDevice.WriteStores` | src/Memory.ts:32-33 | an in-window write stores the bus value at `address-start` and leaves the bus unchanged |
| `MemoryDevice.WriteThenRead` | src/Memory.ts:29-34 | after a write to an in-window address, a read of that address publishes the written byte |
| `MemoryDevice.ReadIdempotent` | src/Memory.ts:30-31 | serving the same read request a second time changes nothing |
| `Cpu6502.CPU6502.constructor` | src/CPU6502/index.ts:7-18 | after construction `pc = 1`, `a = 0`, the CPU is not halted, the latch is empty, no job exists and a read of address 0 is asserted on the bus |
| `Cpu6502.CPU6502.Cycle` | src/CPU6502/index.ts:20-55 | the CPU fields and the bus after one cycle are exactly what `Tick` gives for those before it |
| `Cpu6502.CPU6502.ResumeLda` | src/CPU6502/index.ts:70-86 | one resumption of LDA: the operand reads at `pc` and `pc+1` (each post-incrementing `pc`), high byte first, then the reads at `address` and `address+1`, then `a = valueHi * 256 + valueLo` |
| `Cpu6502.CPU6502.ResumeSta` | src/CPU6502/index.ts:57-68 | one resumption of STA: the operand reads as for LDA, then the write of A's high byte to `address`, then the write of A's low byte to `address+1` |
| `Cpu6502.CPU6502.ResumeJob` | src/CPU6502/index.ts:48 | one `job.next()`; print finishes at once and changes no state |
| `Cpu6502.CPU6502.RequestRead` | src/CPU6502/index.ts:92-95 | asserts a read: the direction becomes read, the address is set and the value is kept |
| `Cpu6502.CPU6502.LatchRead` | src/CPU6502/index.ts:97 | the resumed read latches the current bus value |
| `Cpu6502.CPU6502.RequestWrite` | src/CPU6502/index.ts:100-105 | asserts a write of `value` to `address` |
| `Cpu6502.CPU6502.ConsumeValue` | src/CPU6502/index.ts:107-111 | returns the latched value and empties the latch |
| `Cpu6502.CPU6502.CompleteRead` | src/CPU6502/index.ts:58-59 | a read finished inside a job yields the bus value and leaves the latch empty |
| `Cpu6502.CPU6502.Describe` | src/CPU6502/index.ts:113-117 | reports the accumulator |
| `Cpu6502.HighByte` | src/CPU6502/index.ts:66 | `(a & 0xFF00) >> 8` computed as `(a / 256) % 256`; for A below 0x10000 it is the byte with `hi * 256 <= a < hi * 256 + 256`. `SplitJoin` states the round trip with `LowByte` |
| `Cpu6502.LowByte` | src/CPU6502/index.ts:67 | `a & 0x00FF` computed as `a % 256`; it differs from A by a multiple of 256. `SplitJoin` states the round trip with `HighByte` |
| `Cpu6502.Consume` | src/CPU6502/index.ts:107-111 | `_consumeValue`: the result is the latched value, and the state afterwards is the state before with the latch emptied and nothing else changed. `ConsumeAtMostOnce` states that a second consume yields nothing |
| `Cpu6502.AdvanceLoad` | src/CPU6502/index.ts:70-86 | one resumption of `_lda`, phase by phase: reads of `pc` and `pc+1` (each post-incrementing PC), then of `address` and `address+1`, then `a = valueHi * 256 + valueLo`. Its contract keeps the halted and pending-fetch flags; `AdvanceLoadShape` and `AdvanceCountsDown` state the rest |
| `Cpu6502.AdvanceLoadShape` | src/CPU6502/index.ts:70-86 | a resumption of LDA that does not finish only asserts a read and leaves A and the bus value alone, and the job stays an LDA; the finishing one leaves the bus and PC as they were |
| `Cpu6502.AdvanceStore` | src/CPU6502/index.ts:57-68 | one resumption of `_sta`, phase by phase: the operand reads as for LDA, then the write of A's high byte to `address`, then the write of A's low byte to `address+1`. Its contract keeps A and the halted and pending-fetch flags; `AdvanceStoreShape` and `AdvanceCountsDown` state the rest |
| `Cpu6502.AdvanceStoreShape` | src/CPU6502/index.ts:57-68 | every value STA puts on the bus is a byte of A; while unfinished the job stays an STA; the finishing resumption leaves the bus and PC as they were |
| `Cpu6502.IssueFetch` | src/CPU6502/index.ts:50-52 | the fetch after a finished job: a read of the current PC is asserted with the bus value kept, PC goes up by exactly one and the fetch is pending |
| `Cpu6502.Dispatch` | src/CPU6502/index.ts:28-46 | the `switch` on the consumed opcode: the bus, PC and A are unchanged, the latch is emptied and the pending-fetch flag is kept. `DispatchDecides` and `DispatchTick` state which job or halt each opcode gives |
| `Cpu6502.DispatchDecides` | src/CPU6502/index.ts:28-46 | dispatch halts exactly on opcode 3, and a job created from an empty job slot has 0 bus accesses to go for print and 4 for LDA and STA |
| `Cpu6502.Tick` | src/CPU6502/index.ts:20-55 | one `cycle()`: a halted CPU returns at once; otherwise a pending fetch is latched, then the latched opcode is dispatched when no job exists, or else the job is resumed once and, when it finishes, the next fetch is issued. Its contract: a halted CPU changes nothing and the invariant `Valid` is kept. `DispatchTick`, `FetchOnCompletion`, `UnknownOpcodeLivelock`, `TickMovesPcByAtMostOne` and `JobSpan` state the rest |
| `Cpu6502.TickMovesPcByAtMostOne` | src/CPU6502/index.ts:20-55 | a cycle leaves PC as it was or moves it up by exactly one |
| `Cpu6502.Word` | src/CPU6502/index.ts:77 | `hi << 8` OR `lo` is a 16-bit word whose high byte is `hi` and whose low byte is `lo` |
| `Cpu6502.SplitJoin` | src/CPU6502/index.ts:66-85 | joining STA's two masked bytes the way LDA joins them gives back any 16-bit A |
| `Cpu6502.ConsumeAtMostOnce` | src/CPU6502/index.ts:107-111 | consuming hands out the latch and empties it, so a second consume yields nothing |
| `Cpu6502.AdvanceCountsDown` | src/CPU6502/index.ts:92-105 | each resumption of a job either asserts one more bus access or, once none is left, finishes it; LDA and STA start with 4 accesses to go and print with 0 |
| `Cpu6502.JobSpan` | src/CPU6502/index.ts:47-53 | whatever the devices put on the bus, a job with k accesses to go stays in flight for k cycles and finishes, with the next fetch issued, in cycle k+1; with the dispatch cycle an instruction spans k+2 cycles |
| `Cpu6502.DispatchTick` | src/CPU6502/index.ts:28-46 | the dispatch cycle takes the fetched byte as opcode. 0, 1 and 2 create a job that has not been resumed, 3 halts, and anything else (or an empty latch) creates nothing. PC, A and the bus stay unchanged and no fetch is issued |
| `Cpu6502.UnknownOpcodeLivelock` | src/CPU6502/index.ts:28-45 | with no job, no pending fetch and an empty latch, a cycle changes neither the CPU nor the bus |
| `Cpu6502.FetchOnCompletion` | src/CPU6502/index.ts:48-53 | the cycle that finishes a job asserts a read at the current `pc` and increments `pc` by exactly one |
| `Cpu6502.HaltedTickIsNoOp` | src/CPU6502/index.ts:21 | a halted CPU changes nothing, in itself or on the bus |
| `Cpu6502.TickPreservesValid` | src/CPU6502/index.ts:20-55 | between cycles the latch is empty, a pending fetch excludes a job, and A stays below 0x10000 |
| `Nes.NES.constructor` | src/NES.ts:10-14 | one fresh bus, a 2048-byte RAM at offset 0 on it and a CPU on the same bus; the machine state is `Initial` |
| `Nes.NES.Cycle` | src/NES.ts:16-19 | the machine after one call is `Tick` of the machine before it: one RAM step, then one CPU step |
| `Nes.Tick` | src/NES.ts:16-19 | one machine `cycle()`: the RAM serves the bus, then the CPU steps on the bus the RAM left. Its contract: the RAM keeps its size, a cycle that starts with a read leaves the RAM unchanged, and a halted CPU stays as it is. `ReadServedBeforeCpuStep` and `WriteAppliedBeforeCpuStep` state the order |
| `Nes.ReachableStatesValid` | src/NES.ts:10-19 | every state the machine reaches from construction keeps the CPU invariant: the latch is empty between cycles, a pending fetch excludes a job, and A stays below 0x10000 |
| `Nes.ReadServedBeforeCpuStep` | src/NES.ts:17-18 | a read asserted when a cycle starts is served by the RAM, and the CPU step of that same cycle sees the addressed byte |
| `Nes.WriteAppliedBeforeCpuStep` | src/NES.ts:17-18 | a write asserted when a cycle starts is applied to the RAM before the CPU step of that cycle |
| `Nes.HaltedStaysHalted` | src/CPU6502/index.ts:21 | once halted, the CPU state never changes in any later cycle |
| `NesTiming.LdaSpansSixCycles` | src/CPU6502/index.ts:70-86 | from a fetch of LDA at q, the reads of q+1, q+2, X and X+1 are asserted in cycles 2 to 5. Cycle 6 finishes with `a = mem[X] * 256 + mem[X+1]`, the RAM unchanged and the fetch of q+3 asserted |
| `NesTiming.StaSpansSixCycles` | src/CPU6502/index.ts:57-68 | from a fetch of STA at q, the writes are asserted in cycles 4 and 5 and each is applied in the following cycle. After cycle 6 `mem[X]` is A's high byte, `mem[X+1]` is A's low byte, A is unchanged and the fetch of q+3 is asserted |
| `NesTiming.PrintSpansTwoCycles` | src/CPU6502/index.ts:88-90 | print spans two cycles and changes neither A nor the RAM |
| `NesTiming.HaltFreezesMachine` | src/CPU6502/index.ts:41-43 | halt takes effect in its dispatch cycle and from then on the whole machine, bus and RAM included, never changes |
| `NesTiming.UnknownOpcodeFreezesMachine` | src/CPU6502/index.ts:44-45 | after an unknown opcode the machine never changes again: PC and A are frozen and the bus stays on the read of that byte |
| `NesTiming.StoreThenLoadRoundTrip` | src/CPU6502/index.ts:57-86 | STA to X followed by LDA from X gives A back when X and X+1 are in the window and do not overwrite the LDA |
| `PreloadedProgram.InitialIsPreloaded` | src/Memory.ts:16-25 | the machine after construction is at the fetch of address 0, with the program in cells 0..11 and `43 21 12 34` in cells 0x07FC..0x07FF |
| `PreloadedProgram.FirstLoadAndPrint` | src/Memory.ts:16-17 | the first LDA and print take cycles 1 to 8 and leave A = 0x1234, the RAM unchanged and the fetch of address 4 asserted |
| `PreloadedProgram.SecondLoadAndPrint` | src/Memory.ts:16-17 | the second LDA and print take cycles 9 to 16 and leave A = 0x4321, the RAM unchanged and the fetch of address 8 asserted |
| `PreloadedProgram.StoreBeforeHalt` | src/Memory.ts:16-17 | after the STA in cycles 17 to 22, cells 0x07FE..0x07FF hold `43 21`, A = 0x4321 and the fetch of the halt at address 11 is asserted |
| `PreloadedProgram.ProgramBeforeHalt` | src/Memory.ts:16-17 | after 22 cycles from a fresh machine, A = 0x4321, the word at 0x07FC has been copied to 0x07FE, and the fetch of the halt at address 11 is asserted |
| `PreloadedProgram.ProgramOutcome` | src/NES.ts:22-26 | the CPU is still running after cycle 22 and halted after cycle 23, with A = 0x4321 and RAM[0x07FE..0x07FF] = 43 21 |
| `PreloadedProgram.ProgramRunsBefore23` | src/NES.ts:25 | the CPU is still running after each of the first 22 cycles |
| `PreloadedProgram.ProgramSettlesAt23` | src/NES.ts:25 | from cycle 23 on the machine no longer changes, so the 100 cycles of the demonstration end in the state of cycle 23 |
| `PreloadedProgram.Demo` | src/NES.ts:22-26 | building a machine and cycling it 100 times leaves A = 0x4321 |

## Left out

- Console output is not modelled: `_print`'s log line, the diagnostic for an unknown opcode, `Memory.print` and the two `describe()` log lines of the demonstration run. Print is a job with no effect on state, and the diagnostic is "no job created".
- `src/test.ts` is not part of this model. It targets another opcode table and a reset vector that this CPU does not have.
- `webpack.config.js` is build configuration and is not modelled.
- The `IBus`/`IDevice` protocol files are not part of this model. Only the bus fields and device methods that are used are modelled.
- JavaScript number width is not modelled. PC, A and addresses are unbounded, as the source never masks them. The bus value is typed as a byte rather than an arbitrary number, since every writer puts a byte there.
- Generator objects and their `yield*` delegation are not modelled. A job is its phase value, which carries the same information.
