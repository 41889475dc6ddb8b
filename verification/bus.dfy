/**
 * The shared bus of src/Bus.ts: one transaction slot that the memory device and
 * the CPU overwrite in place, field by field, every tick.
 */
module BusRecord {
  /** Transfer direction; the source types it as the string union "read" | "write". */
  datatype Mode = Read | Write

  /** What one Uint8Array cell holds, and what the bus carries. */
  type Byte = x: int | 0 <= x < 256

  /** A snapshot of the three bus fields. */
  datatype BusState = BusState(mode: Mode, address: nat, value: Byte)

  /** The field initialisers of a fresh bus. */
  const PowerOn: BusState := BusState(Read, 0, 0)

  /** A read request: direction and address are asserted, the value is left as it was. */
  function ReadRequest(b: BusState, address: nat): BusState
  {
    b.(mode := Read, address := address)
  }

  /** A write request asserts all three fields. */
  function WriteRequest(address: nat, value: Byte): BusState
  {
    BusState(Write, address, value)
  }

  class Bus {
    var mode: Mode
    var address: nat
    var value: Byte

    function State(): BusState
      reads this
    {
      BusState(mode, address, value)
    }

    constructor ()
      ensures State() == PowerOn
    {
      mode, address, value := Read, 0, 0;
    }
  }
}
