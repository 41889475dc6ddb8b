/**
 * The memory device of src/Memory.ts: a byte array mapped to the address window
 * [start, start + size) of the shared bus, preloaded with a small program and
 * four data bytes.
 */
module MemoryDevice {
  import opened BusRecord

  /** The bytes the constructor copies to cells 0, 1, 2, ... */
  const Program: seq<Byte> := [0x00, 0x07, 0xFE, 0x02, 0x00, 0x07, 0xFC, 0x02, 0x01, 0x07, 0xFE, 0x03]

  /** The bytes the constructor copies to the four indices ending at the window's end address. */
  const Data: seq<Byte> := [0x43, 0x21, 0x12, 0x34]

  predicate InWindow(start: nat, size: nat, address: nat) {
    start <= address < start + size
  }

  /**
   * The byte at index k after construction. The data loop indexes the array with
   * `end - |Data| + i`, an address rather than an index, and a typed array drops
   * writes outside [0, size); the data loop runs after the program loop.
   */
  function InitialCell(size: nat, start: nat, k: int): Byte
    requires 0 <= k < size
  {
    var d := k + |Data| - (start + size);
    if 0 <= d < |Data| then Data[d]
    else if k < |Program| then Program[k]
    else 0
  }

  function InitialImage(size: nat, start: nat): (cells: seq<Byte>)
    ensures |cells| == size
  {
    seq(size, k requires 0 <= k < size => InitialCell(size, start, k))
  }

  /**
   * With the window at address 0 and room for both, the program sits at the
   * front, the data at the back, and every other cell is zero.
   */
  lemma InitialLayout(size: nat)
    requires size >= |Program| + |Data|
    ensures InitialImage(size, 0)[..|Program|] == Program
    ensures InitialImage(size, 0)[size - |Data|..] == Data
    ensures forall k :: |Program| <= k < size - |Data| ==> InitialImage(size, 0)[k] == 0
  {
    var cells := InitialImage(size, 0);
    assert forall k :: 0 <= k < |Program| ==> cells[..|Program|][k] == Program[k];
    assert forall k :: 0 <= k < |Data| ==> cells[size - |Data|..][k] == Data[k];
  }

  /**
   * A window that starts at address |Data| or higher receives none of the data
   * bytes: their indices are at or past the end of the array.
   */
  lemma DataLostWhenWindowIsOffset(size: nat, start: nat)
    requires start >= |Data|
    ensures forall k :: 0 <= k < size ==>
      InitialImage(size, start)[k] == if k < |Program| then Program[k] else 0
  {
  }

  /**
   * One memory tick on snapshots: an in-window read publishes the addressed cell,
   * an in-window write stores the bus value, anything else is ignored.
   */
  function Tick(cells: seq<Byte>, start: nat, b: BusState): (r: (seq<Byte>, BusState))
    ensures |r.0| == |cells|
    ensures r.1.mode == b.mode && r.1.address == b.address
    ensures forall k :: 0 <= k < |cells| && k + start != b.address ==> r.0[k] == cells[k]
  {
    if InWindow(start, |cells|, b.address) then
      if b.mode == Read then (cells, b.(value := cells[b.address - start]))
      else (cells[b.address - start := b.value], b)
    else (cells, b)
  }

  /** A foreign address leaves both the cells and the bus alone. */
  lemma OutsideWindowIgnored(cells: seq<Byte>, start: nat, b: BusState)
    requires !InWindow(start, |cells|, b.address)
    ensures Tick(cells, start, b) == (cells, b)
  {
  }

  /** An in-window read publishes the addressed cell and changes no cell. */
  lemma ReadPublishes(cells: seq<Byte>, start: nat, b: BusState)
    requires InWindow(start, |cells|, b.address) && b.mode == Read
    ensures Tick(cells, start, b).0 == cells
    ensures Tick(cells, start, b).1.value == cells[b.address - start]
  {
  }

  /** An in-window write stores the bus value in the addressed cell and leaves the bus alone. */
  lemma WriteStores(cells: seq<Byte>, start: nat, b: BusState)
    requires InWindow(start, |cells|, b.address) && b.mode == Write
    ensures Tick(cells, start, b).0[b.address - start] == b.value
    ensures Tick(cells, start, b).1 == b
  {
  }

  /** A write to an in-window address followed by a read of it publishes the written byte. */
  lemma WriteThenRead(cells: seq<Byte>, start: nat, address: nat, v: Byte, stale: Byte)
    requires InWindow(start, |cells|, address)
    ensures var written := Tick(cells, start, BusState(Write, address, v)).0;
            Tick(written, start, BusState(Read, address, stale)).1.value == v
  {
  }

  /** Serving the same read request twice gives the state the first serving gave. */
  lemma ReadIdempotent(cells: seq<Byte>, start: nat, b: BusState)
    requires b.mode == Read
    ensures var (c1, b1) := Tick(cells, start, b);
            Tick(c1, start, b1) == (c1, b1)
  {
  }

  class Memory {
    const bus: Bus
    const cells: array<Byte>
    const start: nat
    const end: nat

    ghost predicate Valid() {
      end == start + cells.Length
    }

    constructor (bus: Bus, size: nat, start: nat := 0)
      ensures Valid() && this.bus == bus && this.start == start && fresh(cells)
      ensures cells[..] == InitialImage(size, start)
    {
      var m := new Byte[size](_ => 0);
      for i := 0 to |Program|
        invariant forall k :: 0 <= k < size ==> m[k] == if k < i then Program[k] else 0
      {
        if i < size {  // a typed array ignores writes past its end
          m[i] := Program[i];
        }
      }
      for i := 0 to |Data|
        invariant forall k :: 0 <= k < size ==>
          m[k] == (var d := k + |Data| - (start + size);
                   if 0 <= d < i then Data[d] else if k < |Program| then Program[k] else 0)
      {
        var index := start + size - |Data| + i;
        if 0 <= index < size {
          m[index] := Data[i];
        }
      }
      this.bus := bus;
      cells := m;
      this.start := start;
      end := start + size;
      new;
      assert forall k :: 0 <= k < size ==> cells[k] == InitialCell(size, start, k);
    }

    method Cycle()
      requires Valid()
      modifies bus, cells
      ensures (cells[..], bus.State()) == Tick(old(cells[..]), start, old(bus.State()))
    {
      if bus.address >= start && bus.address < end {
        if bus.mode == Read {
          bus.value := cells[bus.address - start];
        } else {
          cells[bus.address - start] := bus.value;
        }
      }
    }
  }
}
