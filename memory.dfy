/**
 * The byte store of memory.h (`MemoryIface` / `Memory`): a growable buffer
 * of byte cells. The tape and both instruction streams are instances of it.
 */
module Store {
  import opened Bytes

  /** The value `Read(addr)` returns on a buffer holding `data`: never-written cells read 0. */
  function CellAt(data: seq<Byte>, addr: nat): (v: Byte)
    ensures addr < |data| ==> v == data[addr]
    ensures addr >= |data| ==> v == 0
  {
    if addr < |data| then data[addr] else 0
  }

  /** `n` zero cells, the padding a far write leaves behind. */
  function Zeros(n: nat): (z: seq<Byte>)
    ensures |z| == n
    ensures forall i :: 0 <= i < n ==> z[i] == 0
  {
    seq(n, _ => 0)
  }

  /**
   * The buffer a `Write(addr, v)` leaves: large enough to hold `addr`, with `v`
   * at `addr` and every other cell reading as before.
   */
  function Stored(data: seq<Byte>, addr: nat, v: Byte): (d: seq<Byte>)
    ensures |d| == if addr < |data| then |data| else addr + 1
    ensures CellAt(d, addr) == v
    ensures forall a: nat :: a != addr ==> CellAt(d, a) == CellAt(data, a)
  {
    if addr < |data| then data[addr := v]
    else data + Zeros(addr - |data|) + [v]
  }

  /** A write never shrinks the buffer; a write past the end keeps the old cells as a prefix. */
  lemma StoredOnlyGrows(data: seq<Byte>, addr: nat, v: Byte)
    ensures |data| <= |Stored(data, addr, v)|
    ensures addr >= |data| ==> data <= Stored(data, addr, v)
  {
    if addr >= |data| {
      assert Stored(data, addr, v)[..|data|] == data;
    }
  }

  /**
   * `data.assign(len, *buf)`, what memory.h:60 does: `len` copies of the
   * first byte of the buffer.
   */
  function AssignRepeated(buf: seq<Byte>, len: nat): (d: seq<Byte>)
    requires len <= |buf| && |buf| > 0
    ensures |d| == len
    ensures forall i :: 0 <= i < len ==> d[i] == buf[0]
  {
    seq(len, _ => buf[0])
  }

  class Memory {
    /** The backing `std::vector<char>`. */
    var data: seq<Byte>

    /** A fresh store holds no cells, so every address reads 0. */
    constructor ()
      ensures data == []
    {
      data := [];
    }

    /** `Read(addr)`: the stored cell, or 0 beyond the end; never fails. */
    method Read(addr: nat) returns (v: Byte)
      ensures v == CellAt(data, addr)
      ensures addr >= |data| ==> v == 0
    {
      if addr < |data| {
        v := data[addr];
      } else {
        v := 0;
      }
    }

    /** `Write(addr, val)`: stores the low byte of `val`, growing the buffer as needed. */
    method Write(addr: nat, val: nat)
      modifies this
      ensures data == Stored(old(data), addr, Truncate(val))
      ensures CellAt(data, addr) == val % 256
      ensures forall a: nat :: a != addr ==> CellAt(data, a) == CellAt(old(data), a)
    {
      var v := Truncate(val);
      if addr < |data| {
        data := data[addr := v];
      } else {
        data := data + Zeros(addr - |data|) + [v];
      }
    }

    /**
     * `LoadRaw(buf, len)`: replaces the contents with the first `len` bytes of
     * `buf` (the intended form of memory.h:60, which copies `buf[0]` instead).
     */
    method LoadRaw(buf: seq<Byte>, len: nat)
      requires len <= |buf|
      modifies this
      ensures data == buf[..len]
      ensures forall i: nat :: i < len ==> CellAt(data, i) == buf[i]
      ensures forall i: nat :: i >= len ==> CellAt(data, i) == 0
    {
      data := buf[..len];
    }
  }

  /** A loaded store reads back the buffer up to `len` and 0 beyond it. */
  lemma LoadedReadsBack(buf: seq<Byte>, len: nat, i: nat)
    requires len <= |buf|
    ensures CellAt(buf[..len], i) == if i < len then buf[i] else 0
  {
  }

  /**
   * The sequence of test-mem.cpp: reads of a fresh store at 0, 100 and 100000
   * are 0, and after writing 0xff at 0, 0xbb at 100 and 0x01 at 100000 each
   * address reads back its value.
   */
  lemma MemoryTestSequence()
    ensures CellAt([], 0) == 0 && CellAt([], 100) == 0 && CellAt([], 100000) == 0
    ensures var d := Stored(Stored(Stored([], 0, 0xff), 100, 0xbb), 100000, 0x01);
      |d| == 100001 && CellAt(d, 0) == 0xff && CellAt(d, 100) == 0xbb && CellAt(d, 100000) == 0x01
  {
  }

  /** The buffer of test-cpu-right-02.cpp: 4096 copies of '>' with 'a' at 1023. */
  function RightTestBuffer(): (b: seq<Byte>)
    ensures |b| == 4096
    ensures b[1023] == 'a' as int
    ensures forall i :: 0 <= i < 4096 && i != 1023 ==> b[i] == '>' as int
  {
    seq(4096, i => if i == 1023 then 'a' as int else '>' as int)
  }

  /**
   * Loading that buffer as memory.h:60 does loses the 'a' the test relies on;
   * the intended load keeps it.
   */
  lemma LoadRawAsWrittenLosesCell()
    ensures CellAt(AssignRepeated(RightTestBuffer(), 1024), 1023) == '>' as int
    ensures CellAt(RightTestBuffer()[..1024], 1023) == 'a' as int
  {
  }
}
