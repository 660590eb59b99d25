/** The file cut into packets, and `Window`: a ring of 4096 cells of 1464 bytes standing for
    a sliding slice of it. The ring's memory is flat, as `vector<char[1464]>` is. */
module FileRing {

  type Byte = bv8

  const MTU: nat := 1500
  const UDP_MAX_SIZE: nat := MTU - 8 - 20
  const SINGLE_LENGTH: nat := UDP_MAX_SIZE - 8
  const SLOTS: nat := 2048
  const RING: nat := 2 * SLOTS

  type Payload = p: seq<Byte> | |p| == SINGLE_LENGTH witness seq(SINGLE_LENGTH, _ => 0)
  type Memory = m: seq<Byte> | |m| == RING * SINGLE_LENGTH witness seq(RING * SINGLE_LENGTH, _ => 0)

  function Min(a: nat, b: nat): nat {
    if a < b then a else b
  }

  // ----- Packets of a file -----

  /** `max_seq_index`. */
  function PacketCount(length: nat): nat
    requires length > 0
  {
    (length - 1) / SINGLE_LENGTH + 1
  }

  /** The file's bytes in packet i; the last packet may be short. */
  function PacketBytes(file: seq<Byte>, i: nat): seq<Byte>
    requires i * SINGLE_LENGTH <= |file|
  {
    file[i * SINGLE_LENGTH..Min(|file|, (i + 1) * SINGLE_LENGTH)]
  }

  /** The payload carries packet i; the padding after a short packet is free. */
  ghost predicate IsPacket(file: seq<Byte>, i: nat, p: Payload) {
    i * SINGLE_LENGTH <= |file| && PacketBytes(file, i) <= p
  }

  // ----- The ring -----

  datatype Ring = Ring(base: nat, limit: nat, mem: Memory)

  /** The condition `operator[]` asserts. */
  predicate InWindow(w: Ring, i: nat) {
    w.base <= i < Min(w.base + RING, w.limit)
  }

  /** The condition `raw_ptr` asserts. */
  predicate Aligned(w: Ring) {
    w.base % SLOTS == 0
  }

  lemma NextAligned(base: nat)
    requires base % SLOTS == 0
    ensures (base + SLOTS) % SLOTS == 0
  {
  }

  function CellOffset(i: nat): (o: nat)
    ensures o + SINGLE_LENGTH <= RING * SINGLE_LENGTH
  {
    (i % RING) * SINGLE_LENGTH
  }

  function Cell(mem: Memory, i: nat): Payload {
    mem[CellOffset(i)..CellOffset(i) + SINGLE_LENGTH]
  }

  function StoreCell(mem: Memory, i: nat, p: Payload): Memory {
    mem[..CellOffset(i)] + p + mem[CellOffset(i) + SINGLE_LENGTH..]
  }

  function Store(w: Ring, i: nat, p: Payload): Ring {
    w.(mem := StoreCell(w.mem, i, p))
  }

  /** Overwriting a stretch of memory leaves the stretches beside it alone. */
  lemma OverlayBeside(mem: seq<Byte>, o: nat, bytes: seq<Byte>, c: nat, n: nat)
    requires o + |bytes| <= |mem| && c + n <= |mem|
    requires c + n <= o || o + |bytes| <= c
    ensures (mem[..o] + bytes + mem[o + |bytes|..])[c..c + n] == mem[c..c + n]
  {
  }

  lemma OverlayInside(mem: seq<Byte>, o: nat, bytes: seq<Byte>, first: nat, n: nat)
    requires o + |bytes| <= |mem| && first + n <= |bytes|
    ensures (mem[..o] + bytes + mem[o + |bytes|..])[o + first..o + first + n] == bytes[first..first + n]
  {
  }

  lemma SliceOfSlice(mem: seq<Byte>, o: nat, m: nat, first: nat, n: nat)
    requires o + m <= |mem| && first + n <= m
    ensures mem[o..o + m][first..first + n] == mem[o + first..o + first + n]
  {
    var a, b := mem[o..o + m][first..first + n], mem[o + first..o + first + n];
    assert forall k | 0 <= k < n :: a[k] == b[k];
  }

  lemma OffsetsApart(i: nat, j: nat)
    requires i % RING != j % RING
    ensures CellOffset(i) + SINGLE_LENGTH <= CellOffset(j) || CellOffset(j) + SINGLE_LENGTH <= CellOffset(i)
  {
  }

  lemma StoreCellFacts(mem: Memory, i: nat, p: Payload, j: nat)
    ensures Cell(StoreCell(mem, i, p), j) == if i % RING == j % RING then p else Cell(mem, j)
  {
    if i % RING == j % RING {
      OverlayInside(mem, CellOffset(i), p, 0, SINGLE_LENGTH);
    } else {
      OffsetsApart(i, j);
      OverlayBeside(mem, CellOffset(i), p, CellOffset(j), SINGLE_LENGTH);
    }
  }

  /** Within half a ring from an aligned base the cells are consecutive. */
  lemma CellsFollow(base: nat, d: nat)
    requires base % SLOTS == 0 && d < SLOTS
    ensures CellOffset(base + d) == CellOffset(base) + d * SINGLE_LENGTH
    ensures CellOffset(base + RING + d) == CellOffset(base) + d * SINGLE_LENGTH
  {
    assert base % RING == 0 || base % RING == SLOTS;
    assert (base + d) % RING == base % RING + d;
    assert (base + RING + d) % RING == base % RING + d;
  }

  lemma PacketByte(file: seq<Byte>, i: nat, p: Payload, k: nat)
    requires IsPacket(file, i, p)
    requires k < SINGLE_LENGTH && i * SINGLE_LENGTH + k < |file|
    ensures p[k] == file[i * SINGLE_LENGTH + k]
  {
    assert PacketBytes(file, i)[k] == p[k];
  }

  // ----- Reading the file into the ring -----

  /** How many bytes `fread` returns. */
  function ReadCount(file: seq<Byte>, pos: nat, n: nat): nat
    requires pos <= |file|
  {
    Min(n, |file| - pos)
  }

  /** `fread(raw_ptr, 1, n, file)`: what it does not read stays as it was. */
  function Fread(w: Ring, file: seq<Byte>, pos: nat, n: nat): (r: Ring)
    requires pos <= |file| && CellOffset(w.base) + n <= |w.mem|
    ensures r.base == w.base && r.limit == w.limit
  {
    var o, m := CellOffset(w.base), ReadCount(file, pos, n);
    w.(mem := w.mem[..o] + file[pos..pos + m] + w.mem[o + m..])
  }

  /** Every cell of the window holds its packet of the file. */
  ghost predicate HoldsFile(w: Ring, file: seq<Byte>) {
    forall i: nat | InWindow(w, i) :: IsPacket(file, i, Cell(w.mem, i))
  }

  /** The reader's position in the file when the window starts at `base`. */
  function Position(file: seq<Byte>, base: nat): nat {
    Min(|file|, (base + RING) * SINGLE_LENGTH)
  }

  lemma InFile(file: seq<Byte>, i: nat)
    requires |file| > 0
    ensures i < PacketCount(|file|) <==> i * SINGLE_LENGTH < |file|
  {
  }

  lemma FirstFill(w: Ring, file: seq<Byte>)
    requires |file| >= RING * SINGLE_LENGTH
    requires w.base == 0 && w.limit == PacketCount(|file|)
    ensures HoldsFile(Fread(w, file, 0, RING * SINGLE_LENGTH), file)
    ensures ReadCount(file, 0, RING * SINGLE_LENGTH) == RING * SINGLE_LENGTH
  {
    var r := Fread(w, file, 0, RING * SINGLE_LENGTH);
    forall i: nat | InWindow(r, i) ensures IsPacket(file, i, Cell(r.mem, i)) {
      OverlayInside(w.mem, 0, file[0..RING * SINGLE_LENGTH], i * SINGLE_LENGTH, SINGLE_LENGTH);
      SliceOfSlice(file, 0, RING * SINGLE_LENGTH, i * SINGLE_LENGTH, SINGLE_LENGTH);
      assert i % RING == i;
    }
  }

  lemma HalfRing(w: Ring)
    requires Aligned(w)
    ensures w.base % RING == 0 || w.base % RING == SLOTS
    ensures CellOffset(w.base) + SLOTS * SINGLE_LENGTH <= |w.mem|
  {
  }

  lemma RefillPosition(file: seq<Byte>, base: nat)
    ensures var pos := Position(file, base);
            pos + ReadCount(file, pos, SLOTS * SINGLE_LENGTH) == Position(file, base + SLOTS)
  {
  }

  /** A block refill replaces the half ring below `base + SLOTS` by the next block of the file. */
  lemma Refill(w: Ring, file: seq<Byte>)
    requires |file| > 0 && w.limit == PacketCount(|file|)
    requires Aligned(w) && HoldsFile(w, file)
    ensures CellOffset(w.base) + SLOTS * SINGLE_LENGTH <= |w.mem|
    ensures var r := Fread(w, file, Position(file, w.base), SLOTS * SINGLE_LENGTH);
            HoldsFile(r.(base := w.base + SLOTS), file)
  {
    HalfRing(w);
    var pos := Position(file, w.base);
    var r := Fread(w, file, pos, SLOTS * SINGLE_LENGTH).(base := w.base + SLOTS);
    forall i: nat | InWindow(r, i) ensures IsPacket(file, i, Cell(r.mem, i)) {
      InFile(file, i);
      if i < w.base + RING {
        assert InWindow(w, i);
        KeptCell(w, file, pos, i);
      } else {
        FreshCell(w, file, i);
      }
    }
  }

  lemma KeptCell(w: Ring, file: seq<Byte>, pos: nat, i: nat)
    requires pos <= |file| && Aligned(w)
    requires w.base + SLOTS <= i < w.base + RING
    requires CellOffset(w.base) + SLOTS * SINGLE_LENGTH <= |w.mem|
    ensures Cell(Fread(w, file, pos, SLOTS * SINGLE_LENGTH).mem, i) == Cell(w.mem, i)
  {
    OtherHalf(w.base, i);
    var m := ReadCount(file, pos, SLOTS * SINGLE_LENGTH);
    OverlayBeside(w.mem, CellOffset(w.base), file[pos..pos + m], CellOffset(i), SINGLE_LENGTH);
  }

  lemma OtherHalf(base: nat, i: nat)
    requires base % SLOTS == 0 && base + SLOTS <= i < base + RING
    ensures CellOffset(i) + SINGLE_LENGTH <= CellOffset(base)
         || CellOffset(base) + SLOTS * SINGLE_LENGTH <= CellOffset(i)
  {
    assert base % RING == 0 || base % RING == SLOTS;
  }

  lemma FreshCell(w: Ring, file: seq<Byte>, i: nat)
    requires Aligned(w)
    requires w.base + RING <= i < w.base + RING + SLOTS
    requires i * SINGLE_LENGTH < |file|
    requires CellOffset(w.base) + SLOTS * SINGLE_LENGTH <= |w.mem|
    ensures var r := Fread(w, file, Position(file, w.base), SLOTS * SINGLE_LENGTH);
            IsPacket(file, i, Cell(r.mem, i))
  {
    var pos, n := Position(file, w.base), SLOTS * SINGLE_LENGTH;
    var d := i - w.base - RING;
    var m := ReadCount(file, pos, n);
    CellsFollow(w.base, d);
    FreshBytes(w.mem, file, CellOffset(w.base), pos, m, d * SINGLE_LENGTH, i);
  }

  lemma FreshBytes(mem: Memory, file: seq<Byte>, o: nat, pos: nat, m: nat, first: nat, i: nat)
    requires pos + m <= |file| && o + m <= |mem| && o + first + SINGLE_LENGTH <= |mem|
    requires pos + first == i * SINGLE_LENGTH <= |file|
    requires first + |PacketBytes(file, i)| <= m
    ensures PacketBytes(file, i) <= (mem[..o] + file[pos..pos + m] + mem[o + m..])[o + first..o + first + SINGLE_LENGTH]
  {
    var r, n := mem[..o] + file[pos..pos + m] + mem[o + m..], |PacketBytes(file, i)|;
    OverlayInside(mem, o, file[pos..pos + m], first, n);
    SliceOfSlice(file, pos, m, first, n);
    SliceOfSlice(r, o + first, SINGLE_LENGTH, 0, n);
  }

  // ----- Writing a block out -----

  /** The bytes `fwrite(raw_ptr, 1, n)` writes. */
  function Block(w: Ring, n: nat): seq<Byte>
    requires CellOffset(w.base) + n <= |w.mem|
  {
    w.mem[CellOffset(w.base)..CellOffset(w.base) + n]
  }

  lemma BlockByte(w: Ring, file: seq<Byte>, n: nat, d: nat, k: nat)
    requires Aligned(w) && d < SLOTS && k < SINGLE_LENGTH
    requires d * SINGLE_LENGTH + k < n <= SLOTS * SINGLE_LENGTH
    requires w.base * SINGLE_LENGTH + n <= |file|
    requires CellOffset(w.base) + n <= |w.mem|
    requires IsPacket(file, w.base + d, Cell(w.mem, w.base + d))
    ensures Block(w, n)[d * SINGLE_LENGTH + k] == file[w.base * SINGLE_LENGTH + (d * SINGLE_LENGTH + k)]
  {
    CellsFollow(w.base, d);
    PacketByte(file, w.base + d, Cell(w.mem, w.base + d), k);
  }

  lemma BlockIsFile(w: Ring, file: seq<Byte>, n: nat)
    requires Aligned(w) && n <= SLOTS * SINGLE_LENGTH
    requires w.base * SINGLE_LENGTH + n <= |file|
    requires forall i: nat | w.base <= i < w.base + SLOTS && i * SINGLE_LENGTH < w.base * SINGLE_LENGTH + n ::
               IsPacket(file, i, Cell(w.mem, i))
    ensures CellOffset(w.base) + n <= |w.mem|
    ensures Block(w, n) == file[w.base * SINGLE_LENGTH..w.base * SINGLE_LENGTH + n]
  {
    HalfRing(w);
    var from := w.base * SINGLE_LENGTH;
    forall t | 0 <= t < n ensures Block(w, n)[t] == file[from..from + n][t] {
      var d, k := CellOf(t);
      BlockByte(w, file, n, d, k);
    }
  }

  lemma CellOf(t: nat) returns (d: nat, k: nat)
    requires t < SLOTS * SINGLE_LENGTH
    ensures d < SLOTS && k < SINGLE_LENGTH && t == d * SINGLE_LENGTH + k
  {
    d, k := t / SINGLE_LENGTH, t % SINGLE_LENGTH;
  }
}
