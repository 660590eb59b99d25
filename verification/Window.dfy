/** `class Window`, updated in place. */
module Windows {
  import opened FileRing

  class Window {
    var base: nat
    const limit: nat
    const data: array<Byte>

    ghost predicate Valid()
      reads this
    {
      data.Length == RING * SINGLE_LENGTH
    }

    function View(): Ring
      requires Valid()
      reads this, data
    {
      Ring(base, limit, data[..])
    }

    constructor (limit: nat)
      ensures Valid() && fresh(data)
      ensures View() == Ring(0, limit, seq(RING * SINGLE_LENGTH, _ => 0))
    {
      base := 0;
      this.limit := limit;
      data := new Byte[RING * SINGLE_LENGTH](_ => 0);
      new;
      assert data[..] == seq(RING * SINGLE_LENGTH, _ => 0 as Byte);
    }

    function Empty(): bool
      reads this
    {
      base >= limit
    }

    /** `COPY(target, window[i])`. */
    method Load(i: nat) returns (p: Payload)
      requires Valid() && InWindow(View(), i)
      ensures p == Cell(View().mem, i)
    {
      p := data[CellOffset(i)..CellOffset(i) + SINGLE_LENGTH];
    }

    /** `COPY(window[i], p)`. */
    method Store(i: nat, p: Payload)
      requires Valid() && InWindow(View(), i)
      modifies data
      ensures View() == FileRing.Store(old(View()), i, p)
    {
      Overwrite(CellOffset(i), p);
    }

    method Push(n: nat)
      requires Valid()
      modifies `base
      ensures View() == old(View()).(base := old(base) + n)
    {
      base := base + n;
    }

    /** `fread(raw_ptr(), 1, n, file)` at file position `pos`. */
    method ReadFrom(file: seq<Byte>, pos: nat, n: nat) returns (count: nat)
      requires Valid() && pos <= |file|
      requires Aligned(View()) && CellOffset(base) + n <= data.Length
      modifies data
      ensures count == ReadCount(file, pos, n)
      ensures View() == Fread(old(View()), file, pos, n)
    {
      count := Min(n, |file| - pos);
      Overwrite(CellOffset(base), file[pos..pos + count]);
    }

    /** The bytes of `fwrite(raw_ptr(), 1, n)`. */
    method WriteTo(n: nat) returns (bytes: seq<Byte>)
      requires Valid()
      requires Aligned(View()) && CellOffset(base) + n <= data.Length
      ensures bytes == Block(View(), n)
    {
      bytes := data[CellOffset(base)..CellOffset(base) + n];
    }

    method Overwrite(at: nat, bytes: seq<Byte>)
      requires at + |bytes| <= data.Length
      modifies data
      ensures data[..] == old(data[..at]) + bytes + old(data[at + |bytes|..])
    {
      for k := 0 to |bytes|
        invariant forall j | 0 <= j < data.Length ::
                    data[j] == if at <= j < at + k then bytes[j - at] else old(data[j])
      {
        data[at + k] := bytes[k];
      }
    }
  }
}
