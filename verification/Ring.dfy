/** The 2048-byte history of the inflate engine, addressed modulo its size. */
module Ring {
  import opened Bits
  import opened Deflate

  /** `cells` holds the last `WIN_SIZE` bytes of `out`, byte `i` in cell `i % WIN_SIZE`. */
  ghost predicate Holds(cells: seq<byte>, out: seq<byte>) {
    && |cells| == WIN_SIZE
    && forall i :: 0 <= i < |out| && |out| - WIN_SIZE <= i ==> cells[i % WIN_SIZE] == out[i]
  }

  lemma PushStep(cells: seq<byte>, out: seq<byte>, b: byte)
    requires Holds(cells, out)
    ensures Holds(cells[|out| % WIN_SIZE := b], out + [b])
  {
    forall i | 0 <= i < |out| && |out| + 1 - WIN_SIZE <= i
      ensures i % WIN_SIZE != |out| % WIN_SIZE
    {
    }
  }

  class WindowMem {
    const cells: array<byte>
    var winPos: nat
    var bytesOut: nat

    constructor ()
      ensures fresh(cells) && Valid([])
    {
      cells := new byte[WIN_SIZE];
      winPos, bytesOut := 0, 0;
    }

    ghost predicate Valid(out: seq<byte>)
      reads this, cells
    {
      bytesOut == |out| && winPos == |out| % WIN_SIZE && Holds(cells[..], out)
    }

    method Reset()
      requires cells.Length == WIN_SIZE
      modifies this
      ensures Valid([])
    {
      winPos, bytesOut := 0, 0;
    }

    method Push(b: byte, ghost out: seq<byte>)
      requires Valid(out)
      modifies this, cells
      ensures Valid(out + [b])
    {
      PushStep(cells[..], out, b);
      cells[winPos] := b;
      winPos := (winPos + 1) % WIN_SIZE;
      bytesOut := bytesOut + 1;
    }

    /** The byte `dist` back, through the 11-bit read address. */
    method Read(dist: nat, ghost out: seq<byte>) returns (b: byte)
      requires Valid(out) && 0 < dist <= Min(WIN_SIZE, |out|)
      ensures b == out[|out| - dist]
    {
      BackAddress(|out|, dist);
      b := cells[(winPos - dist) % WIN_SIZE];
      assert cells[..][(|out| - dist) % WIN_SIZE] == out[|out| - dist];
    }

    /** The history depth the engine compares distances with. */
    function Depth(): nat
      reads this
    {
      if bytesOut >= WIN_SIZE then WIN_SIZE else bytesOut
    }
  }

  lemma BackAddress(n: nat, dist: nat)
    requires dist <= n
    ensures (n % WIN_SIZE - dist) % WIN_SIZE == (n - dist) % WIN_SIZE
  {
  }
}
