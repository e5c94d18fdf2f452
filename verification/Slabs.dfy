/** Segmented storage: a growable table kept in fixed-size blocks, so rows never move. */
module Slabs {
  import opened Common

  const SLAB_SIZE: nat := 1024

  /** Blocks needed for `n` rows. */
  function ChunkCount(n: nat): nat {
    (n + SLAB_SIZE - 1) / SLAB_SIZE
  }

  function Zeros<T>(zero: T, n: nat): (s: seq<T>)
    ensures |s| == n && forall i :: 0 <= i < n ==> s[i] == zero
  {
    seq(n, _ => zero)
  }

  class Slabs<T> {
    /** The element type's zero value, which fresh and cleared slots hold. */
    const zero: T
    var chunks: seq<array<T>>
    var n: nat

    /** The table this storage stands for. */
    ghost var Contents: seq<T>
    ghost var Repr: set<object>

    ghost predicate Valid()
      reads this, Repr
      ensures Valid() ==> this in Repr
    {
      && this in Repr
      && (forall c :: 0 <= c < |chunks| ==> chunks[c] in Repr && chunks[c].Length == SLAB_SIZE)
      && (forall c, d :: 0 <= c < d < |chunks| ==> chunks[c] != chunks[d])
      && n == |Contents| <= MAX_U32
      && |chunks| == ChunkCount(n)
      && (forall c, o :: 0 <= c < |chunks| && 0 <= o < SLAB_SIZE ==>
            chunks[c][o] == if SLAB_SIZE * c + o < n then Contents[SLAB_SIZE * c + o] else zero)
    }

    constructor (zero: T)
      ensures Valid() && fresh(Repr)
      ensures Contents == [] && this.zero == zero
    {
      this.zero := zero;
      chunks, n := [], 0;
      Contents, Repr := [], {this};
    }

    function Len(): (len: nat)
      reads this, Repr
      requires Valid()
      ensures len == |Contents|
    {
      n
    }

    /** Reading through the row pointer. */
    function At(i: nat): (v: T)
      reads this, Repr
      requires Valid() && i < |Contents|
      ensures v == Contents[i]
    {
      assert SLAB_SIZE * (i / SLAB_SIZE) + i % SLAB_SIZE == i;
      chunks[i / SLAB_SIZE][i % SLAB_SIZE]
    }

    /** Writing through the row pointer. */
    method Set(i: nat, v: T)
      requires Valid() && i < |Contents|
      modifies Repr
      ensures Valid() && Repr == old(Repr)
      ensures Contents == old(Contents)[i := v]
      ensures chunks == old(chunks)
    {
      var c, o := i / SLAB_SIZE, i % SLAB_SIZE;
      assert SLAB_SIZE * c + o == i;
      chunks[c][o] := v;
      Contents := Contents[i := v];
    }

    /** Blocks are added until there are `ChunkCount(size)` of them, each filled with zero values;
        the blocks already there are untouched. */
    method AddChunks(size: nat)
      requires Valid() && |Contents| <= size <= MAX_U32
      modifies this
      ensures Valid() && fresh(Repr - old(Repr)) && old(Repr) <= Repr
      ensures Contents == old(Contents) + Zeros(zero, size - |old(Contents)|)
      ensures old(chunks) <= chunks
    {
      ghost var rows := Contents;
      while |chunks| < ChunkCount(size)
        invariant this in Repr && old(Repr) <= Repr && fresh(Repr - old(Repr))
        invariant n == |rows| && Contents == rows
        invariant old(chunks) <= chunks && |old(chunks)| <= |chunks| <= ChunkCount(size)
        invariant forall c :: 0 <= c < |chunks| ==> chunks[c] in Repr && chunks[c].Length == SLAB_SIZE
        invariant forall c :: |old(chunks)| <= c < |chunks| ==> fresh(chunks[c])
        invariant forall c, d :: 0 <= c < d < |chunks| ==> chunks[c] != chunks[d]
        invariant forall c, o :: 0 <= c < |chunks| && 0 <= o < SLAB_SIZE ==>
            chunks[c][o] == if SLAB_SIZE * c + o < n then rows[SLAB_SIZE * c + o] else zero
      {
        var chunk := new T[SLAB_SIZE](_ => zero);
        chunks := chunks + [chunk];
        Repr := Repr + {chunk};
      }
      n := size;
      Contents := rows + Zeros(zero, size - |rows|);
    }

    method Append(v: T) returns (r: Result<nat>)
      requires Valid()
      modifies Repr
      ensures Valid() && fresh(Repr - old(Repr)) && old(Repr) <= Repr
      ensures r == if |old(Contents)| < MAX_U32 then Success(|old(Contents)|) else Fail(Overflow)
      ensures Contents == if r.Success? then old(Contents) + [v] else old(Contents)
      ensures old(chunks) <= chunks
    {
      var _ :- Checked(n + 1);
      var i := n;
      assert SLAB_SIZE * (i / SLAB_SIZE) + i % SLAB_SIZE == i;
      if i % SLAB_SIZE == 0 {
        var chunk := new T[SLAB_SIZE](_ => zero);
        chunks := chunks + [chunk];
        Repr := Repr + {chunk};
      }
      chunks[i / SLAB_SIZE][i % SLAB_SIZE] := v;
      n := n + 1;
      Contents := Contents + [v];
      return Success(i);
    }

    method Resize(size: int) returns (r: Result<()>)
      requires Valid()
      modifies Repr
      ensures Valid() && fresh(Repr - old(Repr))
      ensures r == if 0 <= size <= MAX_U32 then Success(()) else Fail(Overflow)
      ensures r.Fail? ==> Contents == old(Contents)
      ensures r.Success? && size <= |old(Contents)| ==> Contents == old(Contents)[..size]
      ensures r.Success? && |old(Contents)| <= size ==>
                Contents == old(Contents) + Zeros(zero, size - |old(Contents)|)
      ensures chunks <= old(chunks) || old(chunks) <= chunks
    {
      var _ :- Checked(size);
      if size < n {
        Truncate(size);
      } else {
        AddChunks(size);
      }
      return Success(());
    }

    /** Whole unused blocks are dropped and the tail of the last kept block is cleared. */
    method Truncate(size: nat)
      requires Valid() && size <= |Contents|
      modifies Repr
      ensures Valid() && Repr == old(Repr)
      ensures Contents == old(Contents)[..size]
      ensures chunks == old(chunks)[..ChunkCount(size)]
    {
      var count := ChunkCount(size);
      chunks := chunks[..count];
      if count > 0 && size % SLAB_SIZE != 0 {
        var last, from := chunks[count - 1], size % SLAB_SIZE;
        assert SLAB_SIZE * (count - 1) + from == size;
        for o := from to SLAB_SIZE
          modifies last
          invariant forall c, p :: 0 <= c < count && 0 <= p < SLAB_SIZE ==>
              chunks[c][p] == if c == count - 1 && from <= p < o then zero else old(chunks[c][p])
        {
          last[o] := zero;
        }
      }
      n := size;
      Contents := Contents[..size];
    }
  }
}
