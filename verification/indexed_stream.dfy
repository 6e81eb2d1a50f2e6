/**
 * `IndexedVertexStream` of `core/indexed_stream.hpp`: a vertex stream with an
 * index list and an element buffer. The vertices themselves belong to the base
 * `VertexStream`, which is not part of this model; only their count is kept.
 */
module IndexedStreams {
  import opened Wrappers
  import Gpu

  /** `index_type` is `std::uint32_t`. */
  const IndexRange: nat := 0x1_0000_0000
  const IndexSize: nat := 4

  type Index = i: int | 0 <= i < IndexRange

  /** `VertexStreamUsage`. */
  datatype StreamUsage = Static | Dynamic | Stream

  /** The GL primitive mode of a `VertexStreamDraw` enumerator. */
  type DrawMode = nat

  /** What a draw submits: an element count, and an instance count when instanced. */
  datatype DrawCall =
    | DrawElements(mode: DrawMode, count: int)
    | DrawElementsInstanced(mode: DrawMode, count: int, instances: int)

  /** The storage and access flags `initialize` picks for each usage. */
  function UsageFlags(u: StreamUsage): (f: Gpu.Flags)
    ensures f.Mutable? <==> u == Dynamic
    ensures f.Immutable? ==> (f.immutableAccess == Gpu.WriteCoherent <==> u == Stream)
    ensures f.Immutable? ==> (f.storage == Gpu.Static <==> u == Static)
  {
    match u
    case Static => Gpu.Immutable(Gpu.Static, Gpu.ImmutableAccess.None)
    case Dynamic => Gpu.Mutable(Gpu.DynamicDraw, Gpu.WriteOrphaning)
    case Stream => Gpu.Immutable(Gpu.DynamicCoherentWrite, Gpu.WriteCoherent)
  }

  /** Distinct usages yield distinct flags. */
  lemma UsageFlagsInjective(u: StreamUsage, v: StreamUsage)
    requires UsageFlags(u) == UsageFlags(v)
    ensures u == v
  {
  }

  /** An index plus an offset, stored back into a `uint32`. */
  function Wrap(n: nat): Index
  {
    n % IndexRange
  }

  /** Each index of `s` advanced by `offset`, as `std::transform` with `plus` does. */
  function Shifted(s: seq<Index>, offset: nat): seq<Index>
  {
    seq(|s|, i requires 0 <= i < |s| => Wrap(s[i] + offset))
  }

  /** The index list after `operator+`: the shifted right-hand indices first,
      then the ones already there. */
  function Combined(indices: seq<Index>, rhsIndices: seq<Index>, offset: nat): seq<Index>
  {
    Shifted(rhsIndices, offset) + indices
  }

  /** Every index names one of `vertexCount` vertices. */
  predicate IndicesInRange(indices: seq<Index>, vertexCount: nat)
  {
    forall i :: 0 <= i < |indices| ==> indices[i] < vertexCount
  }

  /**
   * `auto cp = rhs.indices;` followed by the in-place `std::transform` that adds
   * `offset` to every element.
   */
  method ShiftCopy(src: seq<Index>, offset: nat) returns (cp: seq<Index>)
    ensures cp == Shifted(src, offset)
  {
    cp := src;
    var i := 0;
    while i < |cp|
      invariant 0 <= i <= |cp| == |src|
      invariant forall j :: 0 <= j < i ==> cp[j] == Wrap(src[j] + offset)
      invariant forall j :: i <= j < |cp| ==> cp[j] == src[j]
    {
      cp := cp[i := Wrap(cp[i] + offset)];
      i := i + 1;
    }
  }

  /** The new indices come first and the old ones are kept, in order, behind them. */
  lemma CombinedLayout(indices: seq<Index>, rhsIndices: seq<Index>, offset: nat)
    ensures |Combined(indices, rhsIndices, offset)| == |indices| + |rhsIndices|
    ensures Combined(indices, rhsIndices, offset)[|rhsIndices|..] == indices
    ensures forall i :: 0 <= i < |rhsIndices| ==>
              Combined(indices, rhsIndices, offset)[i] == Wrap(rhsIndices[i] + offset)
  {
  }

  /**
   * As written: the offset is the vertex count after the base append, `total`,
   * that is `a + b` vertices. Every right-hand index then lands at or past the end of the
   * combined stream, so the combined index list is out of range.
   */
  lemma AsWrittenOffsetPointsPastEnd(indices: seq<Index>, a: nat, rhsIndices: seq<Index>, b: nat, total: nat)
    requires total == a + b
    requires IndicesInRange(rhsIndices, b)
    requires a + 2 * b <= IndexRange
    requires |rhsIndices| > 0
    ensures forall i :: 0 <= i < |rhsIndices| ==> Combined(indices, rhsIndices, total)[i] >= total
    ensures !IndicesInRange(Combined(indices, rhsIndices, total), total)
  {
    var c := Combined(indices, rhsIndices, total);
    forall i | 0 <= i < |rhsIndices|
      ensures c[i] >= total
    {
      assert c[i] == Wrap(rhsIndices[i] + total);
    }
    assert c[0] >= total;
  }

  /** Two one-triangle streams of three vertices each: the triangle taken from the
      right-hand side becomes (6, 7, 8) in a stream of six vertices. */
  lemma AsWrittenCounterexample()
    ensures Combined([0, 1, 2], [0, 1, 2], 3 + 3) == [6, 7, 8, 0, 1, 2]
    ensures !IndicesInRange(Combined([0, 1, 2], [0, 1, 2], 3 + 3), 3 + 3)
  {
    assert Shifted([0, 1, 2], 6) == [6, 7, 8];
    assert Combined([0, 1, 2], [0, 1, 2], 6)[0] == 6;
  }

  /**
   * Intended: shifting by the vertex count before the append, `a`, keeps every
   * index in range, and each right-hand index names the same vertex it named in
   * the right-hand stream, now stored `a` places further on.
   */
  lemma OldCountOffsetKeepsIndicesInRange(indices: seq<Index>, a: nat, rhsIndices: seq<Index>, b: nat)
    requires IndicesInRange(indices, a) && IndicesInRange(rhsIndices, b)
    requires a + b <= IndexRange
    ensures IndicesInRange(Combined(indices, rhsIndices, a), a + b)
    ensures forall i :: 0 <= i < |rhsIndices| ==> Combined(indices, rhsIndices, a)[i] == rhsIndices[i] + a
  {
    var c := Combined(indices, rhsIndices, a);
    forall i | 0 <= i < |rhsIndices|
      ensures c[i] == rhsIndices[i] + a
    {
      assert c[i] == Wrap(rhsIndices[i] + a);
    }
    forall i | 0 <= i < |c|
      ensures c[i] < a + b
    {
      if i >= |rhsIndices| {
        assert c[i] == indices[i - |rhsIndices|];
      }
    }
  }

  class IndexedVertexStream
  {
    /** `this->stream.size()`. */
    var vertexCount: nat
    var indices: seq<Index>
    const usage: StreamUsage
    var indicesBuffer: Gpu.Buffer<Index>

    /** The constructor: takes the vertices and indices, then runs `initialize`. */
    constructor (vertices: nat, idx: seq<Index>, u: StreamUsage)
      ensures vertexCount == vertices && indices == idx && usage == u
      ensures indicesBuffer.target == Gpu.Element && indicesBuffer.flags == UsageFlags(u)
      ensures indicesBuffer.size == IndexSize * |idx| && indicesBuffer.contents == idx
    {
      vertexCount := vertices;
      indices := idx;
      usage := u;
      new;
      Initialize();
    }

    /** `initialize`: an element buffer of exactly the index bytes, holding the
        indices, with the flags for the stream's usage. */
    method Initialize()
      modifies this`indicesBuffer
      ensures indicesBuffer.target == Gpu.Element && indicesBuffer.flags == UsageFlags(usage)
      ensures indicesBuffer.size == IndexSize * |indices| && indicesBuffer.contents == indices
    {
      indicesBuffer := Gpu.Build(Gpu.Element, UsageFlags(usage), indices, |indices| * IndexSize);
    }

    /** `draw`: nothing when the stream has no vertices, else all indices. */
    method Draw(mode: DrawMode) returns (call: Option<DrawCall>)
      ensures call.None? <==> vertexCount == 0
      ensures call.Some? ==> call.value == DrawElements(mode, Gpu.ToSizei(|indices|))
    {
      if vertexCount == 0 {
        return None;
      }
      call := Some(DrawElements(mode, Gpu.ToSizei(|indices|)));
    }

    /** `draw_instanced`: nothing when the stream has no vertices, else all indices
        `count` times. */
    method DrawInstanced(mode: DrawMode, count: nat) returns (call: Option<DrawCall>)
      ensures call.None? <==> vertexCount == 0
      ensures call.Some? ==> call.value == DrawElementsInstanced(mode, Gpu.ToSizei(|indices|), Gpu.ToSizei(count))
    {
      if vertexCount == 0 {
        return None;
      }
      call := Some(DrawElementsInstanced(mode, Gpu.ToSizei(|indices|), Gpu.ToSizei(count)));
    }

    /** `map`: grows the element buffer to the index bytes if it is too small, then
        uploads the indices. */
    method Map()
      modifies this`indicesBuffer
      ensures indicesBuffer == Gpu.GrowAndMap(old(indicesBuffer), indices, IndexSize * |indices|)
      ensures indicesBuffer.size >= IndexSize * |indices| && indicesBuffer.contents == indices
    {
      var size := |indices| * IndexSize;
      var b := indicesBuffer;
      if size > b.size {
        b := Gpu.Resize(b, size);
      }
      indicesBuffer := Gpu.MapData(b, indices, size);
    }

    /**
     * `operator+`, as written: the base append adds the right-hand vertices, then a
     * copy of the right-hand indices, each shifted by the NEW vertex count, is put
     * in front of the indices, and the buffer is re-mapped. The right-hand stream's
     * own indices are untouched (unless it is this stream).
     */
    method Add(rhs: IndexedVertexStream)
      modifies this
      ensures vertexCount == old(vertexCount) + old(rhs.vertexCount)
      ensures indices == Combined(old(indices), old(rhs.indices), vertexCount)
      ensures |indices| == old(|indices|) + old(|rhs.indices|)
      ensures rhs != this ==> rhs.indices == old(rhs.indices) && rhs.vertexCount == old(rhs.vertexCount)
      ensures indicesBuffer == Gpu.GrowAndMap(old(indicesBuffer), indices, IndexSize * |indices|)
    {
      vertexCount := vertexCount + rhs.vertexCount;
      var cp := ShiftCopy(rhs.indices, vertexCount);
      indices := cp + indices;
      Map();
    }
  }
}
