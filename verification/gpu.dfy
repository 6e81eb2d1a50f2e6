/**
 * The GPU buffer objects the engine's streams and models write into, reduced to
 * what the CPU side can observe: the creation flags, the size in bytes and the
 * elements most recently mapped at the start of the buffer. The driver calls
 * behind `Buffer::resize` and `Buffer::mapData` are not part of this model.
 */
module Gpu {

  /** `Buffer::Type`: what the buffer is bound as. */
  datatype Target = Array | Element

  /** The enumerators of `Buffer::Storage`, `Buffer::ImmutableAccess`, `Buffer::Usage`
      and `Buffer::MutableAccess` that the modelled code uses. */
  datatype Storage = Static | DynamicCoherentWrite
  datatype ImmutableAccess = None | WriteCoherent
  datatype Usage = DynamicDraw
  datatype MutableAccess = WriteOrphaning

  /** A buffer is created either with immutable storage or with a mutable usage hint. */
  datatype Flags =
    | Immutable(storage: Storage, immutableAccess: ImmutableAccess)
    | Mutable(usage: Usage, mutableAccess: MutableAccess)

  /** A buffer object: `size` bytes of storage whose start holds `contents`. */
  datatype Buffer<E> = Buffer(target: Target, flags: Flags, size: nat, contents: seq<E>)

  /** What `BufferBuilder::build` yields: `bytes` bytes, initialised from `data`
      (an empty `data` stands for a null data pointer). */
  function Build<E>(target: Target, flags: Flags, data: seq<E>, bytes: nat): Buffer<E>
  {
    Buffer(target, flags, bytes, data)
  }

  /** `Buffer::resize`: new storage of `bytes` bytes, with the same flags; what it
      held before is no longer tracked. */
  function Resize<E>(b: Buffer<E>, bytes: nat): Buffer<E>
  {
    Buffer(b.target, b.flags, bytes, [])
  }

  /** `Buffer::mapData`: copies `data` (`bytes` bytes of it) to the start of the buffer. */
  function MapData<E>(b: Buffer<E>, data: seq<E>, bytes: nat): Buffer<E>
    requires bytes <= b.size
  {
    b.(contents := data)
  }

  /**
   * The grow-only upload shared by `IndexedVertexStream::map` and `TextModel::update`:
   * resize to exactly the bytes needed when they exceed the current size, then map
   * the data. The buffer never shrinks.
   */
  function GrowAndMap<E>(b: Buffer<E>, data: seq<E>, bytes: nat): (r: Buffer<E>)
    ensures r.size == if bytes > b.size then bytes else b.size
    ensures r.size >= b.size && r.size >= bytes
    ensures r.contents == data
    ensures r.target == b.target && r.flags == b.flags
  {
    var grown := if bytes > b.size then Resize(b, bytes) else b;
    MapData(grown, data, bytes)
  }

  /** The buffer after uploading each batch in turn, `elementSize` bytes per element. */
  function UploadAll<E>(b: Buffer<E>, batches: seq<seq<E>>, elementSize: nat): Buffer<E>
    decreases |batches|
  {
    if batches == [] then b
    else UploadAll(GrowAndMap(b, batches[0], |batches[0]| * elementSize), batches[1..], elementSize)
  }

  /**
   * After any series of uploads the buffer is exactly as large as the largest of its
   * initial size and every batch: it grew to fit each request and never shrank.
   */
  lemma {:induction false} UploadAllSizeIsLargestRequest<E>(b: Buffer<E>, batches: seq<seq<E>>, elementSize: nat)
    ensures UploadAll(b, batches, elementSize).size >= b.size
    ensures forall i :: 0 <= i < |batches| ==> UploadAll(b, batches, elementSize).size >= |batches[i]| * elementSize
    ensures UploadAll(b, batches, elementSize).size == b.size
         || exists i :: 0 <= i < |batches| && UploadAll(b, batches, elementSize).size == |batches[i]| * elementSize
    ensures batches != [] ==> UploadAll(b, batches, elementSize).contents == batches[|batches| - 1]
    decreases |batches|
  {
    if batches != [] {
      var next := GrowAndMap(b, batches[0], |batches[0]| * elementSize);
      var rest := batches[1..];
      UploadAllSizeIsLargestRequest(next, rest, elementSize);
      var r := UploadAll(b, batches, elementSize);
      assert r == UploadAll(next, rest, elementSize);
      forall i | 0 <= i < |batches|
        ensures r.size >= |batches[i]| * elementSize
      {
        if i > 0 { assert batches[i] == rest[i - 1]; }
      }
      if r.size != next.size {
        var j :| 0 <= j < |rest| && r.size == |rest[j]| * elementSize;
        assert batches[j + 1] == rest[j];
      } else if next.size != b.size {
        assert r.size == |batches[0]| * elementSize;
      }
      if rest != [] {
        assert batches[|batches| - 1] == rest[|rest| - 1];
      }
    }
  }

  const SizeiRange: int := 0x1_0000_0000
  const SizeiLimit: int := 0x8000_0000

  /** The conversion `(GLsizei)n` of an unsigned count to OpenGL's signed 32-bit
      count type: the value modulo 2^32, read in two's complement. */
  function ToSizei(n: nat): (r: int)
    ensures -SizeiLimit <= r < SizeiLimit
    ensures (r - n) % SizeiRange == 0
    ensures n < SizeiLimit ==> r == n
  {
    var w := n % SizeiRange;
    if w < SizeiLimit then w else w - SizeiRange
  }
}
