/**
 * `vsg::ProxyArray<T>`: a non-owning, strided view of `_size` elements laid
 * out `_stride` bytes apart inside the bytes of another `Data` object (the
 * storage), starting `offset` bytes into it.
 *
 * A raw byte pointer is modelled as an allocation plus a byte offset; the null
 * pointer is `BytePtr(null, 0)`, so `nullptr + n` is `BytePtr(null, n)`. An
 * element of `T` is `valueSize` opaque bytes.
 */
module ProxyArrays {
  import opened CoreTypes

  /** The `Data` object a view aliases, seen through `dataPointer()`: its bytes, or null. */
  class Storage {
    var bytes: array?<uint8>

    constructor (bytes: array?<uint8>)
      ensures this.bytes == bytes
    {
      this.bytes := bytes;
    }
  }

  /** A `std::uint8_t*`: the allocation it points into (null for no allocation) and a byte offset. */
  datatype BytePtr = BytePtr(block: array?<uint8>, offset: nat) {
    /** `p + n` */
    function Plus(n: nat): BytePtr {
      BytePtr(block, offset + n)
    }
  }

  const NULL_PTR: BytePtr := BytePtr(null, 0)

  /** The layout descriptor; only its mip-level count is consulted by the view. */
  datatype Layout = Layout(maxNumMipmaps: nat)

  /** `computeValueCountIncludingMipmaps(w, h, d, maxNumMipmaps)` of Data.h. */
  type MipValueCounter = (nat, nat, nat, nat) -> nat

  /** The fields `write` emits and `read` consumes, in stream order: Size, Stride, Offset, Storage. */
  datatype ProxyRecord = ProxyRecord(size: uint32, stride: uint32, offset: uint32, storage: Storage?)

  /** The state of a view that serialization writes and restores. */
  datatype ViewState = ViewState(size: uint32, stride: uint32, data: BytePtr, storage: Storage?)

  /** `storage->dataPointer() + offset` when the storage has bytes, null otherwise. */
  function Resolve(storage: Storage?, offset: nat): (p: BytePtr)
    reads storage
    ensures storage != null && storage.bytes != null ==> p.block == storage.bytes && p.offset == offset
    ensures storage == null || storage.bytes == null ==> p == NULL_PTR
  {
    if storage != null && storage.bytes != null then BytePtr(storage.bytes, offset) else NULL_PTR
  }

  /** The view state `read` sets up from a record. */
  function Decode(input: ProxyRecord): (v: ViewState)
    reads input.storage
    ensures v.size == input.size && v.stride == input.stride && v.storage == input.storage
    ensures v.data == Resolve(input.storage, input.offset)
  {
    ViewState(input.size, input.stride, Resolve(input.storage, input.offset), input.storage)
  }

  /** The `valueSize` bytes of one element stored at byte `at`. */
  function ElementBytes(bytes: seq<uint8>, at: nat, valueSize: nat): (v: seq<uint8>)
    requires at + valueSize <= |bytes|
    ensures |v| == valueSize
    ensures forall k :: 0 <= k < valueSize ==> v[k] == bytes[at + k]
  {
    bytes[at..at + valueSize]
  }

  /** `bytes` with `v` stored at byte `at`: the store of one element. */
  function Overwrite(bytes: seq<uint8>, at: nat, v: seq<uint8>): (r: seq<uint8>)
    requires at + |v| <= |bytes|
    ensures |r| == |bytes|
    ensures forall k :: 0 <= k < |bytes| ==> r[k] == if at <= k < at + |v| then v[k - at] else bytes[k]
  {
    bytes[..at] + v + bytes[at + |v|..]
  }

  /** `d * c >= c` for every positive `d`. */
  lemma {:induction false} MulAtLeast(d: nat, c: nat)
    requires d >= 1
    ensures d * c >= c
    decreases d
  {
    if d > 1 {
      MulAtLeast(d - 1, c);
      assert d * c == (d - 1) * c + c;
    }
  }

  /** With a positive multiplier, a smaller index gives a smaller byte distance. */
  lemma MulStrictlyIncreasing(a: nat, b: nat, c: nat)
    requires a < b && c > 0
    ensures a * c + c <= b * c
  {
    MulAtLeast(b - a, c);
    assert b * c == a * c + (b - a) * c;
  }

  /** With `valueSize <= stride`, the byte ranges of two different elements do not overlap. */
  lemma SlotsDisjoint(offset: nat, stride: nat, valueSize: nat, i: nat, j: nat)
    requires valueSize <= stride && i != j
    ensures offset + i * stride + valueSize <= offset + j * stride || offset + j * stride + valueSize <= offset + i * stride
  {
    if stride > 0 {
      if i < j {
        MulStrictlyIncreasing(i, j, stride);
      } else {
        MulStrictlyIncreasing(j, i, stride);
      }
    }
  }

  /** Storing element `i` leaves the bytes of every other element `j` as they were. */
  lemma OverwriteKeepsOtherElements(bytes: seq<uint8>, offset: nat, stride: nat, v: seq<uint8>, i: nat, j: nat)
    requires |v| <= stride && i != j
    requires offset + i * stride + |v| <= |bytes| && offset + j * stride + |v| <= |bytes|
    ensures ElementBytes(Overwrite(bytes, offset + i * stride, v), offset + j * stride, |v|)
         == ElementBytes(bytes, offset + j * stride, |v|)
  {
    SlotsDisjoint(offset, stride, |v|, i, j);
  }

  /** `stride_iterator<T>`: a byte pointer that steps `stride` bytes at a time. */
  datatype StrideIterator = StrideIterator(ptr: BytePtr, stride: uint32) {
    /** `++it` */
    function Incremented(): (r: StrideIterator)
      ensures r.stride == stride && r.ptr.block == ptr.block && r.ptr.offset == ptr.offset + stride
    {
      StrideIterator(ptr.Plus(stride), stride)
    }

    /**
     * `it++` as written: the iterator is advanced, and the value returned is
     * the advanced iterator (the saved copy is unused). Gives (new it, result).
     */
    function PostIncremented(): (r: (StrideIterator, StrideIterator))
      ensures r.0 == Incremented()
    {
      var advanced := Incremented();
      (advanced, advanced)
    }

    /** `it++` as evidently intended: advance, and return the position before. */
    function IntendedPostIncremented(): (r: (StrideIterator, StrideIterator))
      ensures r.0 == Incremented()
      ensures r.1 == this
    {
      (Incremented(), this)
    }

    /** `it == rhs`: positions only, the strides are not compared. */
    predicate Equals(rhs: StrideIterator)
      ensures Equals(rhs) <==> ptr.block == rhs.ptr.block && ptr.offset == rhs.ptr.offset
    {
      ptr == rhs.ptr
    }

    /** `it != rhs` */
    predicate NotEquals(rhs: StrideIterator)
      ensures NotEquals(rhs) <==> !Equals(rhs)
    {
      ptr != rhs.ptr
    }

    /** `*it`: the `valueSize` bytes the iterator points at. */
    function Referent(valueSize: nat): (v: seq<uint8>)
      reads ptr.block
      requires ptr.block != null && ptr.offset + valueSize <= ptr.block.Length
      ensures v == ElementBytes(ptr.block[..], ptr.offset, valueSize)
    {
      ptr.block[ptr.offset..ptr.offset + valueSize]
    }
  }

  /** `it` after `k` applications of `++`. */
  function Advanced(it: StrideIterator, k: nat): StrideIterator
    decreases k
  {
    if k == 0 then it else Advanced(it.Incremented(), k - 1)
  }

  /** `k` increments move the iterator exactly `k * stride` bytes and keep its stride. */
  lemma {:induction false} AdvancedPosition(it: StrideIterator, k: nat)
    ensures Advanced(it, k) == StrideIterator(it.ptr.Plus(k * it.stride), it.stride)
    decreases k
  {
    if k > 0 {
      AdvancedPosition(it.Incremented(), k - 1);
      assert (k - 1) * it.stride + it.stride == k * it.stride;
    }
  }

  /** `it++` as written returns a position `stride` bytes past the one it was called on. */
  lemma PostIncrementReturnsAdvanced(it: StrideIterator)
    requires it.stride > 0
    ensures it.PostIncremented().1 == it.Incremented()
    ensures !it.PostIncremented().1.Equals(it)
  {
  }

  class ProxyArray {
    /** `sizeof(T)` */
    const valueSize: nat
    /** Data.h's mip-aware element count, which is not part of this model. */
    const valueCountIncludingMipmaps: MipValueCounter
    /** `_size` */
    var size: uint32
    /** `_stride` */
    var stride: uint32
    /** `_data` */
    var data: BytePtr
    /** `_storage` */
    var storage: Storage?
    /** `_layout`, inherited from `Data` */
    var layout: Layout

    /**
     * While the storage has bytes, `data` points into them at an offset that
     * fits the uint32 the stream carries; otherwise `data` is null.
     */
    ghost predicate Valid()
      reads this, storage
    {
      if storage != null && storage.bytes != null
      then data.block == storage.bytes && data.offset < UINT32_BOUND
      else data == NULL_PTR
    }

    /** `ProxyArray()` */
    constructor Empty(valueSize: nat, valueCountIncludingMipmaps: MipValueCounter, layout: Layout)
      ensures Valid()
      ensures this.valueSize == valueSize && this.valueCountIncludingMipmaps == valueCountIncludingMipmaps
      ensures size == 0 && stride == 0 && data == NULL_PTR && storage == null && this.layout == layout
    {
      this.valueSize := valueSize;
      this.valueCountIncludingMipmaps := valueCountIncludingMipmaps;
      size := 0;
      stride := 0;
      data := NULL_PTR;
      storage := null;
      this.layout := layout;
    }

    /** `ProxyArray(data, numElements, offset, stride, layout)`: an `assign` on a new view. */
    constructor (valueSize: nat, valueCountIncludingMipmaps: MipValueCounter,
                 s: Storage?, numElements: uint32, offset: uint32, stride: uint32, layout: Layout)
      ensures Valid()
      ensures this.valueSize == valueSize && this.valueCountIncludingMipmaps == valueCountIncludingMipmaps
      ensures storage == s && this.stride == stride && this.layout == layout
      ensures data == Resolve(s, offset)
      ensures size == if s != null && s.bytes != null then numElements else 0
    {
      this.valueSize := valueSize;
      this.valueCountIncludingMipmaps := valueCountIncludingMipmaps;
      new;
      Assign(s, numElements, offset, stride, layout);
    }

    /** The state serialization round-trips. */
    function State(): ViewState
      reads this
    {
      ViewState(size, stride, data, storage)
    }

    /**
     * `assign(data, numElements, offset, stride, layout)`: binds the view; a
     * storage that is null or has no bytes gives the empty view, with the
     * stride, layout and storage still recorded.
     */
    method Assign(s: Storage?, numElements: uint32, offset: uint32, stride: uint32, layout: Layout)
      modifies this
      ensures Valid()
      ensures storage == s && this.stride == stride && this.layout == layout
      ensures s != null && s.bytes != null ==> data == BytePtr(s.bytes, offset) && size == numElements
      ensures s == null || s.bytes == null ==> data == NULL_PTR && size == 0
      ensures Write().offset == if s != null && s.bytes != null then offset else 0
    {
      storage := s;
      this.stride := stride;
      this.layout := layout;
      if s != null && s.bytes != null {
        data := BytePtr(s.bytes, offset);
        size := numElements;
      } else {
        data := NULL_PTR;
        size := 0;
      }
    }

    /**
     * `read(input)`: restores Size, Stride, Offset and Storage in that order and
     * recomputes the pointer; without storage bytes the pointer is null while the
     * size read is kept.
     */
    method Read(input: ProxyRecord)
      modifies this
      ensures Valid()
      ensures State() == Decode(input)
      ensures size == input.size && stride == input.stride && storage == input.storage
      ensures data == Resolve(input.storage, input.offset)
    {
      size := input.size;
      stride := input.stride;
      var offset := input.offset;
      storage := input.storage;
      if storage != null && storage.bytes != null {
        data := BytePtr(storage.bytes, offset);
      } else {
        data := NULL_PTR;
      }
    }

    /**
     * `write(output)`: the offset is the distance of `data` from the storage's
     * bytes (0 without them); reading the record back with the same storage
     * restores the view.
     */
    function Write(): (r: ProxyRecord)
      reads this, storage
      requires Valid()
      ensures r.size == size && r.stride == stride && r.storage == storage
      ensures Resolve(r.storage, r.offset) == data
      ensures Decode(r) == State()
      ensures storage == null || storage.bytes == null ==> r.offset == 0
    {
      var offset := if storage != null && storage.bytes != null then data.offset else 0;
      ProxyRecord(size, stride, offset, storage)
    }

    /** `size()`: `_size` unless the layout has several mip levels. */
    function Size(): (n: nat)
      reads this
      ensures layout.maxNumMipmaps <= 1 ==> n == size
    {
      if layout.maxNumMipmaps <= 1 then size
      else valueCountIncludingMipmaps(size, 1, 1, layout.maxNumMipmaps)
    }

    /** `empty()`: tests `_size`, not `size()`. */
    predicate IsEmpty()
      reads this
      ensures IsEmpty() <==> Width() == 0
    {
      size == 0
    }

    /** `valueCount()` */
    function ValueCount(): (n: nat)
      reads this
      ensures n == Size()
    {
      Size()
    }

    /** `dataSize()`: bytes spanned, counted with the stride rather than `valueSize`. */
    function DataSize(): (n: nat)
      reads this
      ensures n == ValueCount() * stride
    {
      Size() * stride
    }

    /** `width()` */
    function Width(): (w: uint32)
      reads this
      ensures layout.maxNumMipmaps <= 1 ==> w == Size()
    {
      size
    }

    /** `data()` and `dataPointer()` */
    function DataPointer(): (p: BytePtr)
      reads this
      ensures p == DataPointerAt(0)
    {
      data
    }

    /** `dataPointer(i)`: `_data + i * _stride`. */
    function DataPointerAt(i: nat): (p: BytePtr)
      reads this
      ensures p.block == data.block && p.offset == data.offset + i * stride
    {
      data.Plus(i * stride)
    }

    /** `at(i)` and `operator[](i)`: the element stored at `dataPointer(i)`, unchecked. */
    function At(i: nat): (v: seq<uint8>)
      reads this, data.block
      requires data.block != null && data.offset + i * stride + valueSize <= data.block.Length
      ensures |v| == valueSize
      ensures forall k :: 0 <= k < valueSize ==> v[k] == data.block[data.offset + i * stride + k]
    {
      ElementBytes(data.block[..], DataPointerAt(i).offset, valueSize)
    }

    /**
     * `set(i, v)`: stores the `valueSize` bytes of `v` at `dataPointer(i)` in the
     * shared storage bytes, and nothing else.
     */
    method Set(i: nat, v: seq<uint8>)
      requires data.block != null && |v| == valueSize
      requires data.offset + i * stride + valueSize <= data.block.Length
      modifies data.block
      ensures data.block[..] == Overwrite(old(data.block[..]), DataPointerAt(i).offset, v)
      ensures At(i) == v
    {
      var at := data.offset + i * stride;
      ghost var expected := Overwrite(data.block[..], at, v);
      forall k | 0 <= k < valueSize {
        data.block[at + k] := v[k];
      }
      assert forall k :: 0 <= k < |expected| ==> data.block[k] == expected[k];
      assert data.block[..] == expected;
      assert data.block[..][at..at + valueSize] == v;
    }

    /** `clear()`, its field resets only: the storage reference is kept. */
    method Clear()
      modifies this
      ensures size == 0 && data == NULL_PTR
      ensures storage == old(storage) && stride == old(stride) && layout == old(layout)
    {
      size := 0;
      data := NULL_PTR;
    }

    /** `dataRelease()`: drops the storage reference and returns null; no bytes are freed. */
    method DataRelease() returns (released: BytePtr)
      modifies this
      ensures released == NULL_PTR
      ensures Valid() && storage == null && data == NULL_PTR && size == 0
      ensures stride == old(stride) && layout == old(layout)
    {
      storage := null;
      data := NULL_PTR;
      size := 0;
      released := NULL_PTR;
    }

    /** `begin()` */
    function Begin(): (it: StrideIterator)
      reads this
      ensures it.ptr == DataPointer() && it.stride == stride
    {
      StrideIterator(data, stride)
    }

    /** `end()` as written: `_size * _stride` is a uint32 product, so it wraps modulo 2^32. */
    function End(): (it: StrideIterator)
      reads this
      ensures it.stride == stride && it.ptr.block == data.block
      ensures it.ptr.offset == data.offset + (size * stride) % UINT32_BOUND
    {
      StrideIterator(data.Plus((size * stride) % UINT32_BOUND), stride)
    }

    /** `end()` as evidently intended: `size * stride` bytes past `begin()`. */
    function IntendedEnd(): (it: StrideIterator)
      reads this
      ensures it.ptr == DataPointerAt(size) && it.stride == stride
    {
      StrideIterator(data.Plus(size * stride), stride)
    }

    /** The two agree whenever the byte extent of the view fits in 32 bits. */
    lemma EndsAgreeWithoutWrap()
      requires size * stride < UINT32_BOUND
      ensures End() == IntendedEnd()
    {
      var extent := size * stride;
      assert extent % UINT32_BOUND == extent;
    }

    /** A view of 65536 elements of stride 65536: `end()` as written equals `begin()`. */
    lemma EndWrapsAround()
      requires size == 0x1_0000 && stride == 0x1_0000
      ensures End().Equals(Begin())
      ensures !Advanced(Begin(), size).Equals(End())
    {
      AdvancedPosition(Begin(), size);
    }

    /**
     * Strided iteration: `k` increments from `begin()` point at `dataPointer(k)`
     * (so `*it` is `at(k)`), and reach the intended end exactly when `k == _size`.
     */
    lemma IterationReachesIntendedEnd(k: nat)
      requires stride > 0
      ensures Advanced(Begin(), k).ptr == DataPointerAt(k)
      ensures Advanced(Begin(), k).Equals(IntendedEnd()) <==> k == size
      ensures data.block != null && data.offset + k * stride + valueSize <= data.block.Length ==>
                Advanced(Begin(), k).Referent(valueSize) == At(k)
    {
      AdvancedPosition(Begin(), k);
      if k < size {
        MulStrictlyIncreasing(k, size, stride);
      } else if k > size {
        MulStrictlyIncreasing(size, k, stride);
      }
    }
  }
}
