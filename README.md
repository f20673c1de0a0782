# Buffer layer of VulkanSceneGraph, modelled in Dafny

This project models three parts of VulkanSceneGraph's buffer layer:

- `vsg::Array<T>` (`array.dfy`, module `Arrays`): an owning, contiguous buffer.
  The class keeps the source's two fields: `size` (`_size`) and `data` (`_data`), a nullable Dafny `array<T>`.
  `new T[n]` is a fresh array of exactly `n` elements, non-null even for `n == 0`, as in C++.
  `Valid()` says that a null buffer holds no elements and that a non-null buffer holds at least `size`.
  `Elements()` is the abstract contents.
- `vsg::ProxyArray<T>` (`proxy_array.dfy`, module `ProxyArrays`): a non-owning strided view into the bytes of another `Data` object, here called the storage.
  A raw `std::uint8_t*` is a `BytePtr`: an allocation (null for none) plus a byte offset.
  The null pointer is `BytePtr(null, 0)`, so `nullptr + n` is `BytePtr(null, n)`.
  The storage is a `Storage` object whose `bytes` stand for its `dataPointer()`, null when it has none.
  An element of `T` is `valueSize` opaque bytes, where `valueSize` is `sizeof(T)`.
  `Valid()` is the view's invariant. While the storage has bytes, `data` points into them at an offset below 2^32. Otherwise `data` is null.
  The serialization stream is a `ProxyRecord` holding the four fields Size, Stride, Offset and Storage, in stream order.
  `stride_iterator` is the value type `StrideIterator`; `++` produces an advanced copy.
- `vsg::ArrayMapping` (`array_mapping.dfy`, module `ArrayMappings`): the `classifications` list and `index`.
  `Index` is a loop proved against the recursive reference function `FirstMatch`.
  Lemmas give the first-match, miss and next-occurrence properties of `FirstMatch`.
  The four name constants are kept as written, including `normal`, whose value is `"nomal"`.

`core_types.dfy` (module `CoreTypes`) holds the `uint8`/`uint32` ranges and `Min`.
`size_t` quantities are unbounded `nat`.

Three behaviours of the code worth knowing:
- `Array(0)` holds a non-null zero-length buffer, so "null exactly when empty" holds only in the direction "null implies empty".
- On `read` without storage bytes, `ProxyArray` keeps the `_size` it read; only the pointer becomes null.
- `resize` leaves the new elements as `new T[n]` makes them. Nothing is promised about their values.

## Model

| member | source | states |
|---|---|---|
| `Arrays.AdvanceMovesIndex` | include/vsg/core/Array.h:87-91 | applying `++` `k` times to a `T*` moves it exactly `k` elements within the same allocation |
| `Arrays.Array.Empty` | include/vsg/core/Array.h:20 | `Array()` is the empty state: size 0, null buffer, no elements |
| `Arrays.Array.OfCount` | include/vsg/core/Array.h:21 | `Array(n)` owns a fresh buffer of `n` elements; `size() == valueCount() == n` and `dataSize() == n * valueSize()` |
| `Arrays.Array.Adopt` | include/vsg/core/Array.h:22 | `Array(n, p)` adopts the caller's buffer `p` with size `n` |
| `Arrays.Array.FromList` | include/vsg/core/Array.h:23 | the initializer-list constructor owns a fresh buffer whose elements are exactly the list, in order |
| `Arrays.Array.Size` | include/vsg/core/Array.h:29 | `size()` is the number of elements held |
| `Arrays.Array.IsEmpty` | include/vsg/core/Array.h:30 | `empty()` holds exactly when no elements are held |
| `Arrays.Array.Clear` | include/vsg/core/Array.h:33 | after `clear()`: size 0, `empty()`, null buffer, no elements |
| `Arrays.Array.Assign` | include/vsg/core/Array.h:35-41 | after `assign(k, p)`, from any prior state: `size() == k` and `data() == p` |
| `Arrays.Array.Resize` | include/vsg/core/Array.h:43-64 | after `resize(m)`: `size() == m`; elements below `min(old size, m)` keep their old values; null buffer when `m == 0`, otherwise a fresh buffer of `m` elements |
| `Arrays.Array.DataRelease` | include/vsg/core/Array.h:66-67 | returns exactly the buffer held before; afterwards size 0 and null buffer, so destruction frees nothing |
| `Arrays.Array.ValueCount` | include/vsg/core/Array.h:70 | `valueCount()` is the number of elements held |
| `Arrays.Array.DataSize` | include/vsg/core/Array.h:72 | `dataSize()` is the element count times `sizeof(T)` |
| `Arrays.Array.Data` | include/vsg/core/Array.h:73-77 | `data()`/`dataPointer()` is the owning pointer; a null pointer means an empty array |
| `Arrays.Array.At` | include/vsg/core/Array.h:79-83 | `at(i)`/`operator[](i)`, for `i < size()`, is element `i` of the contents |
| `Arrays.Array.Set` | include/vsg/core/Array.h:85 | `set(i, v)` with `i < size()` makes element `i` equal `v` and leaves every other element unchanged |
| `Arrays.Array.Begin` | include/vsg/core/Array.h:87-88 | `begin()` is the owning pointer itself: element 0 of the buffer |
| `Arrays.Array.End` | include/vsg/core/Array.h:90-91 | `end()` is `_data + _size`: the same allocation as `begin()`, `size` elements further on |
| `Arrays.Array.IterationVisitsElements` | include/vsg/core/Array.h:87-91 | `end() - begin() == size()`; `k` steps from `begin()` reach `end()` exactly when `k == size()`; step `k < size()` points at element `k` |
| `ProxyArrays.Resolve` | include/vsg/core/ProxyArray.h:126-128 | the pointer recomputed from a storage and an offset is `storage->dataPointer() + offset`, or null when the storage or its pointer is null |
| `ProxyArrays.Decode` | include/vsg/core/ProxyArray.h:83-95 | the state `read` builds from a record: its size, stride and storage, and the pointer resolved from the storage plus the offset |
| `ProxyArrays.ElementBytes` | include/vsg/core/ProxyArray.h:167-171 | the bytes of one element at a byte position are exactly the `valueSize` bytes starting there |
| `ProxyArrays.Overwrite` | include/vsg/core/ProxyArray.h:173 | storing an element at byte `a` changes exactly bytes `[a, a + valueSize)` to the value's bytes; every other byte keeps its value |
| `ProxyArrays.SlotsDisjoint` | include/vsg/core/ProxyArray.h:167-173 | with `valueSize <= stride`, the byte ranges `[off + i*stride, off + i*stride + valueSize)` of two different elements do not overlap |
| `ProxyArrays.OverwriteKeepsOtherElements` | include/vsg/core/ProxyArray.h:173 | with `valueSize <= stride`, storing element `i` leaves the bytes of every other element `j` unchanged |
| `ProxyArrays.StrideIterator.Incremented` | include/vsg/core/ProxyArray.h:36 | `++it` moves the position exactly `stride` bytes within the same allocation and keeps the stride |
| `ProxyArrays.StrideIterator.Equals` | include/vsg/core/ProxyArray.h:38 | `it == rhs` holds exactly when both point at the same byte of the same allocation; the strides are not compared |
| `ProxyArrays.StrideIterator.PostIncremented` | include/vsg/core/ProxyArray.h:37 | `it++` as written advances the iterator by one step |
| `ProxyArrays.StrideIterator.IntendedPostIncremented` | include/vsg/core/ProxyArray.h:37 | `it++` as intended advances the iterator and returns the position it was called on |
| `ProxyArrays.StrideIterator.NotEquals` | include/vsg/core/ProxyArray.h:38-39 | `!=` is the negation of `==`; both compare positions only, never strides |
| `ProxyArrays.StrideIterator.Referent` | include/vsg/core/ProxyArray.h:41-42 | `*it` is the `valueSize` bytes starting at the iterator's position |
| `ProxyArrays.AdvancedPosition` | include/vsg/core/ProxyArray.h:36 | `k` applications of `++it` move the position exactly `k * stride` bytes and keep the stride |
| `ProxyArrays.PostIncrementReturnsAdvanced` | include/vsg/core/ProxyArray.h:37 | with a positive stride, `it++` as written returns the advanced position, not the one it was called on |
| `ProxyArrays.ProxyArray.Empty` | include/vsg/core/ProxyArray.h:59-62 | `ProxyArray()`: size 0, stride 0, null pointer, no storage |
| `ProxyArrays.ProxyArray.constructor` | include/vsg/core/ProxyArray.h:64-67 | the five-argument constructor leaves the same state `assign` does |
| `ProxyArrays.ProxyArray.Read` | include/vsg/core/ProxyArray.h:83-95 | `read` restores size, stride and storage from the record and sets the pointer to storage bytes plus offset, or null when the storage has none; the size read is kept in that case |
| `ProxyArrays.ProxyArray.Write` | include/vsg/core/ProxyArray.h:97-107 | `write` emits Size, Stride, Offset, Storage; the offset resolved against the same storage gives back the current pointer, and it is 0 without storage bytes, so reading the record back restores the view |
| `ProxyArrays.ProxyArray.Size` | include/vsg/core/ProxyArray.h:109 | `size() == _size` when `layout.maxNumMipmaps <= 1`; otherwise it is the mip-aware count |
| `ProxyArrays.ProxyArray.IsEmpty` | include/vsg/core/ProxyArray.h:111 | `empty()` tests `_size`, that is `width() == 0`, and not `size()` |
| `ProxyArrays.ProxyArray.Clear` | include/vsg/core/ProxyArray.h:114-119 | `clear()` sets size 0 and a null pointer and keeps storage, stride and layout |
| `ProxyArrays.ProxyArray.Assign` | include/vsg/core/ProxyArray.h:121-136 | with storage bytes: pointer = bytes + offset and size = count; otherwise the empty view (null pointer, size 0); stride, layout and storage are always recorded, and `write` then emits the offset given (0 when the view is empty) |
| `ProxyArrays.ProxyArray.DataRelease` | include/vsg/core/ProxyArray.h:138-145 | `dataRelease()` returns null, drops the storage and leaves size 0 and a null pointer; no bytes are freed |
| `ProxyArrays.ProxyArray.ValueCount` | include/vsg/core/ProxyArray.h:148 | `valueCount() == size()` |
| `ProxyArrays.ProxyArray.DataSize` | include/vsg/core/ProxyArray.h:150 | `dataSize()` is the value count times the stride, not times `valueSize` |
| `ProxyArrays.ProxyArray.DataPointer` | include/vsg/core/ProxyArray.h:152-153 | `dataPointer()` (and `data()`, lines 164-165) is `_data`, the same pointer as `dataPointer(0)` |
| `ProxyArrays.ProxyArray.DataPointerAt` | include/vsg/core/ProxyArray.h:155-156 | `dataPointer(i)` is `i * stride` bytes past `data` in the same allocation |
| `ProxyArrays.ProxyArray.Width` | include/vsg/core/ProxyArray.h:160 | `width()` is `_size`, equal to `size()` without mip levels |
| `ProxyArrays.ProxyArray.At` | include/vsg/core/ProxyArray.h:167-171 | `at(i)`/`operator[](i)` reads exactly the `valueSize` bytes at `data + i*stride` |
| `ProxyArrays.ProxyArray.Set` | include/vsg/core/ProxyArray.h:173 | `set(i, v)` stores `v` at `dataPointer(i)`: the storage bytes become `Overwrite` of the old bytes there, and `at(i) == v` afterwards |
| `ProxyArrays.ProxyArray.Begin` | include/vsg/core/ProxyArray.h:175-176 | `begin()` is an iterator at `dataPointer()` with the view's stride |
| `ProxyArrays.ProxyArray.End` | include/vsg/core/ProxyArray.h:178-179 | `end()` as written: the view's stride, positioned `(_size * _stride) mod 2^32` bytes past `_data`, because the product is taken in `uint32_t` |
| `ProxyArrays.ProxyArray.IntendedEnd` | include/vsg/core/ProxyArray.h:178-179 | `end()` as intended, the corrected half of the first finding: an iterator at `dataPointer(_size)`, `_size * _stride` bytes past `_data`, with the view's stride |
| `ProxyArrays.ProxyArray.EndsAgreeWithoutWrap` | include/vsg/core/ProxyArray.h:178-179 | when `_size * _stride < 2^32`, `end()` as written equals the intended end |
| `ProxyArrays.ProxyArray.EndWrapsAround` | include/vsg/core/ProxyArray.h:178-179 | with 65536 elements of stride 65536, `end()` as written equals `begin()`, and 65536 increments do not reach it |
| `ProxyArrays.ProxyArray.IterationReachesIntendedEnd` | include/vsg/core/ProxyArray.h:175-179 | with a positive stride, `k` increments from `begin()` point at `dataPointer(k)`, so `*it` is `at(k)`; they reach the intended end exactly when `k == _size` |
| `ArrayMappings.FirstMatchFound` | include/vsg/state/ArrayMapping.h:36-38 | a hit `(true, loc)` has `start <= loc < size`, `classifications[loc] == name`, and no earlier match at or after `start` |
| `ArrayMappings.FirstMatchMissing` | include/vsg/state/ArrayMapping.h:36-40 | a miss reports `(false, size)`, and no position at or after `start` matches |
| `ArrayMappings.FirstMatchFindsAny` | include/vsg/state/ArrayMapping.h:36-38 | any match at or after `start` is found, at that position or earlier |
| `ArrayMappings.NextOccurrence` | include/vsg/state/ArrayMapping.h:34-41 | after a hit at `loc`, searching from `loc + 1` gives the next occurrence strictly after `loc` with none in between, or a miss with none after `loc` |
| `ArrayMappings.ExampleLookups` | include/vsg/state/ArrayMapping.h:34-41 | on `["vertex","normal","vertex","texcoord"]`: `vertex` from 0 is `(true,0)`, `vertex` from 1 is `(true,2)`, `color` is `(false,4)` |
| `ArrayMappings.ArrayMapping.constructor` | include/vsg/state/ArrayMapping.h:23 | a new mapping has no classifications |
| `ArrayMappings.ArrayMapping.Index` | include/vsg/state/ArrayMapping.h:34-41 | `index(name, s)` is the reference first match: a hit is the first location at or after `s` that holds `name`; a miss is `(false, size)` with no match from `s` on, including whenever `s >= size`; a const member with no `modifies`, so the list is left unchanged |
| `ArrayMappings.ArrayMapping.NormalConstantIsMisspelt` | include/vsg/state/ArrayMapping.h:27 | the `normal` constant is `"nomal"`, so looking it up misses `"normal"` entries and matches `"nomal"` ones |

## Findings

| source | as written | input that shows it | evidently intended | confidence | as-written member | corrected member |
|---|---|---|---|---|---|---|
| include/vsg/core/ProxyArray.h:178-179 | `end()` adds `_size * _stride`, a product of two `uint32_t` that wraps modulo 2^32 | `_size == 65536`, `_stride == 65536`: `end() == begin()`, so a range loop visits no element | `end()` lies `_size * _stride` bytes past `begin()` | not executed; the wrap follows from C++ unsigned arithmetic | `ProxyArrays.ProxyArray.EndWrapsAround` | `ProxyArrays.ProxyArray.IterationReachesIntendedEnd` |
| include/vsg/core/ProxyArray.h:37 | `operator++(int)` saves a copy `reval`, advances, then returns `*this` | any iterator with `stride > 0`: the result is the advanced position | return the saved copy, the position before the increment | not executed; read from the code | `ProxyArrays.PostIncrementReturnsAdvanced` | `ProxyArrays.StrideIterator.IntendedPostIncremented` |

## Left out

- The copy constructor `Array(const Array&)` (include/vsg/core/Array.h:24) is not modelled. It names the member function `rhs.data`, leaves `_size` uninitialised and would alias ownership.
- Freeing memory is not modelled. That covers `delete[]` in `clear`, `assign`, `resize` and the destructors, reference counting of `ref_ptr`, and use after release. An operation that frees the old buffer simply stops referring to it.
- ProxyArrays.ProxyArray.Clear: models only the field resets. The source's `delete[]` of bytes owned by the storage (include/vsg/core/ProxyArray.h:117) is a bug and is left out. `Clear` keeps the storage reference, so its result satisfies `Valid()` only when the storage has no bytes.
- ProxyArrays.ProxyArray.Read: states nothing about the layout or the other `Data` fields that `Data::read` restores. `Data::read`/`Data::write` and the `Input`/`Output` streams are external. The stream is the four-field `ProxyRecord`. The record carries the storage object itself, which stands for the identity that `readObject`/`writeObject` preserve.
- The mip-aware count `computeValueCountIncludingMipmaps` and `Layout` come from Data.h, which is not part of this model. The count is a function passed to the `ProxyArray` constructors. `Layout` keeps only `maxNumMipmaps`. The default `Layout()` is also defined in Data.h, so `ProxyArray()` takes the layout it starts with as a parameter. A default-constructed view's `size()` is therefore fixed only once that layout is given.
- `sizeof(T)` is a constructor parameter (`valueSize`), because Dafny cannot compute it for a type parameter. The byte-to-`T` casts are left out. An element of a view is its `valueSize` bytes, and no arithmetic on element values occurs.
- The truncation of the pointer difference to `uint32_t` in `write` (include/vsg/core/ProxyArray.h:100) is excluded by `Valid()`. Offsets enter only as `uint32` through `assign` and `read`, so they stay below 2^32.
- ProxyArrays.ProxyArray.Write: requires `Valid()`. This excludes stale views whose storage's bytes changed after `assign` or `read`, for instance because the backing `Array` was resized. In that state `write` (include/vsg/core/ProxyArray.h:100) subtracts pointers into unrelated allocations, which is undefined behaviour. Keeping views fresh is the caller's obligation, and the model does not describe such views.
- A storage's `dataPointer()` is always the start of an allocation, because `Storage.bytes` is a whole array. A `Data` whose `dataPointer()` points inside an allocation is not represented. One example is a `ProxyArray` serving as another view's storage, whose `_data` is its base plus an offset. The relative-offset arithmetic at include/vsg/core/ProxyArray.h:93, 100 and 128 would behave the same for such a storage.
- Indexed access is unchecked in the source, so these are preconditions rather than error results: `i < size()` for `Array`, and the element lying inside the allocation for `ProxyArray`. The source never checks `offset + size*stride` against the storage length, and neither does the model.
- `Array::assign` and the adopting constructor require that a non-null buffer holds at least the stated count and that a null one comes with count 0. This is the source's implicit demand on callers.
- ArrayMappings.ArrayMapping.Index: requires fewer than 2^32 classifications. With 2^32 or more, the `uint32_t` location wraps to 0 and the scan continues from the start. It then stops at the first match it meets, which may lie before `start_location`. When no entry matches, the loop never exits. That is a side-effect-free endless loop, which is undefined behaviour in C++. The miss return (include/vsg/state/ArrayMapping.h:40), with its narrowing of `size()` to `uint32_t`, is then unreachable.
- `ArrayMapping::read`/`write` (include/vsg/state/ArrayMapping.h:43-44) are serialization plumbing defined outside the header, in the library's ArrayMapping.cpp, and are not modelled. The constructor is defined there too. The model starts from an empty `classifications`, as a default-constructed `std::vector` is.
- The const overloads, `operator->` (the same pointer as `operator*`), `accept` and Visitor hooks, `className`, `sizeofObject`, `dimensions`/`height`/`depth`, `create`, the `VSG_ProxyArray` macro and the type aliases are not modelled.
- The concrete element types (float, double, vecN, matN) are left out: the element type stays generic.
