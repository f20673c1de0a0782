/**
 * `vsg::Array<T>`: an owning, contiguous buffer of `size` elements of `T`.
 *
 * The owning pointer `_data` is a nullable Dafny array; `new T[n]` yields a
 * fresh array of exactly `n` elements (non-null even for `n == 0`, as in C++).
 * Freeing a buffer is not modelled: an operation that would `delete[]` the
 * old buffer simply stops referring to it.
 */
module Arrays {
  import opened CoreTypes

  /** A `T*`: the allocation it points into (null for a null pointer) and an element index. */
  datatype ElementPtr<T> = ElementPtr(block: array?<T>, index: nat) {
    /** `++p` on a raw element pointer. */
    function Next(): ElementPtr<T> {
      ElementPtr(block, index + 1)
    }
  }

  /** `p` after `k` applications of `++`. */
  function Advance<T>(p: ElementPtr<T>, k: nat): ElementPtr<T>
    decreases k
  {
    if k == 0 then p else Advance(p.Next(), k - 1)
  }

  /** Advancing a pointer `k` times moves it `k` elements within the same allocation. */
  lemma {:induction false} AdvanceMovesIndex<T>(p: ElementPtr<T>, k: nat)
    ensures Advance(p, k) == ElementPtr(p.block, p.index + k)
    decreases k
  {
    if k > 0 {
      AdvanceMovesIndex(p.Next(), k - 1);
    }
  }

  class Array<T(0)> {
    /** `sizeof(T)`, which Dafny cannot compute for a type parameter. */
    const valueSize: nat
    /** `_size` */
    var size: nat
    /** `_data`, the owning pointer */
    var data: array?<T>

    /** The buffer holds at least `size` elements; a null buffer holds none. */
    ghost predicate Valid()
      reads this
    {
      (data == null ==> size == 0) &&
      (data != null ==> size <= data.Length)
    }

    /** The elements the array holds, in order. */
    ghost function Elements(): (s: seq<T>)
      reads this, data
      requires Valid()
      ensures |s| == size
    {
      if data == null then [] else data[..size]
    }

    /** `Array()` */
    constructor Empty(valueSize: nat)
      ensures Valid() && this.valueSize == valueSize
      ensures size == 0 && data == null && Elements() == []
    {
      this.valueSize := valueSize;
      size := 0;
      data := null;
    }

    /** `Array(numElements)`: a fresh buffer of `numElements` default-initialised elements. */
    constructor OfCount(valueSize: nat, numElements: nat)
      ensures Valid() && this.valueSize == valueSize
      ensures data != null && fresh(data) && data.Length == numElements
      ensures Size() == numElements && ValueCount() == numElements
      ensures DataSize() == numElements * valueSize
    {
      this.valueSize := valueSize;
      size := numElements;
      data := new T[numElements];
    }

    /** `Array(numElements, data)`: adopts a buffer allocated by the caller. */
    constructor Adopt(valueSize: nat, numElements: nat, buffer: array?<T>)
      requires buffer == null ==> numElements == 0
      requires buffer != null ==> numElements <= buffer.Length
      ensures Valid() && this.valueSize == valueSize
      ensures size == numElements && data == buffer
    {
      this.valueSize := valueSize;
      size := numElements;
      data := buffer;
    }

    /** `Array(std::initializer_list<T> l)`: a fresh buffer holding a copy of `l`. */
    constructor FromList(valueSize: nat, l: seq<T>)
      ensures Valid() && this.valueSize == valueSize
      ensures data != null && fresh(data)
      ensures size == |l| && Elements() == l
    {
      var buffer := new T[|l|];
      for i := 0 to |l|
        invariant forall j :: 0 <= j < i ==> buffer[j] == l[j]
      {
        buffer[i] := l[i];
      }
      this.valueSize := valueSize;
      size := |l|;
      data := buffer;
    }

    /** `size()` */
    function Size(): (n: nat)
      reads this, data
      requires Valid()
      ensures n == |Elements()|
    {
      size
    }

    /** `empty()` */
    predicate IsEmpty()
      reads this, data
      requires Valid()
      ensures IsEmpty() <==> Elements() == []
    {
      size == 0
    }

    /** `valueCount()` */
    function ValueCount(): (n: nat)
      reads this, data
      requires Valid()
      ensures n == |Elements()|
    {
      size
    }

    /** `dataSize()`: bytes spanned by the elements. */
    function DataSize(): (n: nat)
      reads this, data
      requires Valid()
      ensures n == |Elements()| * valueSize
    {
      size * valueSize
    }

    /** `data()` and `dataPointer()` */
    function Data(): (p: array?<T>)
      reads this
      requires Valid()
      ensures p == null ==> Size() == 0
    {
      data
    }

    /** `at(i)` and `operator[](i)`: unchecked, so the caller keeps `i` in range. */
    function At(i: nat): (v: T)
      reads this, data
      requires Valid() && i < size
      ensures v == Elements()[i]
    {
      data[i]
    }

    /** `set(i, v)` */
    method Set(i: nat, v: T)
      requires Valid() && i < size
      modifies data
      ensures Valid()
      ensures Elements() == old(Elements())[i := v]
    {
      data[i] := v;
    }

    /** `clear()`: drops the buffer. */
    method Clear()
      modifies this
      ensures Valid() && size == 0 && data == null
      ensures IsEmpty() && Elements() == []
    {
      size := 0;
      data := null;
    }

    /** `assign(numElements, data)`: takes ownership of the caller's buffer, whatever the prior state. */
    method Assign(numElements: nat, buffer: array?<T>)
      requires buffer == null ==> numElements == 0
      requires buffer != null ==> numElements <= buffer.Length
      modifies this
      ensures Valid() && size == numElements && data == buffer
    {
      size := numElements;
      data := buffer;
    }

    /**
     * `resize(newSize)`: a fresh buffer (null for zero elements) that keeps the
     * first min(old size, newSize) elements; the others are default-initialised.
     */
    method Resize(newSize: nat)
      requires Valid()
      modifies this
      ensures Valid() && size == newSize
      ensures newSize == 0 ==> data == null
      ensures newSize > 0 ==> data != null && fresh(data) && data.Length == newSize
      ensures Elements()[..Min(old(size), newSize)] == old(Elements())[..Min(old(size), newSize)]
    {
      if data != null {
        var original := data;
        var sizeToCopy := Min(size, newSize);
        var buffer: array?<T> := null;
        if newSize > 0 {
          buffer := new T[newSize];
        }
        for i := 0 to sizeToCopy
          invariant buffer != null ==> fresh(buffer) && buffer.Length == newSize
          invariant sizeToCopy > 0 ==> buffer != null
          invariant forall j :: 0 <= j < i ==> buffer[j] == original[j]
        {
          buffer[i] := original[i];
        }
        size := newSize;
        data := buffer;
      } else {
        size := newSize;
        if newSize > 0 {
          data := new T[newSize];
        } else {
          data := null;
        }
      }
    }

    /** `dataRelease()`: hands the buffer to the caller and resets to the empty state. */
    method DataRelease() returns (released: array?<T>)
      modifies this
      ensures released == old(data)
      ensures Valid() && size == 0 && data == null
    {
      released := data;
      data := null;
      size := 0;
    }

    /** `begin()` */
    function Begin(): (p: ElementPtr<T>)
      reads this
      ensures p.block == data && p.index == 0
    {
      ElementPtr(data, 0)
    }

    /** `end()` */
    function End(): (p: ElementPtr<T>)
      reads this
      ensures p.block == Begin().block && p.index == Begin().index + size
    {
      ElementPtr(data, size)
    }

    /**
     * Iteration from `begin()` to `end()`: the two are `size` elements apart,
     * `k` steps reach `end()` exactly when `k == size`, and step `k` before
     * that points at element `k`.
     */
    lemma IterationVisitsElements(k: nat)
      requires Valid()
      ensures End().index - Begin().index == Size()
      ensures Advance(Begin(), k) == End() <==> k == Size()
      ensures k < Size() ==> Advance(Begin(), k) == ElementPtr(data, k) && data != null && data[k] == Elements()[k]
    {
      AdvanceMovesIndex(Begin(), k);
    }
  }
}
