/** ObjexxFCL::Chunk<int>: a contiguous, resizable buffer whose logical size is
    tracked separately from its allocated capacity. The storage is an array of
    exactly `capacity` slots; the elements are its first `size` slots and the
    rest hold unspecified values. */
module Chunks {
  import opened ChunkSpec

  class Chunk {
    var data: array<int>
    var size: nat
    var capacity: nat

    /** Object invariant: size <= capacity, and the storage has capacity slots. */
    ghost predicate Valid()
      reads this
    {
      size <= capacity && data.Length == capacity
    }

    /** The elements [0, size) */
    ghost function Contents(): seq<int>
      reads this, data
      requires Valid()
    {
      data[..size]
    }

    // -------------------------------------------------------------------
    // Construction

    /** Default constructor: empty, nothing allocated. */
    constructor ()
      ensures Valid() && fresh(data)
      ensures size == 0 && capacity == 0 && Contents() == []
    {
      data := new int[0];
      size, capacity := 0, 0;
    }

    /** Chunk(n): n elements whose values are unspecified. */
    constructor Sized(n: nat)
      ensures Valid() && fresh(data)
      ensures size == n && capacity == n
    {
      data := new int[n];
      size, capacity := n, n;
    }

    /** Chunk(n, x): n elements, every one equal to x. */
    constructor Filled(n: nat, x: int)
      ensures Valid() && fresh(data)
      ensures capacity == n && Contents() == Fill(n, x)
    {
      var a := new int[n];
      FillRange(a, 0, n, x);
      data, size, capacity := a, n, n;
    }

    /** Copy constructor: a fresh allocation of exactly src.size slots holding
        src's elements. */
    constructor CopyOf(src: Chunk)
      requires src.Valid()
      ensures Valid() && fresh(data)
      ensures capacity == src.size && Contents() == src.Contents()
    {
      var a := new int[src.size];
      CopyPrefix(src.data, a, src.size);
      data, size, capacity := a, src.size, src.size;
    }

    /** Converting copy constructor (Chunk<U> from Chunk<int>): each element
        is the converted source element. */
    constructor ConvertedFrom(src: Chunk, conv: int -> int)
      requires src.Valid()
      ensures Valid() && fresh(data)
      ensures capacity == src.size && Contents() == Converted(src.Contents(), conv)
    {
      var a := new int[src.size];
      ConvertPrefix(src.data, a, src.size, conv);
      data, size, capacity := a, src.size, src.size;
    }

    // -------------------------------------------------------------------
    // Assignment

    /** Copy assignment `this = src`. */
    method AssignFrom(src: Chunk)
      requires Valid() && src.Valid()
      modifies this, data
      ensures Valid() && Contents() == old(src.Contents())
      ensures data == old(data) || fresh(data)
    {
      if src != this {
        var n := src.size;
        if n > capacity {
          var a := new int[n];
          CopyPrefix(src.data, a, n);
          data, capacity := a, n;
        } else {
          CopyPrefix(src.data, data, n);
        }
        size := n;
      }
    }

    /** Converting assignment `this = src` from a chunk of another element type. */
    method AssignConverted(src: Chunk, conv: int -> int)
      requires Valid() && src.Valid()
      modifies this, data
      ensures Valid() && Contents() == Converted(old(src.Contents()), conv)
      ensures data == old(data) || fresh(data)
    {
      var n := src.size;
      if n > capacity {
        var a := new int[n];
        ConvertPrefix(src.data, a, n, conv);
        data, capacity := a, n;
      } else {
        ConvertPrefix(src.data, data, n, conv);
      }
      size := n;
    }

    /** assign(n, x): exactly n elements, every one equal to x. Whether the old
        allocation is reused when it is large enough is left open. */
    method Assign(n: nat, x: int)
      requires Valid()
      modifies this, data
      ensures Valid() && Contents() == Fill(n, x)
      ensures data == old(data) || fresh(data)
    {
      if n > capacity {
        data := new int[n];
        capacity := n;
      }
      FillRange(data, 0, n, x);
      size := n;
    }

    /** Broadcast `this = x`: every current element becomes x; size and
        capacity do not change. */
    method Broadcast(x: int)
      requires Valid()
      modifies data
      ensures Valid() && Contents() == Fill(size, x)
    {
      FillRange(data, 0, size, x);
    }

    // -------------------------------------------------------------------
    // Arithmetic assignment

    /** `this op= x` element-wise over [0, size). */
    method ApplyScalar(op: ArithOp, x: int)
      requires Valid() && (op == Div ==> x != 0)
      modifies data
      ensures Valid() && Contents() == Each(old(Contents()), op, x)
    {
      var i := 0;
      while i < size
        invariant i <= size
        invariant forall k :: 0 <= k < size ==>
          data[k] == if k < i then Combine(op, old(data[k]), x) else old(data[k])
      {
        data[i] := Combine(op, data[i], x);
        i := i + 1;
      }
    }

    /** `this += x` */
    method AddScalar(x: int)
      requires Valid()
      modifies data
      ensures Valid() && Contents() == Each(old(Contents()), Add, x)
    {
      ApplyScalar(Add, x);
    }

    /** `this -= x` */
    method SubScalar(x: int)
      requires Valid()
      modifies data
      ensures Valid() && Contents() == Each(old(Contents()), Sub, x)
    {
      ApplyScalar(Sub, x);
    }

    /** `this *= x` */
    method MulScalar(x: int)
      requires Valid()
      modifies data
      ensures Valid() && Contents() == Each(old(Contents()), Mul, x)
    {
      ApplyScalar(Mul, x);
    }

    /** `this /= x`, C++ integer division (truncating toward zero). */
    method DivScalar(x: int)
      requires Valid() && x != 0
      modifies data
      ensures Valid() && Contents() == Each(old(Contents()), Div, x)
    {
      ApplyScalar(Div, x);
    }

    /** `this op= other` element-wise, for op one of + and -; other may be this
        chunk itself (`v += v`). */
    method ApplyChunk(op: ArithOp, other: Chunk)
      requires Valid() && other.Valid() && other.size == size
      requires op == Add || op == Sub
      modifies data
      ensures Valid() && Contents() == Pairwise(old(Contents()), op, old(other.Contents()))
    {
      var i := 0;
      while i < size
        invariant i <= size
        invariant forall k :: 0 <= k < size ==>
          data[k] == if k < i then Combine(op, old(data[k]), old(other.data[k])) else old(data[k])
        invariant forall k :: i <= k < other.size ==> other.data[k] == old(other.data[k])
      {
        data[i] := Combine(op, data[i], other.data[i]);
        i := i + 1;
      }
    }

    /** `this += other` */
    method AddChunk(other: Chunk)
      requires Valid() && other.Valid() && other.size == size
      modifies data
      ensures Valid() && Contents() == Pairwise(old(Contents()), Add, old(other.Contents()))
    {
      ApplyChunk(Add, other);
    }

    /** `this -= other` */
    method SubChunk(other: Chunk)
      requires Valid() && other.Valid() && other.size == size
      modifies data
      ensures Valid() && Contents() == Pairwise(old(Contents()), Sub, old(other.Contents()))
    {
      ApplyChunk(Sub, other);
    }

    // -------------------------------------------------------------------
    // Element access and comparison

    /** operator[] read */
    method Get(i: nat) returns (x: int)
      requires Valid() && i < size
      ensures x == Contents()[i]
    {
      x := data[i];
    }

    /** operator[] write */
    method Set(i: nat, x: int)
      requires Valid() && i < size
      modifies data
      ensures Valid() && Contents() == old(Contents())[i := x]
    {
      data[i] := x;
    }

    /** front(): element 0 */
    method Front() returns (x: int)
      requires Valid() && size > 0
      ensures x == Contents()[0]
    {
      x := data[0];
    }

    /** back(): element size - 1 */
    method Back() returns (x: int)
      requires Valid() && size > 0
      ensures x == Contents()[|Contents()| - 1]
    {
      x := data[size - 1];
    }

    /** operator==: equal sizes and equal elements index by index */
    method Equals(other: Chunk) returns (eq: bool)
      requires Valid() && other.Valid()
      ensures eq <==> Contents() == other.Contents()
    {
      if size != other.size {
        return false;
      }
      var i := 0;
      while i < size
        invariant i <= size
        invariant data[..i] == other.data[..i]
      {
        if data[i] != other.data[i] {
          assert Contents()[i] != other.Contents()[i];
          return false;
        }
        i := i + 1;
      }
      assert Contents() == data[..i];
      return true;
    }

    // -------------------------------------------------------------------
    // Capacity management

    /** Allocate exactly newCapacity slots, copy the elements, release the old
        storage. */
    method Reallocate(newCapacity: nat)
      requires Valid() && size <= newCapacity
      modifies this
      ensures Valid() && fresh(data)
      ensures size == old(size) && capacity == newCapacity
      ensures Contents() == old(Contents())
    {
      var a := new int[newCapacity];
      CopyPrefix(data, a, size);
      data, capacity := a, newCapacity;
    }

    /** resize(n): size becomes n; the first min(old size, n) elements keep
        their values and the exposed slots are unspecified. No reallocation
        when n fits the capacity. */
    method Resize(n: nat)
      requires Valid()
      modifies this
      ensures Valid() && size == n && capacity >= n
      ensures n <= old(size) ==> Contents() == old(Contents())[..n]
      ensures n > old(size) ==> Contents()[..old(size)] == old(Contents())
      ensures n <= old(capacity) ==> capacity == old(capacity) && data == old(data)
      ensures n > old(capacity) ==> fresh(data)
    {
      if n > capacity {
        Reallocate(n);
      }
      size := n;
    }

    /** resize(n, fill): as resize(n), with the exposed slots set to fill. */
    method ResizeFill(n: nat, fill: int)
      requires Valid()
      modifies this, data
      ensures Valid() && capacity >= n
      ensures Contents() == Resized(old(Contents()), n, fill)
      ensures n <= old(capacity) ==> capacity == old(capacity) && data == old(data)
      ensures n > old(capacity) ==> fresh(data)
    {
      if n > capacity {
        Reallocate(n);
      }
      ghost var kept := data[..size];
      if n > size {
        FillRange(data, size, n, fill);
        assert data[..n] == kept + Fill(n - |kept|, fill);
      }
      size := n;
    }

    /** non_preserving_resize(n): fresh storage of exactly n slots, all of
        unspecified value, whatever the old capacity was. */
    method NonPreservingResize(n: nat)
      requires Valid()
      modifies this
      ensures Valid() && fresh(data)
      ensures size == n && capacity == n
    {
      data := new int[n];
      size, capacity := n, n;
    }

    /** non_preserving_resize(n, fill): fresh storage of exactly n slots, all
        equal to fill. */
    method NonPreservingResizeFill(n: nat, fill: int)
      requires Valid()
      modifies this
      ensures Valid() && fresh(data)
      ensures capacity == n && Contents() == Fill(n, fill)
    {
      var a := new int[n];
      FillRange(a, 0, n, fill);
      data, size, capacity := a, n, n;
    }

    /** reserve(n): capacity becomes at least n; size and elements are unchanged;
        a no-op when n does not exceed the capacity. */
    method Reserve(n: nat)
      requires Valid()
      modifies this
      ensures Valid() && size == old(size) && Contents() == old(Contents())
      ensures capacity == if n > old(capacity) then n else old(capacity)
      ensures n <= old(capacity) ==> data == old(data)
      ensures n > old(capacity) ==> fresh(data)
    {
      if n > capacity {
        Reallocate(n);
      }
    }

    /** push_back(x): append x; storage grows (doubling) only when it is full. */
    method PushBack(x: int)
      requires Valid()
      modifies this, data
      ensures Valid() && Contents() == old(Contents()) + [x]
      ensures old(size) < old(capacity) ==> capacity == old(capacity) && data == old(data)
      ensures old(size) == old(capacity) > 0 ==> capacity == 2 * old(capacity) && fresh(data)
      ensures old(capacity) == 0 ==> capacity >= 1 && fresh(data)
    {
      if size == capacity {
        Reallocate(GrownCapacity(capacity));
      }
      data[size] := x;
      size := size + 1;
    }

    /** pop_back(): drop the last element; capacity is never reduced. */
    method PopBack()
      requires Valid() && size > 0
      modifies this
      ensures Valid() && Contents() == old(Contents())[..old(size) - 1]
      ensures capacity == old(capacity) && data == old(data)
    {
      size := size - 1;
    }

    /** shrink(): capacity becomes exactly size; elements are unchanged. */
    method Shrink()
      requires Valid()
      modifies this
      ensures Valid() && Contents() == old(Contents())
      ensures capacity == size
      ensures old(capacity) == old(size) ==> data == old(data)
      ensures old(capacity) != old(size) ==> fresh(data)
    {
      if capacity != size {
        Reallocate(size);
      }
    }

    // -------------------------------------------------------------------
    // Swap

    /** swap(other): exchange size, capacity and storage; no element is copied. */
    method Swap(other: Chunk)
      requires Valid() && other.Valid()
      modifies this, other
      ensures Valid() && other.Valid()
      ensures data == old(other.data) && size == old(other.size) && capacity == old(other.capacity)
      ensures other.data == old(data) && other.size == old(size) && other.capacity == old(capacity)
      ensures Contents() == old(other.Contents()) && other.Contents() == old(Contents())
    {
      var d, s, c := data, size, capacity;
      data, size, capacity := other.data, other.size, other.capacity;
      other.data, other.size, other.capacity := d, s, c;
    }
  }

  /** Free function swap(a, b): the same exchange as a.Swap(b). */
  method Swap(a: Chunk, b: Chunk)
    requires a.Valid() && b.Valid()
    modifies a, b
    ensures a.Valid() && b.Valid()
    ensures a.data == old(b.data) && a.size == old(b.size) && a.capacity == old(b.capacity)
    ensures b.data == old(a.data) && b.size == old(a.size) && b.capacity == old(a.capacity)
    ensures a.Contents() == old(b.Contents()) && b.Contents() == old(a.Contents())
  {
    a.Swap(b);
  }

  /** Swapping twice, first with the member and then with the free function,
      restores both chunks exactly: same storage, size, capacity and contents. */
  method SwapTwiceRestores(a: Chunk, b: Chunk)
    requires a.Valid() && b.Valid()
    modifies a, b
    ensures a.Valid() && b.Valid()
    ensures a.data == old(a.data) && a.size == old(a.size) && a.capacity == old(a.capacity)
    ensures b.data == old(b.data) && b.size == old(b.size) && b.capacity == old(b.capacity)
    ensures a.Contents() == old(a.Contents()) && b.Contents() == old(b.Contents())
  {
    a.Swap(b);
    Swap(b, a);
  }

  // ---------------------------------------------------------------------
  // Storage helpers

  /** Set slots [lo, hi) of a to x; every other slot keeps its value. */
  method FillRange(a: array<int>, lo: nat, hi: nat, x: int)
    requires lo <= hi <= a.Length
    modifies a
    ensures forall k :: 0 <= k < a.Length ==> a[k] == if lo <= k < hi then x else old(a[k])
  {
    var i := lo;
    while i < hi
      invariant lo <= i <= hi
      invariant forall k :: 0 <= k < a.Length ==> a[k] == if lo <= k < i then x else old(a[k])
    {
      a[i] := x;
      i := i + 1;
    }
  }

  /** Copy the first n slots of src into dst (src and dst may be one array). */
  method CopyPrefix(src: array<int>, dst: array<int>, n: nat)
    requires n <= src.Length && n <= dst.Length
    modifies dst
    ensures dst[..n] == old(src[..n])
    ensures dst[n..] == old(dst[n..])
  {
    var i := 0;
    while i < n
      invariant i <= n
      invariant forall k :: 0 <= k < dst.Length ==> dst[k] == if k < i then old(src[k]) else old(dst[k])
      invariant forall k :: i <= k < n ==> src[k] == old(src[k])
    {
      dst[i] := src[i];
      i := i + 1;
    }
  }

  /** Store conv of each of the first n slots of src into dst (src and dst may
      be one array). */
  method ConvertPrefix(src: array<int>, dst: array<int>, n: nat, conv: int -> int)
    requires n <= src.Length && n <= dst.Length
    modifies dst
    ensures dst[..n] == Converted(old(src[..n]), conv)
    ensures dst[n..] == old(dst[n..])
  {
    var i := 0;
    while i < n
      invariant i <= n
      invariant forall k :: 0 <= k < dst.Length ==> dst[k] == if k < i then conv(old(src[k])) else old(dst[k])
      invariant forall k :: i <= k < n ==> src[k] == old(src[k])
    {
      dst[i] := conv(src[i]);
      i := i + 1;
    }
  }
}
