/** The ObjexxFCL Chunk unit tests as clients of class Chunk. Each method runs
    one test (or one block of a test) and returns what the test compares; its
    postcondition is the test's expectation, proved from the contracts of
    class Chunk alone. */
module ChunkTests {
  import opened ChunkSpec
  import opened Chunks

  predicate AllPass(checks: seq<bool>)
  {
    forall k :: 0 <= k < |checks| ==> checks[k]
  }

  /** Default construction: an empty chunk equals its copy; both have size 0. */
  method DefaultConstruction() returns (checks: seq<bool>, vSize: nat, wSize: nat)
    ensures |checks| == 2 && AllPass(checks)
    ensures vSize == 0 && wSize == 0
  {
    var v := new Chunk();
    var w := new Chunk.CopyOf(v);
    var vw := v.Equals(w);
    var wv := w.Equals(v);
    checks, vSize, wSize := [vw, wv], v.size, w.size;
  }

  /** Copy construction and copy assignment give equal chunks. */
  method CopyConstructionAndAssignment() returns (checks: seq<bool>)
    ensures |checks| == 4 && AllPass(checks)
  {
    var v := new Chunk.Filled(10, 22);
    var w := new Chunk.CopyOf(v);
    var c0 := v.Equals(w);
    var c1 := w.Equals(v);
    w.AddScalar(1);
    v.AssignFrom(w);
    var c2 := v.Equals(w);
    var c3 := w.Equals(v);
    checks := [c0, c1, c2, c3];
  }

  /** Converting construction and assignment: every element is the converted
      source element (the tests use int to float). */
  method ConvertingConstructionAndAssignment(conv: int -> int) returns (checks: seq<bool>)
    ensures |checks| == 3 && AllPass(checks)
  {
    var v := new Chunk.Filled(10, 22);
    var f := new Chunk.ConvertedFrom(v, conv);
    var expect0 := new Chunk.Filled(10, conv(22));
    ConvertedFill(10, 22, conv);
    var c0 := expect0.Equals(f);
    v.AddScalar(1);
    EachOfFill(10, 22, Add, 1);
    var expect1 := new Chunk.Filled(10, 23);
    var c1 := expect1.Equals(v);
    f.AssignConverted(v, conv);
    ConvertedFill(10, 23, conv);
    var expect2 := new Chunk.Filled(10, conv(23));
    var c2 := expect2.Equals(f);
    checks := [c0, c1, c2];
  }

  /** Size + value construction, then `v[i] = i` and reading it back. */
  method SizeValueConstructionAndSubscripting() returns (vSize: nat, allRead: bool)
    ensures vSize == 10 && allRead
  {
    var v := new Chunk.Filled(10, 2);
    vSize := v.size;
    allRead := true;
    var i := 0;
    while i < v.size
      invariant v.Valid() && v.size == 10 && i <= v.size
      invariant allRead
      modifies v.data
    {
      v.Set(i, i);
      var r := v.Get(i);
      allRead := allRead && r == i;
      i := i + 1;
    }
  }

  /** EXPECT_EQ(Chunk_int(n, x), v): build the expected chunk and compare. */
  method ExpectFilled(n: nat, x: int, v: Chunk) returns (eq: bool)
    requires v.Valid()
    ensures eq <==> v.Contents() == Fill(n, x)
  {
    var expected := new Chunk.Filled(n, x);
    eq := expected.Equals(v);
  }

  /** Assignment test, first part: the scalar operators on Chunk(10, 22). */
  method ScalarAssignment() returns (checks: seq<bool>)
    ensures |checks| == 4 && AllPass(checks)
  {
    var v := new Chunk.Filled(10, 22);
    v.AddScalar(2);
    EachOfFill(10, 22, Add, 2);
    assert v.Contents() == Fill(10, 24);
    var c0 := ExpectFilled(10, 24, v);
    v.SubScalar(2);
    EachOfFill(10, 24, Sub, 2);
    assert v.Contents() == Fill(10, 22);
    var c1 := ExpectFilled(10, 22, v);
    v.MulScalar(2);
    EachOfFill(10, 22, Mul, 2);
    assert v.Contents() == Fill(10, 44);
    var c2 := ExpectFilled(10, 44, v);
    v.DivScalar(2);
    EachOfFill(10, 44, Div, 2);
    assert v.Contents() == Fill(10, 22);
    var c3 := ExpectFilled(10, 22, v);
    checks := [c0, c1, c2, c3];
  }

  /** Assignment test, second part: assign, element-wise operators (with the
      chunk itself and with another chunk) and broadcast. It starts from
      Chunk(10, 22), the state the first part ends in. */
  method ChunkAssignment() returns (checks: seq<bool>)
    ensures |checks| == 5 && AllPass(checks)
  {
    var v := new Chunk.Filled(10, 22);
    v.Assign(20, 33);
    var c0 := ExpectFilled(20, 33, v);
    v.AddChunk(v);
    AddSelfDoubles(Fill(20, 33));
    EachOfFill(20, 33, Mul, 2);
    assert v.Contents() == Fill(20, 66);
    var c1 := ExpectFilled(20, 66, v);
    v.SubChunk(v);
    SubSelfZeroes(Fill(20, 66));
    assert v.Contents() == Fill(20, 0);
    var c2 := ExpectFilled(20, 0, v);
    v.Broadcast(55);
    var c3 := ExpectFilled(20, 55, v);
    var w := new Chunk.Filled(20, 33);
    v.AddChunk(w);
    PairwiseOfFills(20, 55, Add, 33);
    assert v.Contents() == Fill(20, 88);
    var c4 := ExpectFilled(20, 88, v);
    checks := [c0, c1, c2, c3, c4];
  }

  /** `v[3] = 33` then `v[3]` reads 33. */
  method Subscripting() returns (x: int)
    ensures x == 33
  {
    var v := new Chunk.Filled(10, 22);
    v.Set(3, 33);
    x := v.Get(3);
  }

  /** Member swap, then member swap back: a = Chunk(10, 22), b = Chunk(8, 33)
      trade their contents and trade them back. */
  method MemberSwapTwice() returns (checks: seq<bool>)
    ensures |checks| == 4 && AllPass(checks)
  {
    var a := new Chunk.Filled(10, 22);
    var a0 := new Chunk.CopyOf(a);
    var b := new Chunk.Filled(8, 33);
    var b0 := new Chunk.CopyOf(b);
    a.Swap(b);
    var c0 := b0.Equals(a);
    var c1 := a0.Equals(b);
    b.Swap(a);
    var c2 := a0.Equals(a);
    var c3 := b0.Equals(b);
    checks := [c0, c1, c2, c3];
  }

  /** The free function swap, applied twice, on the same two chunks as
      MemberSwapTwice (which the test has restored to their originals). */
  method FreeSwapTwice() returns (checks: seq<bool>)
    ensures |checks| == 4 && AllPass(checks)
  {
    var a := new Chunk.Filled(10, 22);
    var a0 := new Chunk.CopyOf(a);
    var b := new Chunk.Filled(8, 33);
    var b0 := new Chunk.CopyOf(b);
    Swap(a, b);
    var c0 := b0.Equals(a);
    var c1 := a0.Equals(b);
    Swap(a, b);
    var c2 := a0.Equals(a);
    var c3 := b0.Equals(b);
    checks := [c0, c1, c2, c3];
  }

  /** Write `v[i] = i` over an unfilled chunk of 10; front is 0, back is 9. */
  method FrontBack() returns (allRead: bool, front: int, back: int)
    ensures allRead && front == 0 && back == 9
  {
    var v := new Chunk.Sized(10);
    allRead := true;
    var i := 0;
    while i < 10
      invariant v.Valid() && v.size == 10 && i <= 10
      invariant forall k :: 0 <= k < i ==> v.Contents()[k] == k
      invariant allRead
      modifies v.data
    {
      v.Set(i, i);
      var r := v.Get(i);
      allRead := allRead && r == i;
      i := i + 1;
    }
    front := v.Front();
    back := v.Back();
  }

  /** resize(20) of Chunk(10, 22): size 20, the first 10 elements still 22. */
  method Resize() returns (vSize: nat, kept: bool)
    ensures vSize == 20 && kept
  {
    var v := new Chunk.Filled(10, 22);
    v.Resize(20);
    vSize := v.size;
    kept := true;
    var i := 0;
    while i < 10
      invariant v.Valid() && v.size == 20 && i <= 10
      invariant forall k :: 0 <= k < 10 ==> v.Contents()[k] == 22
      invariant kept
    {
      var r := v.Get(i);
      kept := kept && r == 22;
      i := i + 1;
    }
  }

  /** resize(20, 33) of Chunk(10, 22): 22 in [0, 10), 33 in [10, 20). */
  method ResizeFill() returns (vSize: nat, kept: bool, filled: bool)
    ensures vSize == 20 && kept && filled
  {
    var v := new Chunk.Filled(10, 22);
    v.ResizeFill(20, 33);
    ResizedElements(Fill(10, 22), 20, 33);
    vSize := v.size;
    kept, filled := true, true;
    var i := 0;
    while i < 10
      invariant v.Valid() && v.size == 20 && i <= 10
      invariant v.Contents() == Resized(Fill(10, 22), 20, 33)
      invariant kept
    {
      var r := v.Get(i);
      kept := kept && r == 22;
      i := i + 1;
    }
    while i < 20
      invariant v.Valid() && v.size == 20 && 10 <= i <= 20
      invariant v.Contents() == Resized(Fill(10, 22), 20, 33)
      invariant filled
    {
      var r := v.Get(i);
      filled := filled && r == 33;
      i := i + 1;
    }
  }

  /** non_preserving_resize(20) of Chunk(10, 22): size and capacity both 20. */
  method NonPreservingResize() returns (vSize: nat, vCapacity: nat)
    ensures vSize == 20 && vCapacity == 20
  {
    var v := new Chunk.Filled(10, 22);
    v.NonPreservingResize(20);
    vSize, vCapacity := v.size, v.capacity;
  }

  /** non_preserving_resize(20, 33): size and capacity 20, every element 33. */
  method NonPreservingResizeFill() returns (vSize: nat, vCapacity: nat, filled: bool)
    ensures vSize == 20 && vCapacity == 20 && filled
  {
    var v := new Chunk.Filled(10, 22);
    v.NonPreservingResizeFill(20, 33);
    vSize, vCapacity := v.size, v.capacity;
    filled := true;
    var i := 0;
    while i < 20
      invariant v.Valid() && v.size == 20 && i <= 20
      invariant v.Contents() == Fill(20, 33)
      invariant filled
    {
      var r := v.Get(i);
      filled := filled && r == 33;
      i := i + 1;
    }
  }

  /** Chunk(10, 22), reserve(12), three push_backs, two pop_backs, shrink:
      the observed (size, capacity) pairs, in order. */
  method ReservePushPopShrink() returns (sizes: seq<nat>, capacities: seq<nat>, kept: bool)
    ensures sizes == [10, 10, 11, 12, 13, 12, 11, 11]
    ensures capacities == [10, 12, 12, 12, 24, 24, 24, 11]
    ensures kept
  {
    var v := new Chunk.Filled(10, 22);
    sizes, capacities := [v.size], [v.capacity];
    v.Reserve(12);
    sizes, capacities := sizes + [v.size], capacities + [v.capacity];
    kept := true;
    var i := 0;
    while i < 10
      invariant v.Valid() && v.size == 10 && v.capacity == 12 && i <= 10
      invariant fresh(v.data)
      invariant v.Contents() == Fill(10, 22)
      invariant kept
    {
      var r := v.Get(i);
      kept := kept && r == 22;
      i := i + 1;
    }
    v.PushBack(33);
    sizes, capacities := sizes + [v.size], capacities + [v.capacity];
    v.PushBack(44);
    sizes, capacities := sizes + [v.size], capacities + [v.capacity];
    v.PushBack(55);
    sizes, capacities := sizes + [v.size], capacities + [v.capacity];
    v.PopBack();
    sizes, capacities := sizes + [v.size], capacities + [v.capacity];
    v.PopBack();
    sizes, capacities := sizes + [v.size], capacities + [v.capacity];
    v.Shrink();
    sizes, capacities := sizes + [v.size], capacities + [v.capacity];
  }
}
