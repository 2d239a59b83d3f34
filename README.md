# ObjexxFCL Chunk, modelled in Dafny

`ObjexxFCL::Chunk<T>` is the contiguous, resizable buffer underneath the
ObjexxFCL array classes. It keeps its logical `size` apart from its allocated
`capacity`. It offers preserving and non-preserving resize, `reserve`,
`push_back`, `pop_back` and `shrink`, the compound operators `+= -= *= /=`
(with a scalar, and `+= -=` with another chunk), `assign(n, x)`, broadcast
`= x`, element access and `swap`.

The header `ObjexxFCL/Chunk.hh` is not part of this model. The behaviour
modelled here is the behaviour its unit tests (`src/ObjexxFCL/test/Chunk.unit.cc`)
pin down, completed where the tests are silent by the library's documented
design: exact doubling on a full `push_back`, exact capacity on
`non_preserving_resize`, no reallocation when a resize fits.

The element type is `int`.

- `ChunkSpec.dfy` (module `ChunkSpec`) holds value-level functions on
  `seq<int>`. `Fill` gives n copies of a value. `Each` and `Pairwise` give the
  result of a scalar or element-wise operator. `Converted` is an element-wise
  conversion, and `Resized` is what `resize(n, fill)` leaves. `TruncDiv` is C++
  integer division, which truncates toward zero. The module also holds the
  lemmas that the tests' arithmetic relies on.
- `Chunk.dfy` (module `Chunks`) holds `class Chunk`. Its fields are
  `data: array<int>` (exactly `capacity` slots), `size` and `capacity`. The
  object invariant `Valid()` is `size <= capacity && data.Length == capacity`,
  and the elements are `Contents() == data[..size]`. Every operation updates the
  object in place. Its postcondition gives the new `Contents()` as a `ChunkSpec`
  function of the old contents. It also says what happens to `capacity` and
  whether the storage was reallocated (`fresh(data)`) or kept.
- `ChunkTests.dfy` (module `ChunkTests`) restates each unit test as a client
  method. The method performs the test's calls and returns the values the test
  compares. Its postcondition is the test's expectation, proved from the class
  contracts alone. `EXPECT_EQ` between chunks is `Chunk.Equals`, which models
  `operator==`.

## Model

| member | source | states |
|---|---|---|
| `ChunkSpec.TruncDiv` | src/ObjexxFCL/test/Chunk.unit.cc:112 | the quotient of `/=` is truncated toward zero: its magnitude q satisfies q·abs(b) <= abs(a) < (q+1)·abs(b) and it is negative only when the operand signs differ |
| `ChunkSpec.GrownCapacity` | src/ObjexxFCL/test/Chunk.unit.cc:222-224 | the capacity after growing a full chunk exceeds the old capacity and is exactly twice it when the old capacity is non-zero |
| `ChunkSpec.TruncDivOfProduct` | src/ObjexxFCL/test/Chunk.unit.cc:110-113 | (a·b) / b == a for every nonzero b, under truncating division |
| `ChunkSpec.AddThenSubRestores` | src/ObjexxFCL/test/Chunk.unit.cc:105-109 | `+= x` followed by `-= x` gives back the original contents |
| `ChunkSpec.MulThenDivRestores` | src/ObjexxFCL/test/Chunk.unit.cc:109-113 | `*= x` followed by `/= x` (nonzero x) gives back the original contents, negative elements included |
| `ChunkSpec.EachOfFill` | src/ObjexxFCL/test/Chunk.unit.cc:105-113 | a scalar operator on n copies of a gives n copies of (a op x) |
| `ChunkSpec.AddSelfDoubles` | src/ObjexxFCL/test/Chunk.unit.cc:116-117 | `v += v` equals `v *= 2`: every element doubled |
| `ChunkSpec.SubSelfZeroes` | src/ObjexxFCL/test/Chunk.unit.cc:118-119 | `v -= v` makes every element 0, size unchanged |
| `ChunkSpec.PairwiseOfFills` | src/ObjexxFCL/test/Chunk.unit.cc:122-124 | element-wise `+=`/`-=` of n copies of a and n copies of b gives n copies of a ± b |
| `ChunkSpec.ConvertedFill` | src/ObjexxFCL/test/Chunk.unit.cc:84-90 | converting n copies of a gives n copies of conv(a) |
| `ChunkSpec.ResizedElements` | src/ObjexxFCL/test/Chunk.unit.cc:175-183 | after `resize(n, fill)` there are n elements; indices below the old size keep their values and indices from the old size up to n hold fill |
| `Chunks.Chunk.constructor` | src/ObjexxFCL/test/Chunk.unit.cc:63-69 | default construction: size 0, capacity 0, no elements |
| `Chunks.Chunk.Sized` | src/ObjexxFCL/test/Chunk.unit.cc:154 | `Chunk(n)`: size and capacity n, values unspecified |
| `Chunks.Chunk.Filled` | src/ObjexxFCL/test/Chunk.unit.cc:93-95 | `Chunk(n, x)`: capacity n and exactly n elements, all equal to x |
| `Chunks.Chunk.CopyOf` | src/ObjexxFCL/test/Chunk.unit.cc:72-76 | a copy has fresh storage of capacity src.size and equals its source |
| `Chunks.Chunk.ConvertedFrom` | src/ObjexxFCL/test/Chunk.unit.cc:83-86 | the converting copy has src's size and each element is the converted source element |
| `Chunks.Chunk.AssignFrom` | src/ObjexxFCL/test/Chunk.unit.cc:77-80 | after copy assignment the contents equal the source's contents as they were (self-assignment included) |
| `Chunks.Chunk.AssignConverted` | src/ObjexxFCL/test/Chunk.unit.cc:87-90 | after converting assignment the size is the source's and each element is the converted source element |
| `Chunks.Chunk.Assign` | src/ObjexxFCL/test/Chunk.unit.cc:114-115 | `assign(n, x)`: exactly n elements, all x, capacity at least n |
| `Chunks.Chunk.Broadcast` | src/ObjexxFCL/test/Chunk.unit.cc:120-121 | `= x`: every current element becomes x; size, capacity and storage unchanged |
| `Chunks.Chunk.AddScalar` | src/ObjexxFCL/test/Chunk.unit.cc:106-107 | `+= x` adds x at every index in [0, size), size unchanged |
| `Chunks.Chunk.SubScalar` | src/ObjexxFCL/test/Chunk.unit.cc:108-109 | `-= x` subtracts x at every index in [0, size), size unchanged |
| `Chunks.Chunk.MulScalar` | src/ObjexxFCL/test/Chunk.unit.cc:110-111 | `*= x` multiplies every element by x, size unchanged |
| `Chunks.Chunk.DivScalar` | src/ObjexxFCL/test/Chunk.unit.cc:112-113 | `/= x` (x nonzero) divides every element by x with truncation, size unchanged |
| `Chunks.Chunk.AddChunk` | src/ObjexxFCL/test/Chunk.unit.cc:116-124 | `+= w` for an equal-size w (possibly the chunk itself) adds index by index, using the values before the call |
| `Chunks.Chunk.SubChunk` | src/ObjexxFCL/test/Chunk.unit.cc:118-119 | `-= w` for an equal-size w (possibly the chunk itself) subtracts index by index, using the values before the call |
| `Chunks.Chunk.Get` | src/ObjexxFCL/test/Chunk.unit.cc:129-131 | `v[i]` for i < size reads element i |
| `Chunks.Chunk.Set` | src/ObjexxFCL/test/Chunk.unit.cc:96-99 | `v[i] = x` changes element i to x and no other element; size and capacity unchanged |
| `Chunks.Chunk.Front` | src/ObjexxFCL/test/Chunk.unit.cc:159 | `front()` of a non-empty chunk is element 0 |
| `Chunks.Chunk.Back` | src/ObjexxFCL/test/Chunk.unit.cc:160 | `back()` of a non-empty chunk is element size - 1 |
| `Chunks.Chunk.Equals` | src/ObjexxFCL/test/Chunk.unit.cc:66-67 | `==` holds exactly when sizes are equal and the elements agree at every index (both directions) |
| `Chunks.Chunk.Resize` | src/ObjexxFCL/test/Chunk.unit.cc:165-170 | `resize(n)`: size n; the first min(old size, n) elements are kept and the exposed slots are unconstrained; storage is kept when n fits the capacity |
| `Chunks.Chunk.ResizeFill` | src/ObjexxFCL/test/Chunk.unit.cc:175-183 | `resize(n, fill)`: contents are the old prefix of length min(old size, n), followed by fill up to n |
| `Chunks.Chunk.NonPreservingResize` | src/ObjexxFCL/test/Chunk.unit.cc:188-191 | `non_preserving_resize(n)`: fresh storage, size == capacity == n whatever the old capacity |
| `Chunks.Chunk.NonPreservingResizeFill` | src/ObjexxFCL/test/Chunk.unit.cc:196-202 | as above, and all n elements equal fill |
| `Chunks.Chunk.Reserve` | src/ObjexxFCL/test/Chunk.unit.cc:210-214 | `reserve(n)`: capacity becomes max(capacity, n); size and elements unchanged; a no-op when n <= capacity |
| `Chunks.Chunk.PushBack` | src/ObjexxFCL/test/Chunk.unit.cc:216-224 | `push_back(x)` appends x; capacity and storage are unchanged while size < capacity; a full non-empty chunk doubles its capacity |
| `Chunks.Chunk.PopBack` | src/ObjexxFCL/test/Chunk.unit.cc:225-230 | `pop_back()` drops the last element; capacity and storage never change |
| `Chunks.Chunk.Shrink` | src/ObjexxFCL/test/Chunk.unit.cc:231-233 | `shrink()`: capacity == size afterwards, elements unchanged |
| `Chunks.Chunk.Swap` | src/ObjexxFCL/test/Chunk.unit.cc:136-143 | member `swap` exchanges storage, size and capacity of the two chunks, and therefore their contents |
| `Chunks.Swap` | src/ObjexxFCL/test/Chunk.unit.cc:144-149 | free-function `swap(a, b)` has exactly the member swap's effect |
| `Chunks.SwapTwiceRestores` | src/ObjexxFCL/test/Chunk.unit.cc:138-149 | for any two chunks, a member swap followed by a free-function swap restores storage, size, capacity and contents of both |
| `ChunkTests.DefaultConstruction` | src/ObjexxFCL/test/Chunk.unit.cc:63-70 | a default chunk equals its copy in both directions, and both have size 0 |
| `ChunkTests.CopyConstructionAndAssignment` | src/ObjexxFCL/test/Chunk.unit.cc:72-81 | a copy equals its source; after `w += 1; v = w` the two are still equal |
| `ChunkTests.ConvertingConstructionAndAssignment` | src/ObjexxFCL/test/Chunk.unit.cc:83-91 | the converted copy of Chunk(10, 22) is Chunk(10, conv(22)); after `v += 1; f = v` it is Chunk(10, conv(23)) |
| `ChunkTests.SizeValueConstructionAndSubscripting` | src/ObjexxFCL/test/Chunk.unit.cc:93-100 | Chunk(10, 2) has size 10, and each `v[i] = i` reads back as i |
| `ChunkTests.ExpectFilled` | src/ObjexxFCL/test/Chunk.unit.cc:107 | comparing against a freshly built Chunk(n, x) succeeds exactly when v holds n copies of x |
| `ChunkTests.ScalarAssignment` | src/ObjexxFCL/test/Chunk.unit.cc:105-113 | from Chunk(10, 22), `+= 2`, `-= 2`, `*= 2`, `/= 2` give Chunk(10, 24), (10, 22), (10, 44), (10, 22) |
| `ChunkTests.ChunkAssignment` | src/ObjexxFCL/test/Chunk.unit.cc:114-124 | `assign(20, 33)`, `v += v`, `v -= v`, `v = 55`, `v += Chunk(20, 33)` give Chunk(20, 33), (20, 66), (20, 0), (20, 55), (20, 88) |
| `ChunkTests.Subscripting` | src/ObjexxFCL/test/Chunk.unit.cc:127-132 | `v[3] = 33` then `v[3]` is 33 |
| `ChunkTests.MemberSwapTwice` | src/ObjexxFCL/test/Chunk.unit.cc:136-143 | after a.swap(b) each chunk equals the other's original; swapping back restores both |
| `ChunkTests.FreeSwapTwice` | src/ObjexxFCL/test/Chunk.unit.cc:144-149 | the same two exchanges made with the free function |
| `ChunkTests.FrontBack` | src/ObjexxFCL/test/Chunk.unit.cc:152-161 | after `v[i] = i` for i < 10, every write reads back, front is 0 and back is 9 |
| `ChunkTests.Resize` | src/ObjexxFCL/test/Chunk.unit.cc:163-171 | resize(20) of Chunk(10, 22) has size 20 and its first 10 elements are 22 |
| `ChunkTests.ResizeFill` | src/ObjexxFCL/test/Chunk.unit.cc:173-184 | resize(20, 33) of Chunk(10, 22): size 20, 22 below index 10, 33 from 10 to 19 |
| `ChunkTests.NonPreservingResize` | src/ObjexxFCL/test/Chunk.unit.cc:186-192 | non_preserving_resize(20) of Chunk(10, 22): size 20 and capacity 20 |
| `ChunkTests.NonPreservingResizeFill` | src/ObjexxFCL/test/Chunk.unit.cc:194-203 | non_preserving_resize(20, 33): size 20, capacity 20, every element 33 |
| `ChunkTests.ReservePushPopShrink` | src/ObjexxFCL/test/Chunk.unit.cc:205-234 | the observed sizes are 10, 10, 11, 12, 13, 12, 11, 11 and the capacities are 10, 12, 12, 12, 24, 24, 24, 11; the 10 elements survive the reserve |

## Left out

- The stream `operator<<` (src/ObjexxFCL/test/Chunk.unit.cc:25-54) is left out. It is formatted text output driven by iostream flags and `TypeTraits` width and precision.
- The `float` element type is not modelled. A converting copy or assignment takes the element conversion as a parameter `conv: int -> int`, so the model says nothing about the values of an int-to-float conversion.
- Storage for capacity 0 is an empty array, not a null pointer.
- Allocation failure and the strong guarantee on a failed reallocation are not modelled. Dafny allocation cannot fail, and releasing old storage is left to garbage collection.
- Move construction and move assignment are not modelled. The tests do not use them.
- Elements and sizes are unbounded integers. Machine overflow of `int` and of `size_type` is not modelled.
- Division by zero is excluded by a precondition of `DivScalar`. In C++ it is undefined behaviour.
- Element-wise `+=` and `-=` with a chunk of another size are excluded by a precondition. In the library this is a debug-build assertion.
- `*=` and `/=` with another chunk are not modelled. No test uses them.
- Index and empty-chunk preconditions (`Get`, `Set`, `Front`, `Back`, `PopBack`) are caller obligations, as they are in the library.
- No ownership discipline stops two `Chunk` objects from sharing one array. Each contract is stated against the pre-state, and every allocation is reported as `fresh(data)`, so clients that build chunks separately keep them apart.
- Chunks.Chunk.PushBack: growth from capacity 0 is promised only as "capacity >= 1". No test exercises it. The code grows to 1.
- Chunks.Chunk.Resize: when n exceeds the capacity, the new capacity is promised only as ">= n". The tests never observe it. The code allocates exactly n.
- Chunks.Chunk.ResizeFill: likewise, the capacity after growth is promised only as ">= n".
- Chunks.Chunk.Assign: whether the old allocation is reused is left open, and only "capacity >= n" is promised.
- Chunks.Chunk.AssignFrom: only "capacity >= size" and "same storage or fresh storage" are promised about the allocation.
- `std::swap(a, b)` (line 147) is modelled as the free function `Chunks.Swap`, like `swap(a, b)` at line 144.
- The Assignment test is split into `ScalarAssignment` and `ChunkAssignment`. The second starts from a fresh Chunk(10, 22), which is the state the test shows at line 113.
- The Swap test is split into `MemberSwapTwice` and `FreeSwapTwice`. The second starts from freshly built chunks. In the test, the free-function half starts from chunks that the first half has just shown equal to those originals.
- The gtest harness is not modelled. Each `EXPECT_EQ` becomes a returned value that the client method's postcondition pins down.
