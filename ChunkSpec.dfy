/** Value-level specification of the contents of an ObjexxFCL Chunk<int>.
    The in-place operations of class Chunk (module Chunks) are proved against
    the functions of this module; the lemmas here state what the unit tests
    observe about them. */
module ChunkSpec {

  /** The four compound-assignment operators of a Chunk: += -= *= /= */
  datatype ArithOp = Add | Sub | Mul | Div

  function Abs(a: int): nat
  {
    if a < 0 then -a else a
  }

  /** C++ integer division: the quotient is truncated toward zero (Dafny's own
      `/` is Euclidean and differs when an operand is negative). */
  function TruncDiv(a: int, b: int): (q: int)
    requires b != 0
    ensures Abs(q) * Abs(b) <= Abs(a) < (Abs(q) + 1) * Abs(b)
    ensures q < 0 ==> (a < 0) != (b < 0)
    ensures q > 0 ==> (a < 0) == (b < 0)
  {
    DivBracket(Abs(a), Abs(b));
    var m := Abs(a) / Abs(b);
    if (a < 0) != (b < 0) then -m else m
  }

  lemma DivBracket(x: nat, c: nat)
    requires c > 0
    ensures 0 <= x / c
    ensures (x / c) * c <= x < (x / c + 1) * c
  {
    var m, r := x / c, x % c;
    assert x == m * c + r && 0 <= r < c;
    assert (m + 1) * c == m * c + c;
  }

  /** One element of `s op= x` (or of `s op= t`, with x the element of t). */
  function Combine(op: ArithOp, a: int, x: int): int
    requires op == Div ==> x != 0
  {
    match op
    case Add => a + x
    case Sub => a - x
    case Mul => a * x
    case Div => TruncDiv(a, x)
  }

  /** n copies of x: the contents of Chunk(n, x), of assign(n, x), of `= x` */
  function Fill(n: nat, x: int): seq<int>
  {
    seq(n, _ => x)
  }

  /** Contents after the scalar operator `op= x` */
  function Each(s: seq<int>, op: ArithOp, x: int): seq<int>
    requires op == Div ==> x != 0
  {
    seq(|s|, i requires 0 <= i < |s| => Combine(op, s[i], x))
  }

  /** Contents after the element-wise operator `op= t` on an equal-size chunk */
  function Pairwise(s: seq<int>, op: ArithOp, t: seq<int>): seq<int>
    requires |s| == |t|
    requires op == Add || op == Sub
  {
    seq(|s|, i requires 0 <= i < |s| => Combine(op, s[i], t[i]))
  }

  /** Contents of a copy made through an element conversion */
  function Converted(s: seq<int>, conv: int -> int): seq<int>
  {
    seq(|s|, i requires 0 <= i < |s| => conv(s[i]))
  }

  /** Contents after resize(n, fill): the first min(|s|, n) elements are kept
      and the slots the resize exposes hold the fill value. */
  function Resized(s: seq<int>, n: nat, fill: int): seq<int>
  {
    if n <= |s| then s[..n] else s + Fill(n - |s|, fill)
  }

  /** Capacity after push_back when storage is full: doubling, and (for an
      empty allocation) at least one slot. */
  function GrownCapacity(capacity: nat): (c: nat)
    ensures c > capacity
    ensures capacity > 0 ==> c == 2 * capacity
  {
    if capacity == 0 then 1 else 2 * capacity
  }

  // ---------------------------------------------------------------------
  // Properties of the specification

  lemma AbsMul(a: int, b: int)
    ensures Abs(a * b) == Abs(a) * Abs(b)
  {
    if a < 0 && b < 0 {
      assert a * b == (-a) * (-b);
    } else if a < 0 {
      assert -(a * b) == (-a) * b;
    } else if b < 0 {
      assert -(a * b) == a * (-b);
    }
  }

  /** A truncated quotient is determined by its bracketing: q*c <= y*c < (q+1)*c
      forces q == y. */
  lemma QuotientUnique(q: nat, y: nat, c: nat)
    requires c > 0
    requires q * c <= y * c < (q + 1) * c
    ensures q == y
  {
  }

  /** Multiplying by a nonzero b and then dividing by b (truncating) gives back a. */
  lemma TruncDivOfProduct(a: int, b: int)
    requires b != 0
    ensures TruncDiv(a * b, b) == a
  {
    var q := TruncDiv(a * b, b);
    AbsMul(a, b);
    assert Abs(a) * Abs(b) < (Abs(a) + 1) * Abs(b);
    QuotientUnique(Abs(q), Abs(a), Abs(b));
    if a == 0 {
      assert q == 0;
    } else if a < 0 {
      assert (a * b < 0) == (b > 0) by { AbsMul(a, b); }
    } else {
      assert (a * b < 0) == (b < 0) by { AbsMul(a, b); }
    }
  }

  /** `v += x; v -= x` restores v (Chunk.unit.cc, Assignment test). */
  lemma AddThenSubRestores(s: seq<int>, x: int)
    ensures Each(Each(s, Add, x), Sub, x) == s
  {
  }

  /** `v *= x; v /= x` restores v for a nonzero x, with C++ truncating division. */
  lemma MulThenDivRestores(s: seq<int>, x: int)
    requires x != 0
    ensures Each(Each(s, Mul, x), Div, x) == s
  {
    var r := Each(Each(s, Mul, x), Div, x);
    forall i | 0 <= i < |s|
      ensures r[i] == s[i]
    {
      TruncDivOfProduct(s[i], x);
    }
  }

  /** A scalar operator on a filled chunk yields a filled chunk. */
  lemma EachOfFill(n: nat, a: int, op: ArithOp, x: int)
    requires op == Div ==> x != 0
    ensures Each(Fill(n, a), op, x) == Fill(n, Combine(op, a, x))
  {
  }

  /** `v += v` doubles every element. */
  lemma AddSelfDoubles(s: seq<int>)
    ensures Pairwise(s, Add, s) == Each(s, Mul, 2)
  {
  }

  /** `v -= v` zeroes every element. */
  lemma SubSelfZeroes(s: seq<int>)
    ensures Pairwise(s, Sub, s) == Fill(|s|, 0)
  {
  }

  /** Element-wise operator on two filled chunks of one size. */
  lemma PairwiseOfFills(n: nat, a: int, op: ArithOp, b: int)
    requires op == Add || op == Sub
    ensures Pairwise(Fill(n, a), op, Fill(n, b)) == Fill(n, Combine(op, a, b))
  {
  }

  /** Converting a filled chunk yields the filled chunk of the converted value. */
  lemma ConvertedFill(n: nat, a: int, conv: int -> int)
    ensures Converted(Fill(n, a), conv) == Fill(n, conv(a))
  {
  }

  /** resize(n, fill) keeps the first min(|s|, n) elements and fills the rest. */
  lemma ResizedElements(s: seq<int>, n: nat, fill: int)
    ensures |Resized(s, n, fill)| == n
    ensures forall i :: 0 <= i < n && i < |s| ==> Resized(s, n, fill)[i] == s[i]
    ensures forall i :: |s| <= i < n ==> Resized(s, n, fill)[i] == fill
  {
  }
}
