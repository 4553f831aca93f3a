/** Finite sums of real-valued functions over an index range, with the few
    rewriting rules the lattice proofs need. */
module Sums {

  /** g(0) + g(1) + ... + g(n - 1). */
  function SumTo(n: nat, g: int -> real): real {
    if n == 0 then 0.0 else SumTo(n - 1, g) + g(n - 1)
  }

  function Plus(f: int -> real, g: int -> real): int -> real {
    i => f(i) + g(i)
  }

  /** The entries of v as a function on indices, 0 outside v. */
  function Entries(v: seq<real>): int -> real {
    i => if 0 <= i < |v| then v[i] else 0.0
  }

  /** The sum of the entries of v. */
  function Total(v: seq<real>): real {
    SumTo(|v|, Entries(v))
  }

  lemma {:induction false} SumExt(n: nat, f: int -> real, g: int -> real)
    requires forall i :: 0 <= i < n ==> f(i) == g(i)
    ensures SumTo(n, f) == SumTo(n, g)
  {
    if n > 0 {
      SumExt(n - 1, f, g);
    }
  }

  lemma {:induction false} SumAdd(n: nat, f: int -> real, g: int -> real, h: int -> real)
    requires forall i :: 0 <= i < n ==> h(i) == f(i) + g(i)
    ensures SumTo(n, h) == SumTo(n, f) + SumTo(n, g)
  {
    if n > 0 {
      SumAdd(n - 1, f, g, h);
    }
  }

  lemma {:induction false} SumScale(n: nat, c: real, f: int -> real, g: int -> real)
    requires forall i :: 0 <= i < n ==> g(i) == c * f(i)
    ensures SumTo(n, g) == c * SumTo(n, f)
  {
    if n > 0 {
      SumScale(n - 1, c, f, g);
      assert c * SumTo(n - 1, f) + c * f(n - 1) == c * (SumTo(n - 1, f) + f(n - 1));
    }
  }

  lemma {:induction false} SumZero(n: nat, g: int -> real)
    requires forall i :: 0 <= i < n ==> g(i) == 0.0
    ensures SumTo(n, g) == 0.0
  {
    if n > 0 {
      SumZero(n - 1, g);
    }
  }

  /** A sum over [0, n) whose only non-zero term sits at index k. */
  lemma {:induction false} SumSingle(n: nat, k: int, g: int -> real)
    requires 0 <= k < n
    requires forall i :: 0 <= i < n && i != k ==> g(i) == 0.0
    ensures SumTo(n, g) == g(k)
  {
    if n - 1 == k {
      SumZero(n - 1, g);
    } else {
      SumSingle(n - 1, k, g);
    }
  }

  /** Shifting the summation index by one exchanges the two boundary terms. */
  lemma {:induction false} SumShift(n: nat, h: int -> real, g: int -> real)
    requires forall i :: 0 <= i < n ==> g(i) == h(i + 1)
    ensures SumTo(n, g) == SumTo(n, h) - h(0) + h(n)
  {
    if n > 0 {
      SumShift(n - 1, h, g);
    }
  }

  /** SumTo(n + 1, g) splits off its first term. */
  lemma {:induction false} SumSplitFirst(n: nat, g: int -> real, rest: int -> real)
    requires forall i :: 0 <= i < n ==> rest(i) == g(i + 1)
    ensures SumTo(n + 1, g) == g(0) + SumTo(n, rest)
  {
    SumShift(n, g, rest);
  }

  /** Changing one term of a sum changes the sum by the same amount. */
  lemma {:induction false} SumPoint(n: nat, k: int, f: int -> real, g: int -> real)
    requires 0 <= k < n
    requires forall i :: 0 <= i < n && i != k ==> f(i) == g(i)
    ensures SumTo(n, g) == SumTo(n, f) + (g(k) - f(k))
  {
    if n - 1 == k {
      SumExt(n - 1, f, g);
    } else {
      SumPoint(n - 1, k, f, g);
    }
  }

  function Row(f: (int, int) -> real, i: int): int -> real {
    j => f(i, j)
  }

  function Column(f: (int, int) -> real, j: int): int -> real {
    i => f(i, j)
  }

  function RowSums(f: (int, int) -> real, m: nat): int -> real {
    i => SumTo(m, Row(f, i))
  }

  function ColumnSums(f: (int, int) -> real, n: nat): int -> real {
    j => SumTo(n, Column(f, j))
  }

  /** A finite double sum may be taken in either order. */
  lemma {:induction false} SumSwap(n: nat, m: nat, f: (int, int) -> real)
    ensures SumTo(n, RowSums(f, m)) == SumTo(m, ColumnSums(f, n))
  {
    if n == 0 {
      SumZero(m, ColumnSums(f, 0));
    } else {
      SumSwap(n - 1, m, f);
      forall j | 0 <= j < m
        ensures ColumnSums(f, n)(j) == ColumnSums(f, n - 1)(j) + Row(f, n - 1)(j)
      {
      }
      SumAdd(m, ColumnSums(f, n - 1), Row(f, n - 1), ColumnSums(f, n));
    }
  }
}
