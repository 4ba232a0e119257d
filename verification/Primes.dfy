/**
 Three ways to decide primality: a precomputed sieve, trial division up to the
 square root, and trial division by odd numbers. All three are checked against
 the textbook definition.
 */
module Primes {

  /** d divides n, by a cofactor. */
  ghost predicate Divides(d: nat, n: nat)
  {
    exists q: nat :: d * q == n
  }

  ghost predicate Prime(n: int)
  {
    n >= 2 && forall d: nat :: 2 <= d < n ==> !Divides(d, n)
  }

  // ----- divisors

  lemma Monotone(i: nat, a: int, b: int)
    requires a <= b
    ensures i * a <= i * b
  {
  }

  /** Two multiples of i are at least i apart. */
  lemma Apart(i: nat, k: int, q: int)
    ensures !(i * k < i * q < i * k + i)
  {
    if q <= k {
      Monotone(i, q, k);
    } else {
      Monotone(i, k + 1, q);
      assert i * (k + 1) == i * k + i;
    }
  }

  lemma DividesMod(d: nat, n: nat)
    requires d > 0
    ensures Divides(d, n) <==> n % d == 0
  {
    assert n == d * (n / d) + n % d;
    if Divides(d, n) {
      var q: nat :| d * q == n;
      Apart(d, n / d, q);
    }
  }

  lemma DividesTrans(a: nat, b: nat, c: nat)
    requires Divides(a, b) && Divides(b, c)
    ensures Divides(a, c)
  {
    var p: nat :| a * p == b;
    var q: nat :| b * q == c;
    assert a * (p * q) == c;
  }

  /** Every number above 1 has a prime divisor. */
  lemma {:induction false} HasPrimeDivisor(n: nat) returns (p: nat)
    requires n >= 2
    ensures Prime(p) && Divides(p, n) && p <= n
  {
    if Prime(n) {
      p := n;
      assert n * 1 == n;
    } else {
      var d: nat :| 2 <= d < n && Divides(d, n);
      p := HasPrimeDivisor(d);
      DividesTrans(p, d, n);
    }
  }

  /** A composite number has a divisor no larger than its square root. */
  lemma SmallDivisor(n: nat) returns (d: nat)
    requires n >= 2 && !Prime(n)
    ensures 2 <= d < n && d * d <= n && Divides(d, n)
  {
    var e: nat :| 2 <= e < n && Divides(e, n);
    var q: nat :| e * q == n;
    assert q * e == n;
    if e <= q {
      d := e;
      Monotone(e, e, q);
    } else {
      d := q;
      Monotone(q, q, e);
      Cofactor(e, q);
    }
  }

  lemma Cofactor(e: nat, q: nat)
    requires 2 <= e < e * q
    ensures 2 <= q < e * q
  {
  }

  // ----- there is always a next prime

  function Product(n: nat): (r: nat)
    ensures r >= 1
  {
    if n == 0 then 1 else n * Product(n - 1)
  }

  lemma {:induction false} DividesProduct(d: nat, n: nat)
    requires 1 <= d <= n
    ensures Divides(d, Product(n))
  {
    if d == n {
      assert d * Product(n - 1) == Product(n);
    } else {
      DividesProduct(d, n - 1);
      assert Product(n - 1) * n == Product(n);
      assert Divides(Product(n - 1), Product(n));
      DividesTrans(d, Product(n - 1), Product(n));
    }
  }

  lemma NotBoth(d: nat, n: nat)
    requires d >= 2 && Divides(d, n)
    ensures !Divides(d, n + 1)
  {
    if Divides(d, n + 1) {
      var p: nat :| d * p == n;
      var q: nat :| d * q == n + 1;
      Apart(d, p, q);
    }
  }

  /** Some prime exceeds n. */
  lemma LargerPrime(n: nat) returns (p: nat)
    ensures Prime(p) && p > n
  {
    p := HasPrimeDivisor(Product(n) + 1);
    if p <= n {
      DividesProduct(p, n);
      NotBoth(p, Product(n));
    }
  }

  /** r is the least prime above p. */
  ghost predicate IsNextPrime(p: int, r: int)
  {
    p < r && Prime(r) && forall m :: p < m < r ==> !Prime(m)
  }

  // ----- the tests

  /** The odd-divisor test of the first sample; last is the largest divisor it forms. */
  method IsPrimeOdd(n: int) returns (r: bool, ghost last: int)
    ensures r <==> Prime(n)
    ensures n <= INT_MAX ==> last <= 46342
  {
    if n <= 1 {
      return false, 0;
    }
    DividesMod(2, n);
    if n % 2 == 0 {
      return n == 2, 2;
    }
    var i := 3;
    while true
      invariant 3 <= i <= n + 2 && i % 2 == 1 && (n <= INT_MAX ==> i <= 46342)
      invariant forall d: nat :: 2 <= d < i && d < n ==> !Divides(d, n)
      decreases n + 2 - i
    {
      if i > n / i {
        break;
      }
      QuotientSquare(n, i);
      if i > 46340 {
        SquareOrder(46341, i);
      }
      DividesMod(i, n);
      if n % i == 0 {
        return false, i;
      }
      EvenDivides(i + 1, n);
      i := i + 2;
    }
    QuotientSquare(n, i);
    if !Prime(n) {
      var d := SmallDivisor(n);
      SquareOrder(i, d);
    }
    return true, i;
  }

  lemma EvenDivides(e: nat, n: nat)
    requires e % 2 == 0 && n % 2 == 1
    ensures !Divides(e, n)
  {
    if Divides(e, n) {
      assert 2 * (e / 2) == e;
      DividesTrans(2, e, n);
      DividesMod(2, n);
    }
  }

  lemma QuotientSquare(n: nat, i: nat)
    requires i >= 3
    ensures i <= n / i <==> i * i <= n
    ensures i <= n / i ==> i < n
  {
    assert n == i * (n / i) + n % i;
    Monotone(i, 3, i);
    if i <= n / i {
      Monotone(i, i, n / i);
    } else {
      Monotone(i, n / i, i - 1);
      assert i * (i - 1) == i * i - i;
    }
  }

  lemma SquareOrder(i: nat, d: nat)
    requires d >= i
    ensures d * d >= i * i
  {
  }

  // ----- 32-bit products

  const INT_MAX := 0x7fff_ffff

  /** The last i whose square the on-the-fly test computes, from i on. */
  function LastTried(n: nat, i: nat): (last: nat)
    requires i >= 2
    decreases n + 1 - i
  {
    if i * i > n || n % i == 0 then i
    else
      Monotone(i, 1, i);
      LastTried(n, i + 1)
  }

  lemma {:induction false} LastTriedFacts(n: nat, i: nat)
    requires i >= 2
    ensures var last := LastTried(n, i);
            && i <= last && (last * last > n || n % last == 0)
            && (forall d :: i <= d < last ==> d * d <= n && n % d != 0)
    decreases n + 1 - i
  {
    if i * i <= n && n % i != 0 {
      Monotone(i, 1, i);
      LastTriedFacts(n, i + 1);
    }
  }

  /**
   The largest product of the on-the-fly test fits in 32 bits exactly if n is not
   prime or is below the square of 46340.
   */
  lemma ProductsFit(n: nat)
    requires 2 <= n <= INT_MAX
    ensures var last := LastTried(n, 2);
            last * last <= INT_MAX <==> !Prime(n) || n < 46340 * 46340
  {
    var last := LastTried(n, 2);
    LastTriedFacts(n, 2);
    if !Prime(n) {
      var d := SmallDivisor(n);
      DividesMod(d, n);
      assert d >= last;
      SquareOrder(last, d);
    } else {
      PrimeLastTried(n);
      if n < 46340 * 46340 {
        if last > 46340 {
          SquareOrder(46340, last - 1);
        }
        SquareOrder(last, 46340);
      } else {
        if last <= 46340 {
          SquareOrder(last, 46340);
        }
        SquareOrder(46341, last);
      }
    }
  }

  lemma PrimeLastTried(n: nat)
    requires Prime(n)
    ensures var last := LastTried(n, 2); last * last > n && (last > 2 ==> (last - 1) * (last - 1) <= n)
  {
    var last := LastTried(n, 2);
    LastTriedFacts(n, 2);
    DividesMod(last, n);
    if last * last <= n {
      Monotone(last, 2, last);
    }
  }

  /** The table that computes on the fly. */
  class OnTheFlyPrimeTable {
    constructor ()
    {
    }

    /** last is the largest number it squares. */
    method IsPrime(n: int) returns (r: bool, ghost last: nat)
      ensures r <==> Prime(n)
      ensures n >= 2 ==> last == LastTried(n, 2)
    {
      if n <= 1 {
        return false, 0;
      }
      var i := 2;
      while i * i <= n
        invariant 2 <= i <= n + 1
        invariant LastTried(n, i) == LastTried(n, 2)
        invariant forall d: nat :: 2 <= d < i && d < n ==> !Divides(d, n)
        decreases n + 1 - i
      {
        assert i * 2 <= i * i;
        DividesMod(i, n);
        if n % i == 0 {
          return false, i;
        }
        i := i + 1;
      }
      if !Prime(n) {
        var d := SmallDivisor(n);
        SquareOrder(i, d);
      }
      return true, i;
    }

    /**
     The next prime is found exactly when p is not negative: the loop does not start
     on an n that is not positive, and -1 comes back although 2 is the next prime.
     */
    method GetNextPrime(p: int) returns (r: int)
      ensures IsNextPrime(p, r) <==> p >= 0
      ensures p < 0 ==> r == -1
    {
      ghost var bound: nat := 0;
      if p >= 0 {
        bound := LargerPrime(p);
      }
      var n := p + 1;
      while n > 0
        invariant p + 1 <= n
        invariant p < 0 ==> n == p + 1
        invariant p >= 0 ==> n <= bound && p < bound && Prime(bound)
        invariant forall m :: p < m < n ==> !Prime(m)
        decreases bound - n
      {
        var found, _ := IsPrime(n);
        if found {
          return n;
        }
        n := n + 1;
      }
      return -1;
    }
  }

  // ----- the sieve

  /** What the sieve has crossed out once all candidates below i are done. */
  ghost predicate Crossed(i: int, n: nat)
  {
    n < 2 || exists d: nat :: 2 <= d < i && d < n && Divides(d, n)
  }

  lemma CrossedIsComposite(i: int, n: nat)
    ensures Crossed(i, n) ==> !Prime(n)
    ensures n <= i ==> (Crossed(i, n) <==> !Prime(n))
  {
  }

  /** The table that is computed once. */
  class PreCalculatedPrimeTable {
    const size: nat
    const table: array<bool>

    ghost predicate Valid()
      reads this, table
    {
      table.Length == size && forall n :: 0 <= n < size ==> (table[n] <==> Prime(n))
    }

    constructor (max: nat)
      requires max >= 1
      ensures Valid() && fresh(table) && size == max + 1
    {
      size := max + 1;
      table := new bool[max + 1];
      new;
      CalculatePrimesUpTo(max);
    }

    method CalculatePrimesUpTo(max: nat)
      requires max >= 1 && table.Length == size == max + 1
      modifies table
      ensures Valid()
    {
      for n := 0 to size
        invariant forall m :: 0 <= m < n ==> table[m]
      {
        table[n] := true;
      }
      table[0], table[1] := false, false;
      var i := 2;
      while i <= max
        invariant 2 <= i <= max + 1
        invariant forall n :: 0 <= n <= max ==> (table[n] <==> !Crossed(i, n))
      {
        CrossedIsComposite(i, i);
        if table[i] {
          CrossOut(max, i);
        } else {
          SkipComposite(i);
        }
        i := i + 1;
      }
      forall n: nat | n < size ensures table[n] <==> Prime(n) {
        CrossedIsComposite(i, n);
      }
    }

    /** The inner loop: all multiples of i but i itself. */
    method CrossOut(max: nat, i: nat)
      requires 2 <= i <= max && table.Length == max + 1
      modifies table
      ensures forall n :: 0 <= n <= max ==> (table[n] <==> old(table[n]) && !(i < n && Divides(i, n)))
    {
      var j, k := 2 * i, 2;
      while j <= max
        invariant k >= 2 && j == i * k
        invariant forall n :: 0 <= n <= max ==> (table[n] <==> old(table[n]) && !(i < n < j && Divides(i, n)))
        decreases max - j
      {
        table[j] := false;
        Multiples(i, k);
        j, k := j + i, k + 1;
      }
    }

    method IsPrime(n: int) returns (r: bool)
      requires Valid()
      ensures r <==> n < size && Prime(n)
    {
      return 0 <= n && n < size && table[n];
    }

    /** The least prime above p if the table reaches it, -1 otherwise. */
    method GetNextPrime(p: int) returns (r: int)
      requires Valid() && p >= -1
      ensures r == -1 <==> forall m :: p < m < size ==> !Prime(m)
      ensures r != -1 ==> IsNextPrime(p, r) && r < size
    {
      var n := p + 1;
      while n < size
        invariant p + 1 <= n
        invariant forall m :: p < m < n && m < size ==> !Prime(m)
      {
        if table[n] {
          return n;
        }
        n := n + 1;
      }
      return -1;
    }
  }

  /** No multiple of i lies strictly between two consecutive ones. */
  lemma Multiples(i: nat, k: nat)
    requires i > 0
    ensures Divides(i, i * k)
    ensures forall n: nat :: i * k < n < i * k + i ==> !Divides(i, n)
  {
    forall n: nat | i * k < n < i * k + i ensures !Divides(i, n) {
      if Divides(i, n) {
        var q: nat :| i * q == n;
        Apart(i, k, q);
      }
    }
  }

  /** A number already crossed out adds nothing: its multiples are crossed out too. */
  lemma SkipComposite(i: nat)
    requires i >= 2 && !Prime(i)
    ensures forall n: nat :: Crossed(i, n) <==> Crossed(i + 1, n)
  {
    var d: nat :| 2 <= d < i && Divides(d, i);
    forall n: nat | i < n && Divides(i, n) ensures Crossed(i, n) {
      DividesTrans(d, i, n);
    }
  }

  /** Both tables name the same next prime whenever the precomputed one reaches it. */
  lemma NextPrimeUnique(p: int, r: int, s: int)
    requires IsNextPrime(p, r) && IsNextPrime(p, s)
    ensures r == s
  {
  }

  /** Below 2 there is no prime, so a search from a negative number should have found 2. */
  lemma NextPrimeOfNegative(p: int)
    requires p < 0
    ensures IsNextPrime(p, 2)
  {
  }
}
