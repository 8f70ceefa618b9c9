/**
 * Number trivia of the shell: prime/composite and even/odd classification, the
 * list of factors and the multiplication table of an integer.
 *
 * Divisors are sought among 1..number, the range Python's `range(1, number + 1)`
 * walks; for a number below 1 that range is empty. Only positive divisors are
 * ever used with `%`, where Python's floored remainder and Dafny's Euclidean
 * remainder agree for every dividend, negative ones included (`PyModIsEuclidean`).
 */
module Characters {

  const PRIME := "prime"
  const COMPOSITE := "composite"
  const EVEN := "even"
  const ODD := "odd"

  /** One printed line of the multiplication table: `number x multiplier = product`. */
  datatype TableRow = TableRow(number: int, multiplier: int, product: int)

  /** The divisors of `n` among 1..k, in ascending order. */
  function DivisorsUpTo(n: int, k: int): (r: seq<int>)
    ensures forall d :: d in r <==> 1 <= d <= k && n % d == 0
    ensures forall i :: 0 <= i < |r| ==> 1 <= r[i] <= k
    ensures forall i, j :: 0 <= i < j < |r| ==> r[i] < r[j]
    decreases k
  {
    if k < 1 then []
    else if n % k == 0 then DivisorsUpTo(n, k - 1) + [k]
    else DivisorsUpTo(n, k - 1)
  }

  /** The divisors of `n` among 1..n, in ascending order. */
  function Divisors(n: int): seq<int>
  {
    DivisorsUpTo(n, n)
  }

  /** Classification by the number of divisors: more than two means composite. */
  function Classify(n: int): string
  {
    if |Divisors(n)| > 2 then COMPOSITE else PRIME
  }

  /** Has `n` a divisor strictly between 1 and itself? */
  predicate HasProperDivisor(n: int)
  {
    exists d :: 1 < d < n && n % d == 0
  }

  /** 0, 1 and every negative number are classified as prime. */
  lemma AtMostOneIsPrime(n: int)
    requires n <= 1
    ensures Divisors(n) == (if n == 1 then [1] else [])
    ensures Classify(n) == PRIME
  {
  }

  /** Below a number with no proper divisor, only 1 divides it. */
  lemma {:induction false} OnlyOneBelow(n: int, k: int)
    requires 1 <= k < n
    requires !HasProperDivisor(n)
    ensures DivisorsUpTo(n, k) == [1]
    decreases k
  {
    if k > 1 {
      assert n % k != 0;
      OnlyOneBelow(n, k - 1);
    }
  }

  /** In a strictly ascending sequence, a smaller value sits at a smaller index. */
  lemma AscendingIndices(r: seq<int>, i: int, j: int)
    requires forall a, b :: 0 <= a < b < |r| ==> r[a] < r[b]
    requires 0 <= i < |r| && 0 <= j < |r|
    requires r[i] < r[j]
    ensures i < j
  {
  }

  /** From 2 on, a number is prime exactly when nothing strictly between 1 and itself divides it. */
  lemma PrimeIffNoProperDivisor(n: int)
    requires n >= 2
    ensures Classify(n) == PRIME <==> !HasProperDivisor(n)
    ensures !HasProperDivisor(n) ==> Divisors(n) == [1, n]
  {
    var r := Divisors(n);
    if HasProperDivisor(n) {
      var d :| 1 < d < n && n % d == 0;
      assert 1 in r && d in r && n in r;
      var i1 :| 0 <= i1 < |r| && r[i1] == 1;
      var i2 :| 0 <= i2 < |r| && r[i2] == d;
      var i3 :| 0 <= i3 < |r| && r[i3] == n;
      AscendingIndices(r, i1, i2);
      AscendingIndices(r, i2, i3);
      assert |r| > 2;
    } else {
      assert n % n == 0;
      OnlyOneBelow(n, n - 1);
      assert r == DivisorsUpTo(n, n - 1) + [n];
    }
  }

  /** From 1 on, the factors start with 1 and end with the number itself. */
  lemma FactorsEnds(n: int)
    requires n >= 1
    ensures |Divisors(n)| >= 1
    ensures Divisors(n)[0] == 1
    ensures Divisors(n)[|Divisors(n)| - 1] == n
  {
    var r := Divisors(n);
    assert n % n == 0 && n % 1 == 0;
    assert 1 in r && n in r;
    var i :| 0 <= i < |r| && r[i] == 1;
    var j :| 0 <= j < |r| && r[j] == n;
    assert r[0] in r && r[|r| - 1] in r;
    if i != 0 {
      AscendingIndices(r, 0, i);
    }
    if j != |r| - 1 {
      AscendingIndices(r, j, |r| - 1);
    }
  }

  /**
   * Python's integer division by a positive divisor: the quotient rounded
   * towards minus infinity, computed here from the quotient of magnitudes.
   */
  function PyFloorDiv(a: int, b: int): int
    requires b > 0
  {
    if a >= 0 then a / b
    else
      var m := -a;
      if m % b == 0 then -(m / b) else -(m / b) - 1
  }

  /** Python's `a % b` for a positive divisor: what is left after the floored quotient. */
  function PyMod(a: int, b: int): int
    requires b > 0
  {
    a - b * PyFloorDiv(a, b)
  }

  /** Two divisions of the same number by the same divisor with remainders in 0..b-1 agree. */
  lemma {:induction false} RemainderUnique(a: int, b: int, q1: int, r1: int, q2: int, r2: int)
    requires b > 0
    requires a == b * q1 + r1 && 0 <= r1 < b
    requires a == b * q2 + r2 && 0 <= r2 < b
    ensures q1 == q2 && r1 == r2
  {
    if q1 != q2 {
      var lo, hi := if q1 < q2 then q1 else q2, if q1 < q2 then q2 else q1;
      var d := hi - lo;
      assert b * hi == b * lo + b * d;
      MultipleAtLeast(b, d);
      assert false;
    }
  }

  /** A positive multiple of a positive number is at least that number. */
  lemma MultipleAtLeast(b: int, d: int)
    requires b > 0 && d >= 1
    ensures b * d >= b
  {
    assert b * d == b * (d - 1) + b;
  }

  /**
   * For a positive divisor, Python's floored `%` is Dafny's Euclidean `%`,
   * negative dividends included: every `number % d` of the source with `d >= 1`
   * (the divisor tests and the even test) means the same in this model.
   */
  lemma PyModIsEuclidean(a: int, b: int)
    requires b > 0
    ensures 0 <= PyMod(a, b) < b
    ensures PyMod(a, b) == a % b
  {
    var q := PyFloorDiv(a, b);
    if a < 0 {
      var m := -a;
      assert m == b * (m / b) + m % b;
      if m % b != 0 {
        assert PyMod(a, b) == b - m % b;
      }
    }
    RemainderUnique(a, b, q, PyMod(a, b), a / b, a % b);
  }

  class NumberDetails {
    var number: int

    /** Remembers the number to describe. */
    constructor (number: int)
      ensures this.number == number
    {
      this.number := number;
    }

    /** Without a number the default is 0. */
    constructor Default()
      ensures number == 0
    {
      number := 0;
    }

    /** Counts the divisors among 1..number and calls the number composite when there are more than two. */
    method CheckPrimeComposite() returns (r: string)
      ensures r == COMPOSITE <==> |Divisors(number)| > 2
      ensures r == PRIME || r == COMPOSITE
      ensures r == Classify(number)
    {
      var factorsCount := 0;
      var i := 1;
      while i <= number
        invariant 1 <= i <= if number < 1 then 1 else number + 1
        invariant factorsCount == |DivisorsUpTo(number, i - 1)|
      {
        if number % i == 0 {
          factorsCount := factorsCount + 1;
        }
        i := i + 1;
      }
      if number < 1 {
        assert DivisorsUpTo(number, i - 1) == [] == Divisors(number);
      }
      if factorsCount > 2 {
        r := COMPOSITE;
      } else {
        r := PRIME;
      }
    }

    /** Even exactly when 2 divides the number, negative numbers included. */
    function CheckEvenOdd(): (r: string)
      reads this
      ensures r == EVEN <==> exists q :: number == 2 * q
      ensures r == ODD <==> exists q :: number == 2 * q + 1
    {
      PyModIsEuclidean(number, 2);
      var q := number / 2;
      assert number == 2 * q + number % 2;
      if PyMod(number, 2) == 0 then EVEN else ODD
    }

    /** The ten lines of the multiplication table, multipliers 1 to 10 in order. */
    method Table() returns (rows: seq<TableRow>)
      ensures |rows| == 10
      ensures forall i :: 0 <= i < 10 ==> rows[i] == TableRow(number, i + 1, number * (i + 1))
    {
      rows := [];
      for i := 1 to 11
        invariant |rows| == i - 1
        invariant forall j :: 0 <= j < i - 1 ==> rows[j] == TableRow(number, j + 1, number * (j + 1))
      {
        rows := rows + [TableRow(number, i, number * i)];
      }
    }

    /** The factors printed, in the order printed: the divisors among 1..number, ascending. */
    method Factors() returns (r: seq<int>)
      ensures r == Divisors(number)
      ensures forall d :: d in r <==> 1 <= d <= number && number % d == 0
      ensures forall i, j :: 0 <= i < j < |r| ==> r[i] < r[j]
    {
      r := [];
      var i := 1;
      while i <= number
        invariant 1 <= i <= if number < 1 then 1 else number + 1
        invariant r == DivisorsUpTo(number, i - 1)
      {
        if number % i == 0 {
          r := r + [i];
        }
        i := i + 1;
      }
      if number < 1 {
        assert r == [] == Divisors(number);
      }
    }
  }
}
