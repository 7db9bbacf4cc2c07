/** Descriptive statistics over exact reals: the vectorised `sum`, `mean`,
    `max` and `min` the control charts are built from, and the square root
    the charts take from the platform. */
module Stats {

  /** Sum of a sequence, front to back. */
  function Sum(s: seq<real>): real
  {
    if |s| == 0 then 0.0 else s[0] + Sum(s[1..])
  }

  /** Largest element of a non-empty sequence. */
  function Max(s: seq<real>): (m: real)
    requires |s| > 0
    ensures m in s
    ensures forall i :: 0 <= i < |s| ==> s[i] <= m
  {
    if |s| == 1 then s[0]
    else
      var rest := Max(s[1..]);
      if s[0] >= rest then s[0] else rest
  }

  /** Smallest element of a non-empty sequence. */
  function Min(s: seq<real>): (m: real)
    requires |s| > 0
    ensures m in s
    ensures forall i :: 0 <= i < |s| ==> m <= s[i]
  {
    if |s| == 1 then s[0]
    else
      var rest := Min(s[1..]);
      if s[0] <= rest then s[0] else rest
  }

  /** Arithmetic mean. Its properties are stated by the lemmas below rather
      than by an `ensures` here: a postcondition on `Mean` would put a
      product of sums into every proof that mentions a mean. */
  function Mean(s: seq<real>): real
    requires |s| > 0
  {
    Sum(s) / |s| as real
  }

  function Abs(x: real): (r: real)
    ensures 0.0 <= r && (r == x || r == -x)
  {
    if x < 0.0 then -x else x
  }

  /** Every element of `s` moved by `c`. */
  function Shift(s: seq<real>, c: real): (r: seq<real>)
    ensures |r| == |s|
    ensures forall i :: 0 <= i < |s| ==> r[i] - s[i] == c
  {
    seq(|s|, i requires 0 <= i < |s| => s[i] + c)
  }

  /** Concatenation of a sequence of sequences (a row-major `ravel`). */
  function Flatten(groups: seq<seq<real>>): seq<real>
  {
    if |groups| == 0 then [] else groups[0] + Flatten(groups[1..])
  }

  /** `sqrt` returns the non-negative square root of every non-negative real. */
  ghost predicate IsSquareRoot(sqrt: real -> real)
  {
    forall x :: 0.0 <= x ==> 0.0 <= sqrt(x) && sqrt(x) * sqrt(x) == x
  }

  lemma RootPositiveIff(sqrt: real -> real, x: real)
    requires IsSquareRoot(sqrt) && 0.0 <= x
    ensures 0.0 <= sqrt(x)
    ensures sqrt(x) == 0.0 <==> x == 0.0
  {
    var r := sqrt(x);
    assert x == r * r;
    if r != 0.0 {
      PositiveSquare(r, x);
    }
  }

  /** A positive number has a positive square. */
  lemma PositiveSquare(r: real, x: real)
    requires 0.0 < r && x == r * r
    ensures 0.0 < x
  {
    assert x / r == r;
  }

  lemma MulPositive(a: real, b: real)
    requires 0.0 < a && 0.0 < b
    ensures 0.0 < a * b
  {
  }

  lemma ProductNonNegative(a: real, b: real)
    requires 0.0 <= a && 0.0 <= b
    ensures 0.0 <= a * b
  {
    if a > 0.0 && b > 0.0 {
      MulPositive(a, b);
    }
  }

  /** A product is zero exactly when one of its factors is. */
  lemma ProductZeroIff(a: real, b: real)
    ensures a * b == 0.0 <==> a == 0.0 || b == 0.0
  {
    if a != 0.0 && b != 0.0 {
      var x := a * b;
      assert x / a == b;
    }
  }

  lemma DivZeroIff(x: real, n: real)
    requires n != 0.0
    ensures x / n == 0.0 <==> x == 0.0
  {
    var q := x / n;
    assert q * n == x;
  }

  lemma Distribute(a: real, b: real, n: real)
    ensures (a + b) * n == a * n + b * n
  {
  }

  lemma DivNonNegative(x: real, n: real)
    requires 0.0 <= x && 0.0 < n
    ensures 0.0 <= x / n
  {
    DivBetween(x, n, 0.0, x / n);
  }

  /** Dividing both sides of a fraction by the same non-zero factor. */
  lemma DivCancel(x: real, k: real, m: real)
    requires k != 0.0 && m != 0.0
    ensures (x * m) / (k * m) == x / k
  {
    var q := x / k;
    assert q * k == x;
    assert q * (k * m) == x * m;
    MulNonZero(k, m);
    DivUnique(x * m, k * m, q);
  }

  lemma MulNonZero(a: real, b: real)
    requires a != 0.0 && b != 0.0
    ensures a * b != 0.0
  {
    ProductZeroIff(a, b);
  }

  lemma {:induction false} CastMul(a: nat, b: nat)
    ensures (a * b) as real == (a as real) * (b as real)
  {
    if a > 0 {
      CastMul(a - 1, b);
      assert a * b == (a - 1) * b + b;
      assert (a as real) * (b as real) == ((a - 1) as real) * (b as real) + b as real;
    }
  }

  lemma DivUnique(x: real, n: real, q: real)
    requires n != 0.0 && q * n == x
    ensures x / n == q
  {
  }

  /** Dividing by a positive `n` keeps a bound `n * lo <= x <= n * hi` as `lo <= x / n <= hi`. */
  lemma DivBetween(x: real, n: real, lo: real, hi: real)
    requires 0.0 < n && n * lo <= x <= n * hi
    ensures lo <= x / n <= hi
  {
    var q := x / n;
    assert q * n == x;
    if q < lo {
      MulPositive(lo - q, n);
    }
    if q > hi {
      MulPositive(q - hi, n);
    }
  }

  /** Dividing by a positive number keeps the sign. */
  lemma QuotientSign(x: real, k: real)
    requires 0.0 < k
    ensures (x / k) * k == x
    ensures 0.0 <= x / k <==> 0.0 <= x
  {
    var q := x / k;
    assert q * k == x;
    if q < 0.0 {
      MulPositive(-q, k);
    }
    if 0.0 <= x {
      DivNonNegative(x, k);
    }
  }

  lemma {:induction false} SumBetween(s: seq<real>, lo: real, hi: real)
    requires forall i :: 0 <= i < |s| ==> lo <= s[i] <= hi
    ensures (|s| as real) * lo <= Sum(s) <= (|s| as real) * hi
  {
    if |s| > 0 {
      SumBetween(s[1..], lo, hi);
      var n := (|s| - 1) as real;
      assert (|s| as real) * lo == lo + n * lo;
      assert (|s| as real) * hi == hi + n * hi;
    }
  }

  lemma {:induction false} SumNonNegative(s: seq<real>)
    requires forall i :: 0 <= i < |s| ==> 0.0 <= s[i]
    ensures 0.0 <= Sum(s)
  {
    if |s| > 0 {
      SumNonNegative(s[1..]);
    }
  }

  /** A sum of non-negative terms is zero exactly when every term is. */
  lemma {:induction false} SumZeroIff(s: seq<real>)
    requires forall i :: 0 <= i < |s| ==> 0.0 <= s[i]
    ensures Sum(s) == 0.0 <==> forall i :: 0 <= i < |s| ==> s[i] == 0.0
  {
    if |s| > 0 {
      SumZeroIff(s[1..]);
      SumNonNegative(s[1..]);
      if Sum(s) == 0.0 {
        forall i | 0 <= i < |s| ensures s[i] == 0.0 {
          if i > 0 { assert s[i] == s[1..][i - 1]; }
        }
      } else {
        assert !(s[0] == 0.0 && forall i :: 0 <= i < |s| - 1 ==> s[1..][i] == 0.0);
      }
    }
  }

  lemma {:induction false} SumAppend(a: seq<real>, b: seq<real>)
    ensures Sum(a + b) == Sum(a) + Sum(b)
  {
    if |a| == 0 {
      assert a + b == b;
    } else {
      SumAppend(a[1..], b);
      assert (a + b)[1..] == a[1..] + b;
    }
  }

  lemma {:induction false} SumShift(s: seq<real>, c: real)
    ensures Sum(Shift(s, c)) == Sum(s) + (|s| as real) * c
  {
    if |s| > 0 {
      SumShift(s[1..], c);
      assert Shift(s, c)[1..] == Shift(s[1..], c);
      assert (|s| as real) * c == c + ((|s| - 1) as real) * c;
    }
  }

  /** Moving every element by `c` moves the mean by `c`. */
  lemma MeanShift(s: seq<real>, c: real)
    requires |s| > 0
    ensures Mean(Shift(s, c)) == Mean(s) + c
  {
    SumShift(s, c);
    DivShift(Sum(s), |s| as real, c);
  }

  lemma DivShift(x: real, n: real, c: real)
    requires n != 0.0
    ensures (x + n * c) / n == x / n + c
  {
    var q := x / n;
    assert q * n == x;
    assert (q + c) * n == x + n * c;
    DivUnique(x + n * c, n, q + c);
  }

  lemma MeanZeroIff(s: seq<real>)
    requires |s| > 0
    ensures Mean(s) == 0.0 <==> Sum(s) == 0.0
  {
    DivZeroIff(Sum(s), |s| as real);
  }

  /** A mean lies within any bounds that hold for every element. */
  lemma MeanBetween(s: seq<real>, lo: real, hi: real)
    requires |s| > 0
    requires forall i :: 0 <= i < |s| ==> lo <= s[i] <= hi
    ensures lo <= Mean(s) <= hi
  {
    SumBetween(s, lo, hi);
    DivBetween(Sum(s), |s| as real, lo, hi);
  }

  /** The mean always lies between the smallest and the largest element. */
  lemma MeanWithinExtremes(s: seq<real>)
    requires |s| > 0
    ensures Min(s) <= Mean(s) <= Max(s)
  {
    MeanBetween(s, Min(s), Max(s));
  }

  lemma MeanNonNegative(s: seq<real>)
    requires |s| > 0
    requires forall i :: 0 <= i < |s| ==> 0.0 <= s[i]
    ensures 0.0 <= Mean(s)
  {
    SumNonNegative(s);
    DivNonNegative(Sum(s), |s| as real);
  }

  /** Scaling both the total and the count by `m` leaves the mean unchanged.
      The totals are passed as `x` and `y` so that the products stay over
      plain reals. */
  lemma MeanScaled(a: seq<real>, b: seq<real>, x: real, y: real, m: real)
    requires |a| > 0 && |b| > 0 && m != 0.0
    requires x == Sum(a) && y == Sum(b)
    requires y == x * m && |b| as real == (|a| as real) * m
    ensures Mean(b) == Mean(a)
  {
    RatioScaled(y, |b| as real, x, |a| as real, m);
  }

  lemma RatioScaled(y: real, l: real, x: real, k: real, m: real)
    requires k != 0.0 && m != 0.0 && y == x * m && l == k * m
    ensures y / l == x / k
  {
    DivCancel(x, k, m);
  }

  lemma MeanTimesCount(s: seq<real>)
    requires |s| > 0
    ensures Mean(s) * (|s| as real) == Sum(s)
  {
  }

  /** The mean of a sequence whose elements all equal `c` is `c`. */
  lemma MeanOfConstant(s: seq<real>, c: real)
    requires |s| > 0
    requires forall i :: 0 <= i < |s| ==> s[i] == c
    ensures Mean(s) == c
  {
    SumBetween(s, c, c);
    var n := |s| as real;
    assert Sum(s) == n * c;
  }

  /** The flattened data hold every measurement of every row, and nothing else. */
  lemma {:induction false} FlattenMembers(groups: seq<seq<real>>)
    ensures forall i, j :: 0 <= i < |groups| && 0 <= j < |groups[i]| ==> groups[i][j] in Flatten(groups)
    ensures forall x :: x in Flatten(groups) ==> exists i :: 0 <= i < |groups| && x in groups[i]
  {
    if |groups| > 0 {
      FlattenMembers(groups[1..]);
      forall i, j | 0 <= i < |groups| && 0 <= j < |groups[i]|
        ensures groups[i][j] in Flatten(groups)
      {
        if i > 0 {
          assert groups[i] == groups[1..][i - 1];
        }
      }
      forall x | x in Flatten(groups)
        ensures exists i :: 0 <= i < |groups| && x in groups[i]
      {
        if x !in groups[0] {
          assert x in Flatten(groups[1..]);
          var k :| 0 <= k < |groups| - 1 && x in groups[1..][k];
          assert x in groups[k + 1];
        }
      }
    }
  }

  /** Rows of a common length `n` flatten to `|groups| * n` measurements. */
  lemma {:induction false} FlattenLength(groups: seq<seq<real>>, n: nat)
    requires forall i :: 0 <= i < |groups| ==> |groups[i]| == n
    ensures |Flatten(groups)| == |groups| * n
  {
    if |groups| > 0 {
      FlattenLength(groups[1..], n);
    }
  }
}
