/** Integer operations of the C# source written out explicitly: Dafny's `/` is Euclidean,
    C#'s truncates toward zero; casts to `byte` keep the low eight bits; `(int)` of a
    double truncates toward zero. */
module Numerics {

  /** C# integer division `a / b`: the quotient truncated toward zero. */
  function Div(a: int, b: int): (q: int)
    requires b != 0
    ensures a >= 0 && b > 0 ==> q == a / b
    ensures (a >= 0) == (b > 0) ==> q >= 0
    ensures a == 0 ==> q == 0
  {
    if a >= 0 then (if b > 0 then a / b else -(a / -b))
    else if b > 0 then -((-a) / b) else (-a) / (-b)
  }

  /** Truncation is symmetric: negating the dividend or the divisor negates the quotient,
      unlike Euclidean division (`-7 / 2` is -4 in Dafny and -3 in C#). */
  lemma DivSigns(a: int, b: int)
    requires b != 0
    ensures Div(-a, b) == -Div(a, b) && Div(a, -b) == -Div(a, b)
    ensures Div(-7, 2) == -3 && -7 / 2 == -4
  {
  }

  /** The C# rule for integer division: the remainder `a - Div(a, b) * b` is 0 or has the
      dividend's sign, and is smaller than the divisor in magnitude. */
  lemma DivRemainder(a: int, b: int)
    requires b != 0
    ensures var r := a - Div(a, b) * b;
            && (r == 0 || (r > 0) == (a > 0))
            && (if r < 0 then -r else r) < (if b < 0 then -b else b)
  {
    var m, n := if a < 0 then -a else a, if b < 0 then -b else b;
    var p := m / n * n;
    assert 0 <= m - p < n by {
      EuclidStep(m, n);
    }
    assert Div(a, b) == if (a < 0) == (b < 0) then m / n else -(m / n);
    assert Div(a, b) * b == if a < 0 then -p else p by {
      SignedProduct(m / n, n, b);
    }
  }

  /** Euclidean division of a non-negative number leaves a remainder below the divisor. */
  lemma EuclidStep(m: int, n: int)
    requires m >= 0 && n > 0
    ensures 0 <= m - m / n * n < n
  {
  }

  /** A product with a divisor of either sign, by its magnitude `n`. */
  lemma SignedProduct(k: int, n: int, b: int)
    requires b == n || b == -n
    ensures b == n ==> k * b == k * n && (-k) * b == -(k * n)
    ensures b == -n ==> k * b == -(k * n) && (-k) * b == k * n
  {
  }

  /** Unchecked C# cast `(byte)x`: the residue modulo 256. */
  function ToByte(x: int): (b: int)
    ensures 0 <= b < 256
    ensures 0 <= x < 256 ==> b == x
    ensures (b - x) % 256 == 0
  {
    x % 256
  }

  /** `Math.Clamp(x, lo, hi)`. */
  function Clamp(x: int, lo: int, hi: int): (r: int)
    requires lo <= hi
    ensures lo <= r <= hi
    ensures lo <= x <= hi ==> r == x
    ensures x < lo ==> r == lo
    ensures x > hi ==> r == hi
  {
    if x < lo then lo else if x > hi then hi else x
  }

  /** `Math.Min(a, b)`. */
  function Min(a: int, b: int): (r: int)
    ensures r <= a && r <= b
    ensures r == a || r == b
  {
    if a <= b then a else b
  }

  /** C# `(int)x` for a double: truncation toward zero. */
  function Trunc(x: real): (r: int)
    ensures x >= 0.0 ==> r as real <= x < r as real + 1.0
    ensures x < 0.0 ==> r as real - 1.0 < x <= r as real
  {
    if x >= 0.0 then x.Floor else -((-x).Floor)
  }

  /** Integer division by a positive divisor is monotone in the dividend. */
  lemma DivMonotone(a: int, b: int, d: int)
    requires 0 <= a <= b && d > 0
    ensures a / d <= b / d
  {
    assert (a / d) * d <= a;
    FloorBound(a / d, b, d);
  }

  /** Scaling a non-negative value by a non-negative integer fraction is monotone. */
  lemma ScaleMonotone(a: int, b: int, n: int, d: int)
    requires 0 <= a <= b && 0 <= n && d > 0
    ensures a * n / d <= b * n / d
  {
    assert a * n <= b * n by {
      assert (b - a) * n >= 0;
    }
    DivMonotone(a * n, b * n, d);
  }

  /** A multiple of `d` at most `m` is at most the floor of `m / d`. */
  lemma FloorBound(p: int, m: int, d: int)
    requires d > 0 && p * d <= m
    ensures p <= m / d
  {
    var q := m / d;
    assert m == q * d + m % d && m % d < d;
    assert p * d < (q + 1) * d;
    CancelStrict(p, q + 1, d);
  }

  /** Cancelling a positive factor preserves <. */
  lemma CancelStrict(a: int, b: int, c: int)
    requires c > 0 && a * c < b * c
    ensures a < b
  {
  }

  /** Cancelling a positive factor preserves <=. */
  lemma CancelFactor(a: int, b: int, c: int)
    requires c > 0 && a * c <= b * c
    ensures a <= b
  {
  }

  /** Scaling by the smaller of two non-negative fractions gives the smaller floor. */
  lemma FractionScaleMonotone(x: int, an: int, ad: int, bn: int, bd: int)
    requires 0 <= x && 0 <= an && 0 < ad && 0 <= bn && 0 < bd
    requires an * bd <= bn * ad
    ensures x * an / ad <= x * bn / bd
  {
    var p := x * an / ad;
    assert p * ad <= x * an;
    assert x * an * bd <= x * bn * ad by {
      assert x * (bn * ad - an * bd) >= 0;
    }
    assert (p * bd) * ad <= (x * bn) * ad by {
      assert (p * ad) * bd <= (x * an) * bd;
    }
    CancelFactor(p * bd, x * bn, ad);
    FloorBound(p, x * bn, bd);
  }

  /** `Random.Next(lo, hi)` for `lo <= hi`, given the generator's raw output: the value
      lies in [lo, hi), and is `lo` when the range is empty. */
  function Pick(raw: int, lo: int, hi: int): (v: int)
    requires lo <= hi
    ensures lo < hi ==> lo <= v < hi
    ensures lo == hi ==> v == lo
  {
    if lo == hi then lo else lo + raw % (hi - lo)
  }

  /** Every value of a non-empty range is produced by some raw output. */
  lemma PickCoversRange(lo: int, hi: int, v: int)
    requires lo <= v < hi
    ensures Pick(v - lo, lo, hi) == v
  {
  }

  /** The head and tail of a concatenation whose first part is not empty. */
  lemma SplitHead<T>(xs: seq<T>, ys: seq<T>)
    requires xs != []
    ensures (xs + ys)[0] == xs[0] && (xs + ys)[1..] == xs[1..] + ys
    ensures |xs| == 1 ==> xs == [xs[0]] && xs[1..] == []
  {
  }

  /** Concatenation is associative and has the empty sequence as unit. */
  lemma Regroup<T>(a: seq<T>, b: seq<T>, c: seq<T>)
    ensures (a + b) + c == a + (b + c)
    ensures a + [] == a && [] + a == a
  {
  }
}
