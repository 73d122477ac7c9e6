/** Integer decimal arithmetic behind the timer face: powers of ten, the
    number of significant digits of a value, and the split of a value into
    a fixed number of decimal digits, most significant first. */
module Decimal {

  /** 10^k, the value `(int)Math.pow(10, k)` takes for the small k the timer uses. */
  function Pow10(k: nat): (p: nat)
    ensures p >= 1
  {
    if k == 0 then 1 else 10 * Pow10(k - 1)
  }

  /** Java's `/` on int: truncates toward zero (Dafny's `/` is Euclidean). */
  function Quot(a: int, b: int): (q: int)
    requires b > 0
    ensures a >= 0 ==> q == a / b
    ensures a < 0 ==> q <= 0
  {
    if a >= 0 then a / b else -((-a) / b)
  }

  /** floor(log10 n) for n >= 10, and 0 for every n below ten (negatives included). */
  function Log10(n: int): nat
  {
    if n < 10 then 0 else 1 + Log10(n / 10)
  }

  lemma Pow10Monotone(i: nat, j: nat)
    requires i <= j
    ensures Pow10(i) <= Pow10(j)
    decreases j
  {
    if i < j { Pow10Monotone(i, j - 1); }
  }

  /** d * k is at least d when k is positive. */
  lemma MulAtLeast(d: nat, k: int)
    requires k >= 1
    ensures d * k >= d
  {
    assert d * k == d * (k - 1) + d;
  }

  /** Euclidean division is determined by quotient and remainder. */
  lemma DivModUnique(n: int, d: int, q: int, r: int)
    requires d > 0 && 0 <= r < d && n == d * q + r
    ensures n / d == q && n % d == r
  {
    var q', r' := n / d, n % d;
    assert d * q' + r' == d * q + r;
    assert d * (q' - q) == r - r';
    if q' > q {
      MulAtLeast(d, q' - q);
    } else if q' < q {
      MulAtLeast(d, q - q');
    }
  }

  /** Dividing by a, then by b, is dividing by a * b. */
  lemma DivDiv(n: nat, a: nat, b: nat)
    requires a > 0 && b > 0
    ensures n / (a * b) == (n / a) / b
  {
    var q, r1, r2 := (n / a) / b, n % a, (n / a) % b;
    assert n / a == b * q + r2;
    assert n == a * (b * q + r2) + r1;
    assert n == (a * b) * q + (a * r2 + r1);
    assert a * r2 <= a * (b - 1);
    DivModUnique(n, a * b, q, a * r2 + r1);
  }

  /** The remainder modulo 10p splits into the digit at p and the remainder modulo p. */
  lemma ModSplit(v: nat, p: nat)
    requires p > 0
    ensures v % (10 * p) == ((v / p) % 10) * p + v % p
    ensures (v % (10 * p)) / p == (v / p) % 10
  {
    var hi, d, lo := (v / p) / 10, (v / p) % 10, v % p;
    assert v == p * (v / p) + lo;
    assert v / p == 10 * hi + d;
    Distribute(p, 10 * hi, d);
    assert p * (10 * hi) == (10 * p) * hi;
    MulBelow(d, 9, p);
    DivModUnique(v, 10 * p, hi, d * p + lo);
    DivModUnique(d * p + lo, p, d, lo);
  }

  /** p (a + b) == p a + p b. */
  lemma Distribute(p: int, a: int, b: int)
    ensures p * (a + b) == p * a + p * b
  {
  }

  /** d <= e gives d p <= e p for p >= 0. */
  lemma MulBelow(d: int, e: int, p: nat)
    requires d <= e
    ensures d * p <= e * p
  {
  }

  /** A value below the divisor has quotient 0 and is its own remainder. */
  lemma SmallDiv(v: nat, p: nat)
    requires v < p
    ensures v / p == 0 && v % p == v
  {
    DivModUnique(v, p, 0, v);
  }

  /** The loop guard of findGreatestPowerOfTen holds exactly below Log10. */
  lemma {:induction false} QuotAtLeastTen(n: int, k: nat)
    ensures Quot(n, Pow10(k)) >= 10 <==> k < Log10(n)
    decreases k
  {
    if n < 0 {
    } else if n < 10 {
      if k > 0 {
        SmallDiv(n, Pow10(k));
      }
    } else if k > 0 {
      DivDiv(n, 10, Pow10(k - 1));
      QuotAtLeastTen(n / 10, k - 1);
    }
  }

  lemma {:induction false} Log10Bounds(n: int)
    requires n >= 1
    ensures Pow10(Log10(n)) <= n < Pow10(Log10(n) + 1)
  {
    if n >= 10 {
      Log10Bounds(n / 10);
    }
  }

  /** The bounds characterise Log10: only one exponent satisfies them. */
  lemma Log10Unique(n: int, g: nat)
    requires n >= 1
    requires Pow10(g) <= n < Pow10(g + 1)
    ensures g == Log10(n)
  {
    Log10Bounds(n);
    var l := Log10(n);
    if g < l {
      Pow10Monotone(g + 1, l);
    } else if l < g {
      Pow10Monotone(l + 1, g);
    }
  }

  /** The source's findGreatestPowerOfTen: the largest g with 10^g <= num, by counting up. */
  method FindGreatestPowerOfTen(num: int) returns (greatestPowerOfTen: nat)
    ensures greatestPowerOfTen == Log10(num)
    ensures num >= 1 ==> Pow10(greatestPowerOfTen) <= num < Pow10(greatestPowerOfTen + 1)
    ensures num < 10 ==> greatestPowerOfTen == 0
  {
    greatestPowerOfTen := 0;
    while Quot(num, Pow10(greatestPowerOfTen)) >= 10
      invariant greatestPowerOfTen <= Log10(num)
      decreases Log10(num) - greatestPowerOfTen
    {
      QuotAtLeastTen(num, greatestPowerOfTen);
      greatestPowerOfTen := greatestPowerOfTen + 1;
    }
    QuotAtLeastTen(num, greatestPowerOfTen);
    if num >= 1 {
      Log10Bounds(num);
    }
  }

  /** The n decimal digits of num, most significant first, as the face shows
      them; a negative num shows only zeros. */
  function DecimalDigits(num: int, n: nat): (ds: seq<int>)
    ensures |ds| == n && forall j :: 0 <= j < n ==> 0 <= ds[j] <= 9
  {
    seq(n, j requires 0 <= j < n => if num < 0 then 0 else (num / Pow10(n - 1 - j)) % 10)
  }

  /** Positional value: the sum of ds[j] * 10^(|ds|-1-j). */
  function Value(ds: seq<int>): int
  {
    if ds == [] then 0 else ds[0] * Pow10(|ds| - 1) + Value(ds[1..])
  }

  lemma {:induction false} ValueOfDigits(v: nat, n: nat)
    ensures Value(DecimalDigits(v, n)) == v % Pow10(n)
  {
    if n == 0 {
      SmallDiv(0, 1);
      assert v % 1 == 0;
    } else {
      var ds := DecimalDigits(v, n);
      assert ds[1..] == DecimalDigits(v, n - 1);
      ValueOfDigits(v, n - 1);
      ModSplit(v, Pow10(n - 1));
    }
  }

  /** Recombining the digits of an in-range value gives the value back. */
  lemma DigitsRecombine(num: int, n: nat)
    requires 0 <= num < Pow10(n)
    ensures Value(DecimalDigits(num, n)) == num
    ensures forall j :: 0 <= j < n ==> 0 <= DecimalDigits(num, n)[j] <= 9
  {
    ValueOfDigits(num, n);
    SmallDiv(num, Pow10(n));
  }

  /** Positions above the most significant digit hold 0. */
  lemma LeadingDigitsZero(num: int, n: nat, j: nat)
    requires j < n && n - 1 - j > Log10(num)
    ensures DecimalDigits(num, n)[j] == 0
  {
    if num >= 0 {
      var p := n - 1 - j;
      if num >= 1 {
        Log10Bounds(num);
        Pow10Monotone(Log10(num) + 1, p);
      }
      SmallDiv(num, Pow10(p));
    }
  }

  /** A value between p and 10p has a one-digit, non-zero quotient by p. */
  lemma LeadQuotient(num: int, p: nat)
    requires 0 < p <= num < 10 * p
    ensures 1 <= num / p <= 9
  {
    var q, r := num / p, num % p;
    assert num == p * q + r;
    if q >= 10 {
      MulAtLeast(p, q - 9);
    }
  }

  /** The most significant digit of a positive value is not 0. */
  lemma TopDigitNonZero(num: int, n: nat)
    requires 1 <= num < Pow10(n)
    ensures Log10(num) < n
    ensures DecimalDigits(num, n)[n - 1 - Log10(num)] != 0
  {
    var l := Log10(num);
    Log10Bounds(num);
    if l >= n {
      Pow10Monotone(n, l);
    }
    LeadQuotient(num, Pow10(l));
    assert DecimalDigits(num, n)[n - 1 - l] == (num / Pow10(l)) % 10;
    SmallDiv(num / Pow10(l), 10);
  }
}
