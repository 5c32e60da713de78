/** Bytes and positional numbers: little-endian digits in any base, and their uniqueness. */
module Bytes {
  type Byte = x: int | 0 <= x < 256
  type Data = seq<Byte>

  function Reversed<T>(s: seq<T>): (r: seq<T>)
    ensures |r| == |s| && forall i | 0 <= i < |s| :: r[i] == s[|s| - 1 - i]
  {
    seq(|s|, i requires 0 <= i < |s| => s[|s| - 1 - i])
  }

  function Repeat<T>(x: T, n: nat): (s: seq<T>)
    ensures |s| == n && forall i | 0 <= i < n :: s[i] == x
  {
    seq(n, _ => x)
  }

  predicate IsDigits(ds: seq<int>, base: int) {
    forall i | 0 <= i < |ds| :: 0 <= ds[i] < base
  }

  /** The number that little-endian digits denote. */
  function Value(ds: seq<int>, base: int): int {
    if ds == [] then 0 else ds[0] + base * Value(ds[1..], base)
  }

  /** The shortest little-endian digits of v; none for zero. */
  function Digits(v: nat, base: int): (ds: seq<int>)
    requires base >= 2
    ensures IsDigits(ds, base)
    ensures ds == [] <==> v == 0
    ensures |ds| > 0 ==> ds[|ds| - 1] != 0
  {
    if v == 0 then [] else
    Smaller(v, base);
    [v % base] + Digits(v / base, base)
  }

  lemma MulMono(a: int, c: int, b: int)
    requires a >= c && b >= 0
    ensures a * b >= c * b
  {
    assert a * b - c * b == (a - c) * b;
  }

  lemma DivDef(v: int, base: int)
    requires base > 0
    ensures v == base * (v / base) + v % base && 0 <= v % base < base
  {
  }

  lemma Smaller(v: int, base: int)
    requires v > 0 && base >= 2
    ensures 0 <= v / base < v
  {
    DivDef(v, base);
    var q := v / base;
    if q < 0 { MulMono(0, q + 1, base); assert false; }
    MulMono(base, 2, q);
  }

  lemma UniqueDivision(q: int, r: int, q': int, r': int, base: int)
    requires base > 0 && 0 <= r < base && 0 <= r' < base && base * q + r == base * q' + r'
    ensures q == q' && r == r'
  {
    if q < q' {
      assert (q' - q) * base == r - r';
      MulMono(q' - q, 1, base);
    } else if q > q' {
      assert (q - q') * base == r' - r;
      MulMono(q - q', 1, base);
    }
  }

  lemma DivMod(lo: int, hi: int, base: int)
    requires base > 0 && 0 <= lo < base
    ensures (lo + base * hi) / base == hi && (lo + base * hi) % base == lo
  {
    var x := lo + base * hi;
    DivDef(x, base);
    UniqueDivision(hi, lo, x / base, x % base, base);
  }

  lemma {:induction false} ValueOfDigits(v: nat, base: int)
    requires base >= 2
    ensures Value(Digits(v, base), base) == v
  {
    if v > 0 {
      Smaller(v, base);
      ValueOfDigits(v / base, base);
      assert Digits(v, base)[1..] == Digits(v / base, base);
      DivDef(v, base);
    }
  }

  lemma {:induction false} ValueBound(ds: seq<int>, base: int)
    requires base >= 2 && IsDigits(ds, base)
    ensures Value(ds, base) >= 0
    ensures |ds| > 0 && ds[|ds| - 1] != 0 ==> Value(ds, base) > 0
  {
    if |ds| > 0 {
      ValueBound(ds[1..], base);
      if |ds| > 1 { assert ds[1..][|ds| - 2] == ds[|ds| - 1]; }
    }
  }

  lemma OneDigit(d: int, base: int)
    requires base >= 2 && 0 <= d < base
    ensures Value([d], base) == d
    ensures d > 0 ==> Digits(d, base) == [d]
  {
    assert [d][1..] == [];
    if d > 0 {
      DivMod(d, 0, base);
      assert Digits(d / base, base) == [];
    }
  }

  /** Digits without a leading zero are the shortest digits of their value. */
  lemma {:induction false} DigitsOfValue(ds: seq<int>, base: int)
    requires base >= 2 && IsDigits(ds, base)
    requires |ds| > 0 ==> ds[|ds| - 1] != 0
    ensures Value(ds, base) >= 0 && Digits(Value(ds, base), base) == ds
  {
    ValueBound(ds, base);
    if |ds| > 0 {
      var rest := ds[1..];
      if |rest| > 0 { assert rest[|rest| - 1] == ds[|ds| - 1]; }
      DigitsOfValue(rest, base);
      DivMod(ds[0], Value(rest, base), base);
      assert ds == [ds[0]] + rest;
    }
  }

  lemma {:induction false} ValueAppend(a: seq<int>, b: seq<int>, base: int)
    ensures Value(a + b, base) == Value(a, base) + Power(base, |a|) * Value(b, base)
  {
    if a == [] {
      assert a + b == b;
    } else {
      assert (a + b)[1..] == a[1..] + b;
      ValueAppend(a[1..], b, base);
      Distribute(a[0], base, Value(a[1..], base), Power(base, |a| - 1), Value(b, base));
    }
  }

  lemma {:induction false} TrailingZero(ds: seq<int>, base: int)
    ensures Value(ds + [0], base) == Value(ds, base)
  {
    if ds != [] {
      assert (ds + [0])[1..] == ds[1..] + [0];
      TrailingZero(ds[1..], base);
    }
  }

  lemma Distribute(d: int, base: int, v: int, p: int, w: int)
    ensures d + base * (v + p * w) == (d + base * v) + (base * p) * w
  {
    assert base * (v + p * w) == base * v + base * (p * w);
    assert base * (p * w) == (base * p) * w;
  }

  function Power(base: int, k: nat): int {
    if k == 0 then 1 else base * Power(base, k - 1)
  }

  // ---- Fixed-width little-endian numbers -----------------------------------

  /** The k low bytes of n. */
  function LeBytes(n: nat, k: nat): (b: Data)
    ensures |b| == k
  {
    if k == 0 then [] else [n % 256] + LeBytes(n / 256, k - 1)
  }

  lemma {:induction false} LeValue(n: nat, k: nat)
    requires n < Power(256, k)
    ensures Value(LeBytes(n, k), 256) == n
  {
    if k > 0 {
      LeValue(n / 256, k - 1);
      assert LeBytes(n, k)[1..] == LeBytes(n / 256, k - 1);
    }
  }

  lemma {:induction false} LeOfValue(b: Data)
    ensures Value(b, 256) >= 0 && LeBytes(Value(b, 256), |b|) == b
  {
    ValueBound(b, 256);
    if b != [] {
      LeOfValue(b[1..]);
      DivMod(b[0], Value(b[1..], 256), 256);
      assert b == [b[0]] + b[1..];
    }
  }

  lemma OneMoreDigit(d: int, base: int, v: int, p: int)
    requires 0 <= d < base && 0 <= v < p
    ensures 0 <= d + base * v < base * p
  {
    MulMono(p, v + 1, base);
    MulMono(v, 0, base);
    assert base * (v + 1) == base * v + base;
    assert (v + 1) * base == base * (v + 1) && p * base == base * p;
  }

  lemma {:induction false} ValueBelow(ds: seq<int>, base: int)
    requires base >= 2 && IsDigits(ds, base)
    ensures 0 <= Value(ds, base) < Power(base, |ds|)
  {
    if ds != [] {
      ValueBelow(ds[1..], base);
      OneMoreDigit(ds[0], base, Value(ds[1..], base), Power(base, |ds| - 1));
    }
  }

  lemma {:induction false} DigitsLength(v: nat, base: int, k: nat)
    requires base >= 2 && v < Power(base, k)
    ensures |Digits(v, base)| <= k
  {
    if v > 0 {
      Smaller(v, base);
      if k > 0 {
        DivDef(v, base);
        if v / base >= Power(base, k - 1) { MulMono(v / base, Power(base, k - 1), base); }
        DigitsLength(v / base, base, k - 1);
      }
    }
  }

  lemma Powers256()
    ensures Power(256, 1) == 0x100 && Power(256, 2) == 0x1_0000 && Power(256, 4) == 0x1_0000_0000
    ensures Power(256, 8) == 0x1_0000_0000_0000_0000
  {
    assert Power(256, 2) == 256 * Power(256, 1);
    assert Power(256, 3) == 256 * Power(256, 2);
    assert Power(256, 4) == 256 * Power(256, 3);
    assert Power(256, 5) == 256 * Power(256, 4);
    assert Power(256, 6) == 256 * Power(256, 5);
    assert Power(256, 7) == 256 * Power(256, 6);
  }
}
