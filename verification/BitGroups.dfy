/** Regrouping bits between widths: the shifting loop, and the number it preserves. */
module BitGroups {
  import opened Wrappers
  import opened Bytes

  /** The number that digits denote, most significant first. */
  function Num(s: seq<int>, base: int): int {
    if s == [] then 0 else Num(s[..|s| - 1], base) * base + s[|s| - 1]
  }

  /** The low k digits of x, most significant first. */
  function Fixed(x: nat, base: int, k: nat): (s: seq<int>)
    requires base >= 2
    ensures |s| == k && IsDigits(s, base)
  {
    if k == 0 then [] else
    DivDef(x, base);
    Quotient(x, base);
    Fixed(x / base, base, k - 1) + [x % base]
  }

  lemma Quotient(x: nat, base: int)
    requires base > 0
    ensures x / base >= 0
  {
    DivDef(x, base);
  }

  lemma QuotientBelow(x: nat, base: int, p: int)
    requires base > 0 && x < base * p
    ensures x / base < p
  {
    DivDef(x, base);
    if x / base >= p { MulMono(x / base, p, base); }
  }

  lemma {:induction false} FixedOfNum(s: seq<int>, base: int)
    requires base >= 2 && IsDigits(s, base)
    ensures Num(s, base) >= 0 && Fixed(Num(s, base), base, |s|) == s
  {
    if s != [] {
      var front, last := s[..|s| - 1], s[|s| - 1];
      FixedOfNum(front, base);
      var q := Num(front, base);
      MulMono(q, 0, base);
      DivMod(last, q, base);
      assert q * base + last == last + base * q;
      assert s == front + [last];
    }
  }

  lemma NumSnoc(s: seq<int>, d: int, base: int)
    ensures Num(s + [d], base) == base * Num(s, base) + d
  {
    assert (s + [d])[..|s|] == s;
  }

  lemma {:induction false} NumOfFixed(x: nat, base: int, k: nat)
    requires base >= 2 && x < Power(base, k)
    ensures Num(Fixed(x, base, k), base) == x
  {
    if k > 0 {
      Quotient(x, base);
      var q, r := x / base, x % base;
      QuotientBelow(x, base, Power(base, k - 1));
      NumOfFixed(q, base, k - 1);
      NumSnoc(Fixed(q, base, k - 1), r, base);
      DivDef(x, base);
    }
  }

  lemma {:induction false} NumBelow(s: seq<int>, base: int)
    requires base >= 2 && IsDigits(s, base)
    ensures 0 <= Num(s, base) < Power(base, |s|)
  {
    if s != [] {
      NumBelow(s[..|s| - 1], base);
      var q, p := Num(s[..|s| - 1], base), Power(base, |s| - 1);
      MulMono(p, q + 1, base);
      MulMono(q, 0, base);
      assert (q + 1) * base == q * base + base;
    }
  }

  // ---- Powers of two -------------------------------------------------------

  function Pow2(k: nat): (p: nat)
    ensures p > 0
  {
    if k == 0 then 1 else 2 * Pow2(k - 1)
  }

  lemma {:induction false} Pow2Add(a: nat, b: nat)
    ensures Pow2(a + b) == Pow2(a) * Pow2(b)
  {
    if a > 0 {
      Pow2Add(a - 1, b);
      var x, y := Pow2(a - 1), Pow2(b);
      assert 2 * (x * y) == (2 * x) * y;
    }
  }

  lemma Pow2Base(k: nat)
    requires k >= 1
    ensures Pow2(k) >= 2
  {
  }

  lemma {:induction false} PowerOfPow2(w: nat, k: nat)
    ensures Power(Pow2(w), k) == Pow2(w * k)
  {
    if k > 0 {
      PowerOfPow2(w, k - 1);
      assert w * k == w + w * (k - 1);
      Pow2Add(w, w * (k - 1));
    }
  }

  lemma DivDiv(a: nat, m: int, n: int)
    requires m > 0 && n > 0
    ensures m * n > 0 && (a / m) / n == a / (m * n)
  {
    MulMono(m, 1, n);
    DivDef(a, m);
    DivDef(a / m, n);
    DivDef(a, m * n);
    var q, r := a / m, a % m;
    var q', r' := q / n, q % n;
    MulMono(r', 0, m);
    MulMono(n - 1, r', m);
    assert m * (n * q' + r') == (m * n) * q' + m * r';
    assert m * (n - 1) == m * n - m;
    assert a == (m * n) * q' + (m * r' + r);
    UniqueDivision(q', m * r' + r, a / (m * n), a % (m * n), m * n);
  }

  lemma ShiftTwice(a: nat, x: nat, y: nat)
    ensures (a / Pow2(x)) / Pow2(y) == a / Pow2(x + y)
  {
    Pow2Add(x, y);
    DivDiv(a, Pow2(x), Pow2(y));
  }

  // ---- Regrouping ----------------------------------------------------------

  predicate Fits(s: seq<int>, w: nat) {
    forall i | 0 <= i < |s| :: 0 <= s[i] < Pow2(w)
  }

  /** Regrouping as arithmetic: the bits of the data, read as one number, cut into groups of
      `to`; what is left over is padded with zeros, or must be zero and less than a group. */
  function Regroup(data: seq<int>, from: nat, to: nat, pad: bool): Option<seq<int>>
    requires from >= 1 && to >= 1
  {
    if !Fits(data, from) then None else
    FitsNum(data, from);
    Pow2Base(to);
    var x := Num(data, Pow2(from));
    var k, left := (|data| * from) / to, (|data| * from) % to;
    if pad then
      if left > 0 then Some(Fixed(x * Pow2(to - left), Pow2(to), k + 1)) else Some(Fixed(x, Pow2(to), k))
    else if left >= from || x % Pow2(left) != 0 then None
    else Quotient(x, Pow2(left)); Some(Fixed(x / Pow2(left), Pow2(to), k))
  }

  lemma GroupsFit(data: seq<int>, from: nat, to: nat, pad: bool)
    requires from >= 1 && to >= 1
    ensures var r := Regroup(data, from, to, pad); r.Some? ==> Fits(r.value, to)
  {
  }

  lemma FitsNum(data: seq<int>, from: nat)
    requires from >= 1 && Fits(data, from)
    ensures Num(data, Pow2(from)) >= 0
  {
    Pow2Base(from);
    NumBelow(data, Pow2(from));
  }

  /** Of `total` bits in the accumulator, all but the low `bits` are out, in groups of `to`. */
  predicate Cut(acc: nat, bits: nat, out: seq<int>, to: nat, total: nat)
    requires to >= 1
  {
    Pow2Base(to);
    Quotient(acc, Pow2(bits));
    |out| * to + bits == total && out == Fixed(acc / Pow2(bits), Pow2(to), |out|)
  }

  /** One more group out of the accumulator. */
  lemma CutOut(acc: nat, bits: nat, out: seq<int>, to: nat, total: nat)
    requires to >= 1 && bits >= to && Cut(acc, bits, out, to, total)
    ensures acc / Pow2(bits - to) >= 0 && Cut(acc, bits - to, out + [(acc / Pow2(bits - to)) % Pow2(to)], to, total)
  {
    Pow2Base(to);
    Quotient(acc, Pow2(bits));
    Quotient(acc, Pow2(bits - to));
    ShiftTwice(acc, bits - to, to);
    assert (|out| + 1) * to == |out| * to + to;
  }

  /** Taking in a symbol moves the groups already out up by its width. */
  lemma CutIn(acc: nat, bits: nat, out: seq<int>, to: nat, total: nat, v: int, from: nat)
    requires to >= 1 && Cut(acc, bits, out, to, total) && 0 <= v < Pow2(from)
    ensures acc * Pow2(from) + v >= 0 && Cut(acc * Pow2(from) + v, bits + from, out, to, total + from)
  {
    Pow2Base(to);
    Quotient(acc, Pow2(bits));
    var next := acc * Pow2(from) + v;
    MulMono(acc, 0, Pow2(from));
    Quotient(next, Pow2(bits + from));
    DivMod(v, acc, Pow2(from));
    assert next == v + Pow2(from) * acc;
    ShiftTwice(next, from, bits);
  }

  /** What has been cut is all the whole groups there are. */
  lemma CutWhole(acc: nat, bits: nat, out: seq<int>, to: nat, total: nat)
    requires to >= 1 && bits < to && Cut(acc, bits, out, to, total)
    ensures |out| == total / to && bits == total % to
  {
    DivMod(bits, |out|, to);
  }

  lemma CutNothing(to: nat)
    requires to >= 1
    ensures Cut(0, 0, [], to, 0)
  {
    Pow2Base(to);
  }

  /** The shifting loop. */
  method ConvertBits(data: seq<int>, from: nat, to: nat, pad: bool) returns (r: Option<seq<int>>)
    requires from >= 1 && to >= 1
    ensures r == Regroup(data, from, to, pad)
  {
    hide Cut; hide Pow2;
    var acc: nat, bits: nat := 0, 0;
    var out: seq<int> := [];
    CutNothing(to);
    assert Num(data[..0], Pow2(from)) == 0;
    for i := 0 to |data|
      invariant Fits(data[..i], from) && acc == Num(data[..i], Pow2(from))
      invariant 0 <= bits < to && Cut(acc, bits, out, to, i * from)
    {
      var v := data[i];
      if v < 0 || v >= Pow2(from) { return None; }
      assert data[..i + 1] == data[..i] + [v];
      NumSnoc(data[..i], v, Pow2(from));
      CutIn(acc, bits, out, to, i * from, v, from);
      ghost var total := i * from + from;
      assert total == (i + 1) * from;
      acc := acc * Pow2(from) + v;
      bits := bits + from;
      while bits >= to
        invariant Cut(acc, bits, out, to, total)
      {
        CutOut(acc, bits, out, to, total);
        bits := bits - to;
        out := out + [(acc / Pow2(bits)) % Pow2(to)];
      }
    }
    assert data[..|data|] == data;
    CutWhole(acc, bits, out, to, |data| * from);
    assert out == Fixed(acc / Pow2(bits), Pow2(to), |out|) by { CutIs(acc, bits, out, to, |data| * from); }
    PadOut(acc, bits, to, |out|);
    LowBitsClear(acc, bits, to);
    if pad {
      r := Some(if bits > 0 then out + [(acc * Pow2(to - bits)) % Pow2(to)] else out);
    } else {
      if bits >= from || (acc * Pow2(to - bits)) % Pow2(to) != 0 { return None; }
      r := Some(out);
    }
  }

  lemma CutIs(acc: nat, bits: nat, out: seq<int>, to: nat, total: nat)
    requires to >= 1 && Cut(acc, bits, out, to, total)
    ensures Pow2(to) >= 2 && acc / Pow2(bits) >= 0 && out == Fixed(acc / Pow2(bits), Pow2(to), |out|)
  {
    Pow2Base(to);
    Quotient(acc, Pow2(bits));
  }

  /** The padded last group is the low bits moved up. */
  lemma PadOut(acc: nat, bits: nat, to: nat, k: nat)
    requires bits < to
    ensures acc / Pow2(bits) >= 0 && acc * Pow2(to - bits) >= 0 && Pow2(to) >= 2
    ensures Fixed(acc * Pow2(to - bits), Pow2(to), k + 1)
            == Fixed(acc / Pow2(bits), Pow2(to), k) + [(acc * Pow2(to - bits)) % Pow2(to)]
    ensures bits == 0 ==> acc / Pow2(bits) == acc
  {
    Pow2Base(to);
    Quotient(acc, Pow2(bits));
    var p := Pow2(to - bits);
    MulMono(acc, 0, p);
    var x := acc * p;
    Pow2Add(to - bits, bits);
    DivMod(0, acc, p);
    assert p * acc == x;
    DivDiv(x, p, Pow2(bits));
  }

  lemma Expand(m: int, q: int, r: int, p: int)
    ensures (m * q + r) * p == (m * p) * q + r * p
  {
  }

  lemma StrictMul(x: int, p: int, q: int)
    requires 0 <= x < p && q > 0
    ensures 0 <= x * q < p * q
  {
    MulMono(x, 0, q);
    MulMono(p, x + 1, q);
    assert (x + 1) * q == x * q + q;
  }

  lemma ModScale(a: nat, m: int, p: int)
    requires m > 0 && p > 0
    ensures m * p > 0 && (a * p) % (m * p) == (a % m) * p
  {
    DivDef(a, m);
    var q, r := a / m, a % m;
    Expand(m, q, r, p);
    StrictMul(r, m, p);
    DivMod(r * p, q, m * p);
  }

  /** The check on the shifted accumulator is a check on its low bits. */
  lemma LowBitsClear(acc: nat, bits: nat, to: nat)
    requires bits < to
    ensures (acc * Pow2(to - bits)) % Pow2(to) == 0 <==> acc % Pow2(bits) == 0
  {
    Pow2Add(bits, to - bits);
    hide Pow2;
    ModScale(acc, Pow2(bits), Pow2(to - bits));
    DivDef(acc, Pow2(bits));
    if acc % Pow2(bits) > 0 { MulMono(acc % Pow2(bits), 1, Pow2(to - bits)); }
  }

  // ---- The two widths are inverse ------------------------------------------

  /** Bytes cut into five-bit symbols with zero padding come back as the same bytes. */
  lemma BytesSymbolsBytes(data: Data)
    ensures var s := Regroup(data, 8, 5, true);
            s.Some? && Fits(s.value, 5) && |s.value| == (8 * |data| + 4) / 5 && Regroup(s.value, 5, 8, false) == Some(data)
  {
    SmallPowers();
    hide Pow2; hide Num; hide Fixed; hide Power;
    var m := |data|;
    var x := Num(data, 256);
    NumBelow(data, 256);
    PowerBits(m);
    var k, left := (8 * m) / 5, (8 * m) % 5;
    var pad := if left == 0 then 0 else 5 - left;
    var n := (8 * m + pad) / 5;
    assert 5 * n == 8 * m + pad;
    var y := x * Pow2(pad);
    Padded(x, m, pad, n);
    var s := Fixed(y, 32, n);
    assert Regroup(data, 8, 5, true) == Some(s);
    NumOfFixed(y, 32, n);
    assert (|s| * 5) / 8 == m && (|s| * 5) % 8 == pad;
    DivMod(0, x, Pow2(pad));
    assert Pow2(pad) * x == y;
    FixedOfNum(data, 256);
  }

  lemma SmallPowers()
    ensures Pow2(0) == 1 && Pow2(5) == 32 && Pow2(8) == 256
  {
    assert Pow2(3) == 8;
    assert Pow2(6) == 64;
  }

  lemma PowerBits(m: nat)
    ensures Power(256, m) == Pow2(8 * m) && Power(32, m) == Pow2(5 * m)
  {
    SmallPowers();
    PowerOfPow2(8, m);
    PowerOfPow2(5, m);
  }

  lemma Padded(x: nat, m: nat, pad: nat, n: nat)
    requires x < Pow2(8 * m) && 5 * n == 8 * m + pad
    ensures 0 <= x * Pow2(pad) < Power(32, n)
  {
    PowerBits(n);
    Pow2Add(8 * m, pad);
    hide Pow2; hide Power;
    StrictMul(x, Pow2(8 * m), Pow2(pad));
  }
}
