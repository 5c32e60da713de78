/** The checksums of bech32 and CashAddr: linear codes over the symbols, as machine words. */
module Checksum {
  import opened Wrappers
  import opened Bytes

  /** The two codes differ in the width of the state, the generators and the checksum length. */
  datatype Code = Bech32 | CashAddr

  function Length(code: Code): nat {
    if code.Bech32? then 6 else 8
  }

  datatype Generators = Generators(g0: bv40, g1: bv40, g2: bv40, g3: bv40, g4: bv40)

  function GeneratorsOf(code: Code): Generators {
    if code.Bech32? then Generators(0x3b6a57b2, 0x26508e6d, 0x1ea119fa, 0x3d4233dd, 0x2a1462b3)
    else Generators(0x98f2bc8e61, 0x79b76d99e2, 0xf33e5fb3c4, 0xae2eabe2a8, 0x1e4f43e470)
  }

  function Xor(a: bv40, b: bv40): bv40 {
    a ^ b
  }

  function Part(b: bv40, bit: bv40, g: bv40): bv40 {
    if b & bit != 0 then g else 0
  }

  /** The generators selected by the low five bits of b. */
  function Feedback(g: Generators, b: bv40): bv40 {
    Xor(Xor(Xor(Xor(Part(b, 1, g.g0), Part(b, 2, g.g1)), Part(b, 4, g.g2)), Part(b, 8, g.g3)), Part(b, 16, g.g4))
  }

  function Up(code: Code, c: bv40): bv40 {
    if code.Bech32? then (c & 0x1ffffff) << 5 else (c & 0x7ffffffff) << 5
  }

  function Carry(code: Code, c: bv40): bv40 {
    if code.Bech32? then c >> 25 else c >> 35
  }

  function Step(code: Code, c: bv40, v: bv40): bv40 {
    Xor(Xor(Up(code, c), v), Feedback(GeneratorsOf(code), Carry(code, c)))
  }

  /** The state after the values, from the state c. */
  function Fold(code: Code, c: bv40, vs: seq<bv40>): bv40 {
    if vs == [] then c else Step(code, Fold(code, c, vs[..|vs| - 1]), vs[|vs| - 1])
  }

  /** A five-bit symbol. */
  type Symbol = x: int | 0 <= x < 32

  function Word(v: Symbol): bv40 {
    v as bv40
  }

  function Words(vs: seq<Symbol>): (ws: seq<bv40>)
    ensures |ws| == |vs| && forall i | 0 <= i < |vs| :: ws[i] == Word(vs[i])
  {
    seq(|vs|, i requires 0 <= i < |vs| => Word(vs[i]))
  }

  function Polymod(code: Code, vs: seq<Symbol>): bv40 {
    Fold(code, 1, Words(vs))
  }

  method ComputePolymod(code: Code, vs: seq<Symbol>) returns (c: bv40)
    ensures c == Polymod(code, vs)
  {
    hide Xor; hide Up; hide Carry; hide Feedback; hide Word;
    var g := GeneratorsOf(code);
    ghost var ws := Words(vs);
    c := 1;
    for i := 0 to |vs|
      invariant c == Fold(code, 1, ws[..i])
    {
      var b := Carry(code, c);
      var up := Xor(Up(code, c), Word(vs[i]));
      assert ws[..i + 1][..i] == ws[..i];
      c := AddFeedback(g, b, up);
    }
    assert ws[..|vs|] == ws;
  }

  /** The generators are added in one bit at a time. */
  method AddFeedback(g: Generators, b: bv40, c0: bv40) returns (c: bv40)
    ensures c == Xor(c0, Feedback(g, b))
  {
    hide Xor; hide Part;
    c := Xor(c0, Part(b, 1, g.g0));
    c := Xor(c, Part(b, 2, g.g1));
    c := Xor(c, Part(b, 4, g.g2));
    c := Xor(c, Part(b, 8, g.g3));
    c := Xor(c, Part(b, 16, g.g4));
    SumOfFive(c0, Part(b, 1, g.g0), Part(b, 2, g.g1), Part(b, 4, g.g2), Part(b, 8, g.g3), Part(b, 16, g.g4));
  }

  lemma SumOfFive(c: bv40, p0: bv40, p1: bv40, p2: bv40, p3: bv40, p4: bv40)
    ensures Xor(Xor(Xor(Xor(Xor(c, p0), p1), p2), p3), p4) == Xor(c, Xor(Xor(Xor(Xor(p0, p1), p2), p3), p4))
  {
    XorAssoc(c, p0, p1);
    XorAssoc(c, Xor(p0, p1), p2);
    XorAssoc(c, Xor(Xor(p0, p1), p2), p3);
    XorAssoc(c, Xor(Xor(Xor(p0, p1), p2), p3), p4);
    hide Xor;
  }

  // ---- Linearity -----------------------------------------------------------

  lemma OneBit(a: bv40)
    ensures a & 1 == 0 || a & 1 == 1
    ensures a & 2 == 0 || a & 2 == 2
    ensures a & 4 == 0 || a & 4 == 4
    ensures a & 8 == 0 || a & 8 == 8
    ensures a & 16 == 0 || a & 16 == 16
  {
  }

  lemma AndXor(a: bv40, b: bv40, m: bv40)
    ensures Xor(a, b) & m == Xor(a & m, b & m)
  {
  }

  lemma XorZero(g: bv40)
    ensures Xor(g, g) == 0 && Xor(0, g) == g && Xor(g, 0) == g
  {
  }

  lemma XorComm(a: bv40, b: bv40)
    ensures Xor(a, b) == Xor(b, a)
  {
  }

  lemma AssocWords(a: bv40, b: bv40, c: bv40)
    ensures (a ^ b) ^ c == a ^ (b ^ c)
  {
  }

  lemma XorAssoc(a: bv40, b: bv40, c: bv40)
    ensures Xor(Xor(a, b), c) == Xor(a, Xor(b, c))
  {
    AssocWords(a, b, c);
  }

  lemma Interchange(a: bv40, a': bv40, b: bv40, b': bv40)
    ensures Xor(Xor(a, a'), Xor(b, b')) == Xor(Xor(a, b), Xor(a', b'))
  {
    XorAssoc(a, a', Xor(b, b'));
    XorAssoc(a', b, b');
    XorComm(a', b);
    XorAssoc(b, a', b');
    XorAssoc(a, b, Xor(a', b'));
    hide Xor;
  }

  lemma PartLinear(a: bv40, b: bv40, bit: bv40, g: bv40)
    requires bit == 1 || bit == 2 || bit == 4 || bit == 8 || bit == 16
    ensures Part(Xor(a, b), bit, g) == Xor(Part(a, bit, g), Part(b, bit, g))
  {
    AndXor(a, b, bit);
    OneBit(a);
    OneBit(b);
    XorZero(g);
    XorZero(bit);
    XorZero(0);
    hide Xor;
  }

  lemma FeedbackLinear(g: Generators, a: bv40, b: bv40)
    ensures Feedback(g, Xor(a, b)) == Xor(Feedback(g, a), Feedback(g, b))
  {
    hide Part; hide Xor;
    PartLinear(a, b, 1, g.g0);
    PartLinear(a, b, 2, g.g1);
    PartLinear(a, b, 4, g.g2);
    PartLinear(a, b, 8, g.g3);
    PartLinear(a, b, 16, g.g4);
    var a0, a1, a2, a3, a4 := Part(a, 1, g.g0), Part(a, 2, g.g1), Part(a, 4, g.g2), Part(a, 8, g.g3), Part(a, 16, g.g4);
    var b0, b1, b2, b3, b4 := Part(b, 1, g.g0), Part(b, 2, g.g1), Part(b, 4, g.g2), Part(b, 8, g.g3), Part(b, 16, g.g4);
    Interchange(a0, b0, a1, b1);
    Interchange(Xor(a0, a1), Xor(b0, b1), a2, b2);
    Interchange(Xor(Xor(a0, a1), a2), Xor(Xor(b0, b1), b2), a3, b3);
    Interchange(Xor(Xor(Xor(a0, a1), a2), a3), Xor(Xor(Xor(b0, b1), b2), b3), a4, b4);
  }

  lemma LeftWords(a: bv40, b: bv40)
    ensures (a ^ b) << 5 == (a << 5) ^ (b << 5)
    ensures (a ^ b) & 0x1ffffff == (a & 0x1ffffff) ^ (b & 0x1ffffff)
    ensures (a ^ b) & 0x7ffffffff == (a & 0x7ffffffff) ^ (b & 0x7ffffffff)
  {
  }

  lemma RightWords25(a: bv40, b: bv40)
    ensures (a ^ b) >> 25 == (a >> 25) ^ (b >> 25)
  {
  }

  lemma RightWords35(a: bv40, b: bv40)
    ensures (a ^ b) >> 35 == (a >> 35) ^ (b >> 35)
  {
  }

  lemma UpLinear(code: Code, a: bv40, b: bv40)
    ensures Up(code, a ^ b) == Up(code, a) ^ Up(code, b)
  {
    LeftWords(a, b);
    if code.Bech32? { LeftWords(a & 0x1ffffff, b & 0x1ffffff); } else { LeftWords(a & 0x7ffffffff, b & 0x7ffffffff); }
  }

  lemma CarryLinear(code: Code, a: bv40, b: bv40)
    ensures Carry(code, a ^ b) == Carry(code, a) ^ Carry(code, b)
  {
    if code.Bech32? { RightWords25(a, b); } else { RightWords35(a, b); }
  }

  lemma ShiftsLinear(code: Code, a: bv40, b: bv40)
    ensures Up(code, Xor(a, b)) == Xor(Up(code, a), Up(code, b))
    ensures Carry(code, Xor(a, b)) == Xor(Carry(code, a), Carry(code, b))
  {
    hide Up; hide Carry;
    UpLinear(code, a, b);
    CarryLinear(code, a, b);
  }

  lemma StepLinear(code: Code, a: bv40, b: bv40, v: bv40, w: bv40)
    ensures Step(code, Xor(a, b), Xor(v, w)) == Xor(Step(code, a, v), Step(code, b, w))
  {
    hide Feedback; hide Up; hide Carry; hide Xor; hide GeneratorsOf;
    var g := GeneratorsOf(code);
    ShiftsLinear(code, a, b);
    FeedbackLinear(g, Carry(code, a), Carry(code, b));
    Interchange(Up(code, a), Up(code, b), v, w);
    Interchange(Xor(Up(code, a), v), Xor(Up(code, b), w), Feedback(g, Carry(code, a)), Feedback(g, Carry(code, b)));
  }

  /** Folding the sum of two states over the sum of two symbol strings sums the results. */
  lemma {:induction false} FoldLinear(code: Code, a: bv40, b: bv40, vs: seq<bv40>, ws: seq<bv40>, sum: seq<bv40>)
    requires |vs| == |ws| == |sum| && forall i | 0 <= i < |vs| :: sum[i] == Xor(vs[i], ws[i])
    ensures Fold(code, Xor(a, b), sum) == Xor(Fold(code, a, vs), Fold(code, b, ws))
  {
    hide Step; hide Xor;
    if vs != [] {
      var n := |vs| - 1;
      FoldLinear(code, a, b, vs[..n], ws[..n], sum[..n]);
      StepLinear(code, Fold(code, a, vs[..n]), Fold(code, b, ws[..n]), vs[n], ws[n]);
    }
  }

  lemma {:induction false} FoldAppend(code: Code, c: bv40, vs: seq<bv40>, ws: seq<bv40>)
    ensures Fold(code, c, vs + ws) == Fold(code, Fold(code, c, vs), ws)
  {
    hide Step;
    if ws == [] {
      assert vs + ws == vs;
    } else {
      var n := |ws| - 1;
      assert (vs + ws)[..|vs| + n] == vs + ws[..n];
      FoldAppend(code, c, vs, ws[..n]);
    }
  }

  // ---- The checksum --------------------------------------------------------

  /** The k-th five-bit group of p, from the low end. */
  function Group(p: bv40, k: nat): (v: bv40)
    ensures v <= 31
  {
    if k == 0 then p & 31
    else if k == 1 then (p >> 5) & 31
    else if k == 2 then (p >> 10) & 31
    else if k == 3 then (p >> 15) & 31
    else if k == 4 then (p >> 20) & 31
    else if k == 5 then (p >> 25) & 31
    else if k == 6 then (p >> 30) & 31
    else (p >> 35) & 31
  }

  lemma SmallWord(v: bv40)
    requires v <= 31
    ensures 0 <= v as int < 32 && Word(v as int) == v
  {
  }

  /** The checksum symbols of p, most significant first. */
  function Spread(code: Code, p: bv40): (s: seq<Symbol>)
    ensures |s| == Length(code)
  {
    seq(Length(code), i requires 0 <= i < Length(code) =>
      SmallWord(Group(p, Length(code) - 1 - i)); Group(p, Length(code) - 1 - i) as int)
  }

  function Checksum(code: Code, vs: seq<Symbol>, target: bv40): (s: seq<Symbol>)
    ensures |s| == Length(code)
  {
    Spread(code, Xor(Polymod(code, vs + Repeat<Symbol>(0, Length(code))), target))
  }

  method CreateChecksum(code: Code, vs: seq<Symbol>, target: bv40) returns (out: seq<Symbol>)
    ensures out == Checksum(code, vs, target)
  {
    hide Polymod; hide Xor; hide Spread;
    var c := ComputePolymod(code, vs + Repeat<Symbol>(0, Length(code)));
    out := SpreadOut(code, Xor(c, target));
  }

  method SpreadOut(code: Code, p: bv40) returns (out: seq<Symbol>)
    ensures out == Spread(code, p)
  {
    hide Group;
    out := [];
    for i := 0 to Length(code)
      invariant |out| == i && forall k | 0 <= k < i :: out[k] == Spread(code, p)[k]
    {
      SmallWord(Group(p, Length(code) - 1 - i));
      out := out + [Group(p, Length(code) - 1 - i) as int];
    }
  }

  /** A group appended at the low end. */
  function Join(c: bv40, v: bv40): bv40 {
    (c << 5) ^ v
  }

  lemma QuietWords(c: bv40, v: bv40)
    ensures c < 0x2000000 ==> c >> 25 == 0 && (c & 0x1ffffff) << 5 == c << 5
    ensures c < 0x800000000 ==> c >> 35 == 0 && (c & 0x7ffffffff) << 5 == c << 5
  {
  }

  /** While the state is small nothing is carried out and the symbols line up. */
  lemma QuietStep(code: Code, c: bv40, v: bv40)
    requires c < (if code.Bech32? then 0x2000000 else 0x800000000)
    ensures Step(code, c, v) == Join(c, v)
  {
    QuietWords(c, v);
    var g := GeneratorsOf(code);
    NoFeedback(g);
    XorZero((c << 5) ^ v);
    hide Feedback; hide GeneratorsOf;
  }

  lemma NoFeedback(g: Generators)
    ensures Feedback(g, 0) == 0
  {
    XorZero(0);
    hide Xor;
  }

  lemma RepackWords30(p: bv40)
    requires p < 0x40000000
    ensures var c1 := ((0 as bv40) << 5) ^ ((p >> 25) & 31);
            var c2 := (c1 << 5) ^ ((p >> 20) & 31);
            var c3 := (c2 << 5) ^ ((p >> 15) & 31);
            var c4 := (c3 << 5) ^ ((p >> 10) & 31);
            var c5 := (c4 << 5) ^ ((p >> 5) & 31);
            && c1 < 0x2000000 && c2 < 0x2000000 && c3 < 0x2000000 && c4 < 0x2000000 && c5 < 0x2000000
            && (c5 << 5) ^ (p & 31) == p
  {
  }

  lemma Repack30(p: bv40)
    requires p < 0x40000000
    ensures var c1 := Join(0, Group(p, 5));
            var c2 := Join(c1, Group(p, 4));
            var c3 := Join(c2, Group(p, 3));
            var c4 := Join(c3, Group(p, 2));
            var c5 := Join(c4, Group(p, 1));
            && c1 < 0x2000000 && c2 < 0x2000000 && c3 < 0x2000000 && c4 < 0x2000000 && c5 < 0x2000000
            && Join(c5, Group(p, 0)) == p
  {
    RepackWords30(p);
  }

  lemma RepackWords40(p: bv40)
    ensures var c1 := ((0 as bv40) << 5) ^ ((p >> 35) & 31);
            var c2 := (c1 << 5) ^ ((p >> 30) & 31);
            var c3 := (c2 << 5) ^ ((p >> 25) & 31);
            var c4 := (c3 << 5) ^ ((p >> 20) & 31);
            var c5 := (c4 << 5) ^ ((p >> 15) & 31);
            var c6 := (c5 << 5) ^ ((p >> 10) & 31);
            var c7 := (c6 << 5) ^ ((p >> 5) & 31);
            && c1 < 0x800000000 && c2 < 0x800000000 && c3 < 0x800000000 && c4 < 0x800000000 && c5 < 0x800000000
            && c6 < 0x800000000 && c7 < 0x800000000
            && (c7 << 5) ^ (p & 31) == p
  {
  }

  lemma Repack40(p: bv40)
    ensures var c1 := Join(0, Group(p, 7));
            var c2 := Join(c1, Group(p, 6));
            var c3 := Join(c2, Group(p, 5));
            var c4 := Join(c3, Group(p, 4));
            var c5 := Join(c4, Group(p, 3));
            var c6 := Join(c5, Group(p, 2));
            var c7 := Join(c6, Group(p, 1));
            && c1 < 0x800000000 && c2 < 0x800000000 && c3 < 0x800000000 && c4 < 0x800000000 && c5 < 0x800000000
            && c6 < 0x800000000 && c7 < 0x800000000
            && Join(c7, Group(p, 0)) == p
  {
    RepackWords40(p);
  }

  /** The groups of p packed back together, i of them so far. */
  function Packed(code: Code, p: bv40, i: nat): bv40
    requires i <= Length(code)
  {
    if i == 0 then 0 else Join(Packed(code, p, i - 1), Group(p, Length(code) - i))
  }

  lemma Packed30(p: bv40)
    requires p < 0x40000000
    ensures forall i | 0 <= i < 6 :: Packed(Bech32, p, i) < 0x2000000
    ensures Packed(Bech32, p, 6) == p
  {
    hide Join; hide Group;
    Repack30(p);
    assert Packed(Bech32, p, 0) == 0;
    assert Packed(Bech32, p, 1) == Join(Packed(Bech32, p, 0), Group(p, 5));
    assert Packed(Bech32, p, 2) == Join(Packed(Bech32, p, 1), Group(p, 4));
    assert Packed(Bech32, p, 3) == Join(Packed(Bech32, p, 2), Group(p, 3));
    assert Packed(Bech32, p, 4) == Join(Packed(Bech32, p, 3), Group(p, 2));
    assert Packed(Bech32, p, 5) == Join(Packed(Bech32, p, 4), Group(p, 1));
    assert Packed(Bech32, p, 6) == Join(Packed(Bech32, p, 5), Group(p, 0));
  }

  lemma Packed40(p: bv40)
    ensures forall i | 0 <= i < 8 :: Packed(CashAddr, p, i) < 0x800000000
    ensures Packed(CashAddr, p, 8) == p
  {
    hide Join; hide Group;
    Repack40(p);
    assert Packed(CashAddr, p, 0) == 0;
    assert Packed(CashAddr, p, 1) == Join(Packed(CashAddr, p, 0), Group(p, 7));
    assert Packed(CashAddr, p, 2) == Join(Packed(CashAddr, p, 1), Group(p, 6));
    assert Packed(CashAddr, p, 3) == Join(Packed(CashAddr, p, 2), Group(p, 5));
    assert Packed(CashAddr, p, 4) == Join(Packed(CashAddr, p, 3), Group(p, 4));
    assert Packed(CashAddr, p, 5) == Join(Packed(CashAddr, p, 4), Group(p, 3));
    assert Packed(CashAddr, p, 6) == Join(Packed(CashAddr, p, 5), Group(p, 2));
    assert Packed(CashAddr, p, 7) == Join(Packed(CashAddr, p, 6), Group(p, 1));
    assert Packed(CashAddr, p, 8) == Join(Packed(CashAddr, p, 7), Group(p, 0));
  }

  lemma {:induction false} FoldPacks(code: Code, p: bv40, w: seq<bv40>, i: nat)
    requires i <= Length(code) == |w| && forall k | 0 <= k < |w| :: w[k] == Group(p, |w| - 1 - k)
    requires forall k | 0 <= k < |w| :: Packed(code, p, k) < (if code.Bech32? then 0x2000000 else 0x800000000)
    ensures Fold(code, 0, w[..i]) == Packed(code, p, i)
  {
    hide Step; hide Group; hide Join;
    if i > 0 {
      FoldPacks(code, p, w, i - 1);
      assert w[..i][..i - 1] == w[..i - 1];
      QuietStep(code, Packed(code, p, i - 1), w[i - 1]);
    }
  }

  /** Folding the groups of p from the zero state rebuilds p. */
  lemma GroupsRebuild(code: Code, p: bv40)
    requires code.Bech32? ==> p < 0x40000000
    ensures Fold(code, 0, Words(Spread(code, p))) == p
  {
    hide Fold; hide Packed; hide Group; hide Word;
    var w := Words(Spread(code, p));
    var n := Length(code);
    forall i | 0 <= i < n ensures w[i] == Group(p, n - 1 - i) { SmallWord(Group(p, n - 1 - i)); }
    if code.Bech32? { Packed30(p); } else { Packed40(p); }
    FoldPacks(code, p, w, n);
    assert w[..n] == w;
  }

  lemma SmallWords(c: bv40, v: bv40, g: bv40)
    requires v <= 31 && g < 0x40000000
    ensures ((c & 0x1ffffff) << 5) ^ v ^ g < 0x40000000
  {
  }

  lemma SmallFeedback(b: bv40)
    ensures Feedback(GeneratorsOf(Bech32), b) < 0x40000000
  {
    var g := GeneratorsOf(Bech32);
    SmallXor(Part(b, 1, g.g0), Part(b, 2, g.g1));
    SmallXor(Xor(Part(b, 1, g.g0), Part(b, 2, g.g1)), Part(b, 4, g.g2));
    SmallXor(Xor(Xor(Part(b, 1, g.g0), Part(b, 2, g.g1)), Part(b, 4, g.g2)), Part(b, 8, g.g3));
    SmallXor(Xor(Xor(Xor(Part(b, 1, g.g0), Part(b, 2, g.g1)), Part(b, 4, g.g2)), Part(b, 8, g.g3)), Part(b, 16, g.g4));
    hide Xor;
  }

  lemma SmallXor(a: bv40, b: bv40)
    ensures a < 0x40000000 && b < 0x40000000 ==> Xor(a, b) < 0x40000000
  {
  }

  /** The bech32 state never leaves its thirty bits. */
  lemma SmallStep(c: bv40, v: bv40)
    requires v <= 31
    ensures Step(Bech32, c, v) < 0x40000000
  {
    SmallFeedback(Carry(Bech32, c));
    SmallWords(c, v, Feedback(GeneratorsOf(Bech32), Carry(Bech32, c)));
    hide Feedback; hide GeneratorsOf;
  }

  lemma SmallPolymod(vs: seq<Symbol>)
    requires vs != []
    ensures Polymod(Bech32, vs) < 0x40000000
  {
    hide Step;
    var ws := Words(vs);
    SymbolWord(vs[|vs| - 1]);
    SmallStep(Fold(Bech32, 1, ws[..|ws| - 1]), ws[|ws| - 1]);
  }

  lemma SymbolWord(v: Symbol)
    ensures Word(v) <= 31
  {
  }

  predicate Target(code: Code, k: bv40) {
    code.Bech32? ==> k < 0x40000000
  }

  lemma PolymodAppend(code: Code, vs: seq<Symbol>, ws: seq<Symbol>)
    ensures Polymod(code, vs + ws) == Fold(code, Polymod(code, vs), Words(ws))
  {
    hide Fold; hide Word;
    assert Words(vs + ws) == Words(vs) + Words(ws);
    FoldAppend(code, 1, Words(vs), Words(ws));
  }

  /** The symbols after a state act by themselves, added to what the state does. */
  lemma TailActsAlone(code: Code, start: bv40, cs: seq<Symbol>)
    ensures Fold(code, start, Words(cs)) == Xor(Fold(code, start, Words(Repeat<Symbol>(0, |cs|))), Fold(code, 0, Words(cs)))
  {
    hide Fold; hide Xor;
    forall i | 0 <= i < |cs| ensures Words(cs)[i] == Xor(Words(Repeat<Symbol>(0, |cs|))[i], Words(cs)[i]) {
      XorZero(Words(cs)[i]);
    }
    FoldLinear(code, start, 0, Words(Repeat<Symbol>(0, |cs|)), Words(cs), Words(cs));
    XorZero(start);
  }

  /** Values followed by their checksum fold to the target. */
  lemma ChecksumVerifies(code: Code, vs: seq<Symbol>, k: bv40)
    requires Target(code, k)
    ensures Polymod(code, vs + Checksum(code, vs, k)) == k
  {
    hide Fold; hide Spread; hide Xor; hide Polymod; hide Words;
    var zs, cs := Repeat<Symbol>(0, Length(code)), Checksum(code, vs, k);
    var f := Polymod(code, vs + zs);
    if code.Bech32? {
      SmallPolymod(vs + zs);
      SmallXor(f, k);
    }
    PolymodAppend(code, vs, zs);
    PolymodAppend(code, vs, cs);
    TailActsAlone(code, Polymod(code, vs), cs);
    GroupsRebuild(code, Xor(f, k));
    XorAssoc(f, f, k);
    XorZero(f);
    XorZero(k);
  }
}
