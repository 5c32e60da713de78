/** Which substituted symbols the checksums catch. */
module Substitution {
  import opened Wrappers
  import opened Bytes
  import opened Checksum

  // ---- What a difference of symbols does -----------------------------------

  predicate DiffersBy(vs: seq<Symbol>, ws: seq<Symbol>, ds: seq<bv40>) {
    |vs| == |ws| == |ds| && forall i | 0 <= i < |vs| :: Word(ws[i]) == Xor(Word(vs[i]), ds[i])
  }

  /** A substitution changes the fold by the fold of the difference alone. */
  lemma SyndromeAdds(code: Code, vs: seq<Symbol>, ws: seq<Symbol>, ds: seq<bv40>)
    requires DiffersBy(vs, ws, ds)
    ensures Polymod(code, ws) == Xor(Polymod(code, vs), Fold(code, 0, ds))
  {
    hide Fold; hide Xor; hide Word;
    XorZero(1);
    FoldLinear(code, 1, 0, Words(vs), ds, Words(ws));
  }

  /** The segwit decoder takes either constant. */
  predicate Accepts(vs: seq<Symbol>) {
    Polymod(Bech32, vs) == 1 || Polymod(Bech32, vs) == 0x2bc
  }

  /** The segwit decoder misses a substitution exactly if the fold of the difference is zero, or
      the difference of its two constants. */
  lemma MissedExactly(vs: seq<Symbol>, ws: seq<Symbol>, ds: seq<bv40>)
    requires DiffersBy(vs, ws, ds) && Polymod(Bech32, vs) in {1, 0x2bc}
    ensures Accepts(ws) <==> Fold(Bech32, 0, ds) == 0
                             || Fold(Bech32, 0, ds) == 0x2bd
  {
    SyndromeAdds(Bech32, vs, ws, ds);
    hide Fold; hide Polymod;
    EitherConstant(Polymod(Bech32, vs), Fold(Bech32, 0, ds));
  }

  lemma EitherConstant(p: bv40, d: bv40)
    requires p == 1 || p == 0x2bc
    ensures Xor(p, d) == 1 || Xor(p, d) == 0x2bc <==> d == 0 || d == 0x2bd
  {
    XorSelf(1, d);
    XorSelf(0x2bc, d);
    Constants();
    XorComm(1, 0x2bc);
  }

  lemma Constants()
    ensures Xor(1, 0x2bc) == 0x2bd && Xor(1, 1) == 0 && Xor(0x2bc, 0x2bc) == 0
  {
  }

  /** What is added once is known from the result. */
  lemma XorSelf(a: bv40, d: bv40)
    ensures forall r: bv40 :: Xor(a, d) == r ==> d == Xor(a, r)
    ensures forall r: bv40 :: d == Xor(a, r) ==> Xor(a, d) == r
  {
    forall r: bv40 | Xor(a, d) == r ensures d == Xor(a, r) { TwiceWords(a, d); }
    forall r: bv40 | d == Xor(a, r) ensures Xor(a, d) == r { TwiceWords(a, r); }
  }

  lemma TwiceWords(a: bv40, d: bv40)
    ensures a ^ (a ^ d) == d
  {
  }

  // ---- A single symbol -----------------------------------------------------

  /** The state k zero symbols later. */
  function Shift(code: Code, c: bv40, k: nat): bv40 {
    if k == 0 then c else Step(code, Shift(code, c, k - 1), 0)
  }

  function Nothing(n: nat): seq<bv40> {
    Repeat<bv40>(0, n)
  }

  lemma {:induction false} FoldsToShift(code: Code, c: bv40, k: nat)
    ensures Fold(code, c, Nothing(k)) == Shift(code, c, k)
  {
    hide Step;
    if k > 0 {
      assert Nothing(k)[..k - 1] == Nothing(k - 1);
      FoldsToShift(code, c, k - 1);
    }
  }

  lemma ZeroStays(code: Code)
    ensures Step(code, 0, 0) == 0
  {
  }

  lemma FirstSymbol(code: Code, e: bv40)
    ensures Step(code, 0, e) == e
  {
    ZeroParts(code);
    hide Up; hide Carry; hide Feedback; hide GeneratorsOf;
    ZeroWords(e);
  }

  lemma ZeroParts(code: Code)
    ensures Up(code, 0) == 0 && Feedback(GeneratorsOf(code), Carry(code, 0)) == 0
  {
  }

  lemma ZeroWords(e: bv40)
    ensures (0 ^ e) ^ 0 == e
  {
  }

  lemma {:induction false} ZeroShift(code: Code, k: nat)
    ensures Shift(code, 0, k) == 0
  {
    hide Step;
    ZeroStays(code);
    if k > 0 { ZeroShift(code, k - 1); }
  }

  /** One differing symbol, q symbols from the end. */
  lemma OneSyndrome(code: Code, p: nat, e: bv40, q: nat)
    ensures Fold(code, 0, Nothing(p) + [e] + Nothing(q)) == Shift(code, e, q)
  {
    hide Fold; hide Step;
    FoldAppend(code, 0, Nothing(p) + [e], Nothing(q));
    FoldAppend(code, 0, Nothing(p), [e]);
    FoldsToShift(code, 0, p);
    ZeroShift(code, p);
    FoldOne(code, e);
    FoldsToShift(code, e, q);
  }

  lemma FoldOne(code: Code, e: bv40)
    ensures Fold(code, 0, [e]) == e
  {
    hide Step;
    FirstSymbol(code, e);
    assert Fold(code, 0, []) == 0;
  }

  // ---- The shift loses nothing ---------------------------------------------

  /** A state of the code's width. */
  predicate InWidth(code: Code, c: bv40) {
    code.Bech32? ==> c < 0x40000000
  }

  /** The generators' lowest symbols are independent. */
  lemma LowSymbols(code: Code, b: bv40)
    requires b <= 31 && Feedback(GeneratorsOf(code), b) & 31 == 0
    ensures b == 0
  {
  }

  lemma Kernel30(c: bv40, f: bv40)
    requires c < 0x40000000 && ((c & 0x1ffffff) << 5) ^ 0 ^ f == 0
    ensures f & 31 == 0 && c >> 25 <= 31 && (c >> 25 == 0 && f == 0 ==> c == 0)
  {
  }

  lemma Kernel40(c: bv40, f: bv40)
    requires ((c & 0x7ffffffff) << 5) ^ 0 ^ f == 0
    ensures f & 31 == 0 && c >> 35 <= 31 && (c >> 35 == 0 && f == 0 ==> c == 0)
  {
  }

  lemma KernelEmpty(code: Code, c: bv40)
    requires InWidth(code, c) && Step(code, c, 0) == 0
    ensures c == 0
  {
    var f := Feedback(GeneratorsOf(code), Carry(code, c));
    if code.Bech32? { Kernel30(c, f); } else { Kernel40(c, f); }
    LowSymbols(code, Carry(code, c));
    ZeroParts(code);
  }

  lemma SameWords(a: bv40, b: bv40)
    ensures a ^ b == 0 <==> a == b
    ensures a < 0x40000000 && b < 0x40000000 ==> a ^ b < 0x40000000
  {
  }

  lemma StepInjective(code: Code, a: bv40, b: bv40)
    requires InWidth(code, a) && InWidth(code, b) && Step(code, a, 0) == Step(code, b, 0)
    ensures a == b
  {
    hide Step;
    StepLinear(code, a, b, 0, 0);
    XorZero(0);
    SameWords(Step(code, a, 0), Step(code, b, 0));
    SameWords(a, b);
    KernelEmpty(code, Xor(a, b));
  }

  lemma StepInWidth(code: Code, c: bv40)
    requires InWidth(code, c)
    ensures InWidth(code, Step(code, c, 0))
  {
    if code.Bech32? { SmallStep(c, 0); }
  }

  lemma {:induction false} ShiftInWidth(code: Code, c: bv40, k: nat)
    requires InWidth(code, c)
    ensures InWidth(code, Shift(code, c, k)) && (c != 0 ==> Shift(code, c, k) != 0)
  {
    hide Step;
    if k > 0 {
      ShiftInWidth(code, c, k - 1);
      StepInWidth(code, Shift(code, c, k - 1));
      if Shift(code, c, k) == 0 { KernelEmpty(code, Shift(code, c, k - 1)); }
    }
  }

  // ---- One changed symbol --------------------------------------------------

  function Difference(x: Symbol, y: Symbol): bv40 {
    Xor(Word(x), Word(y))
  }

  lemma DifferenceIs(x: Symbol, y: Symbol)
    ensures Difference(x, y) <= 31 && (x != y ==> Difference(x, y) != 0) && Word(y) == Xor(Word(x), Difference(x, y))
  {
    SymbolWord(x);
    SymbolWord(y);
    DistinctWords(x, y);
    DifferenceWords(Word(x), Word(y));
  }

  lemma DistinctWords(x: Symbol, y: Symbol)
    ensures Word(x) == Word(y) <==> x == y
  {
    WordValue(x);
    WordValue(y);
  }

  lemma WordValue(v: Symbol)
    ensures Word(v) as int == v
  {
    match v
    case 0 => case 1 => case 2 => case 3 => case 4 => case 5 => case 6 => case 7 =>
    case 8 => case 9 => case 10 => case 11 => case 12 => case 13 => case 14 => case 15 =>
    case 16 => case 17 => case 18 => case 19 => case 20 => case 21 => case 22 => case 23 =>
    case 24 => case 25 => case 26 => case 27 => case 28 => case 29 => case 30 => case 31 =>
  }

  lemma DifferenceWords(a: bv40, b: bv40)
    requires a <= 31 && b <= 31
    ensures a ^ b <= 31 && (a != b ==> a ^ b != 0) && b == a ^ (a ^ b)
  {
  }

  lemma OneDiffers(p: seq<Symbol>, x: Symbol, y: Symbol, q: seq<Symbol>)
    ensures DiffersBy(p + [x] + q, p + [y] + q, Nothing(|p|) + [Difference(x, y)] + Nothing(|q|))
  {
    DifferenceIs(x, y);
    hide Difference; hide Word; hide Xor;
    var vs, ws, ds := p + [x] + q, p + [y] + q, Nothing(|p|) + [Difference(x, y)] + Nothing(|q|);
    forall i | 0 <= i < |vs| ensures Word(ws[i]) == Xor(Word(vs[i]), ds[i]) {
      XorZero(Word(vs[i]));
    }
  }

  /** One changed symbol always changes the fold, in either code and at any length. */
  lemma OneSymbolShows(code: Code, p: seq<Symbol>, x: Symbol, y: Symbol, q: seq<Symbol>)
    requires x != y
    ensures Polymod(code, p + [x] + q) != Polymod(code, p + [y] + q)
  {
    var e := Difference(x, y);
    DifferenceIs(x, y);
    OneDiffers(p, x, y, q);
    SyndromeAdds(code, p + [x] + q, p + [y] + q, Nothing(|p|) + [e] + Nothing(|q|));
    OneSyndrome(code, |p|, e, |q|);
    ShiftInWidth(code, e, |q|);
    hide Polymod; hide Shift; hide Fold; hide Difference;
    Unchanged(Polymod(code, p + [x] + q), Shift(code, e, |q|));
  }

  lemma UnchangedWords(a: bv40, d: bv40)
    requires d != 0
    ensures a ^ d != a
  {
  }

  lemma Unchanged(a: bv40, d: bv40)
    requires d != 0
    ensures Xor(a, d) != a
  {
    UnchangedWords(a, d);
  }

  // ---- Between the two constants -------------------------------------------

  function Sum(a: bv40, b: bv40, c: bv40): bv40 {
    (a ^ b) ^ c
  }

  lemma XorIs(a: bv40, b: bv40)
    ensures Xor(a, b) == a ^ b
  {
  }

  lemma SumIs(a: bv40, b: bv40, c: bv40)
    ensures Xor(Xor(a, b), c) == Sum(a, b, c)
  {
    hide Xor;
    XorIs(a, b);
    XorIs(a ^ b, c);
  }

  /** A zero symbol, with the feedback read off the bits of the state. */
  function Forth(c: bv40): bv40 {
    Sum((c & 0x1ffffff) << 5, 0,
        Sum(Sum(if c & 0x2000000 != 0 then 0x3b6a57b2 else 0, if c & 0x4000000 != 0 then 0x26508e6d else 0,
                if c & 0x8000000 != 0 then 0x1ea119fa else 0),
            if c & 0x10000000 != 0 then 0x3d4233dd else 0, if c & 0x20000000 != 0 then 0x2a1462b3 else 0))
  }

  /** The state one zero symbol before. */
  function Inverse(p: bv40): bv40 {
    (p >> 5) ^ (if p & 1 != 0 then 0x228bf1a8 else 0) ^ (if p & 2 != 0 then 0x1703c750 else 0)
    ^ (if p & 4 != 0 then 0x2c972fa9 else 0) ^ (if p & 8 != 0 then 0x0b2e5a72 else 0)
    ^ (if p & 16 != 0 then 0x14d895ed else 0)
  }

  lemma ForthInverse(p: bv40)
    requires p < 0x40000000
    ensures Forth(Inverse(p)) == p && Inverse(p) < 0x40000000
  {
  }

  lemma ForthIsStep(c: bv40)
    requires c < 0x40000000
    ensures Step(Bech32, c, 0) == Forth(c)
  {
    hide Part; hide Xor; hide Sum;
    CarryBits(c);
    var g := GeneratorsOf(Bech32);
    PartIs(c >> 25, 1, c, 0x2000000, g.g0);
    PartIs(c >> 25, 2, c, 0x4000000, g.g1);
    PartIs(c >> 25, 4, c, 0x8000000, g.g2);
    PartIs(c >> 25, 8, c, 0x10000000, g.g3);
    PartIs(c >> 25, 16, c, 0x20000000, g.g4);
    var p0, p1, p2 := Part(c >> 25, 1, g.g0), Part(c >> 25, 2, g.g1), Part(c >> 25, 4, g.g2);
    var p3, p4 := Part(c >> 25, 8, g.g3), Part(c >> 25, 16, g.g4);
    SumIs(p0, p1, p2);
    SumIs(Sum(p0, p1, p2), p3, p4);
    SumIs((c & 0x1ffffff) << 5, 0, Sum(Sum(p0, p1, p2), p3, p4));
  }

  lemma PartIs(b: bv40, bit: bv40, c: bv40, mask: bv40, g: bv40)
    requires b & bit != 0 <==> c & mask != 0
    ensures Part(b, bit, g) == if c & mask != 0 then g else 0
  {
  }

  lemma CarryBits(c: bv40)
    requires c < 0x40000000
    ensures ((c >> 25) & 1 != 0 <==> c & 0x2000000 != 0) && ((c >> 25) & 2 != 0 <==> c & 0x4000000 != 0)
    ensures ((c >> 25) & 4 != 0 <==> c & 0x8000000 != 0) && ((c >> 25) & 8 != 0 <==> c & 0x10000000 != 0)
    ensures (c >> 25) & 16 != 0 <==> c & 0x20000000 != 0
  {
  }

  /** The state that turns into the difference of the constants k zero symbols later. */
  function Back(k: nat): bv40 {
    if k == 0 then 0x2bd else Inverse(Back(k - 1))
  }

  lemma {:induction false} BackTurns(k: nat)
    ensures Back(k) < 0x40000000 && Step(Bech32, Back(k + 1), 0) == Back(k) && Back(k + 1) < 0x40000000
  {
    hide Inverse; hide Forth; hide Step;
    if k > 0 { BackTurns(k - 1); }
    ForthInverse(Back(k));
    ForthIsStep(Back(k + 1));
  }

  /** The n steps back from p meet no symbol and end at last. */
  predicate Climbs(p: bv40, n: nat, last: bv40)
    decreases n
  {
    p >= 32 && if n == 0 then p == last else Climbs(Inverse(p), n - 1, last)
  }

  lemma ClimbsByTens()
    ensures Climbs(0x2bd, 10, 0x0df6e466) && Climbs(0x0df6e466, 10, 0x0f594975) && Climbs(0x0f594975, 10, 0x229452db)
    ensures Climbs(0x229452db, 10, 0x04bfe392) && Climbs(0x04bfe392, 10, 0x39220bf6) && Climbs(0x39220bf6, 10, 0x1b012830)
    ensures Climbs(0x1b012830, 10, 0x0eb999d3) && Climbs(0x0eb999d3, 10, 0x282ae551) && Climbs(0x282ae551, 10, 0x331ec01f)
  {
  }

  lemma {:induction false} ClimbsOn(k: nat, n: nat, last: bv40)
    requires Climbs(Back(k), n, last)
    ensures Back(k + n) == last && forall j | k <= j <= k + n :: Back(j) >= 32
    decreases n
  {
    hide Inverse;
    if n > 0 { ClimbsOn(k + 1, n - 1, last); }
  }

  lemma BackLarge(j: nat)
    requires j <= 90
    ensures Back(j) >= 32
  {
    hide Inverse; hide Climbs; hide Back;
    FirstBack();
    ClimbsByTens();
    ClimbsOn(0, 10, 0x0df6e466);
    ClimbsOn(10, 10, 0x0f594975);
    ClimbsOn(20, 10, 0x229452db);
    ClimbsOn(30, 10, 0x04bfe392);
    ClimbsOn(40, 10, 0x39220bf6);
    ClimbsOn(50, 10, 0x1b012830);
    ClimbsOn(60, 10, 0x0eb999d3);
    ClimbsOn(70, 10, 0x282ae551);
    ClimbsOn(80, 10, 0x331ec01f);
  }

  lemma FirstBack()
    ensures Back(0) == 0x2bd
  {
  }

  /** No single symbol turns into the difference of the constants within ninety symbols. */
  lemma {:induction false} NeverBetween(e: bv40, k: nat, j: nat)
    requires k + j <= 90 && e <= 31
    ensures Shift(Bech32, e, k) != Back(j)
  {
    hide Step; hide Inverse;
    BackLarge(j);
    if k > 0 && Shift(Bech32, e, k) == Back(j) {
      BackTurns(j);
      ShiftInWidth(Bech32, e, k - 1);
      StepInjective(Bech32, Shift(Bech32, e, k - 1), Back(j + 1));
      NeverBetween(e, k - 1, j + 1);
    }
  }

  /** One changed symbol within the last ninety is always refused, although either constant is taken. */
  lemma OneSymbolIsRefused(p: seq<Symbol>, x: Symbol, y: Symbol, q: seq<Symbol>)
    requires x != y && |q| <= 90 && Accepts(p + [x] + q)
    ensures !Accepts(p + [y] + q)
  {
    var e := Difference(x, y);
    var ds := Nothing(|p|) + [e] + Nothing(|q|);
    DifferenceIs(x, y);
    OneDiffers(p, x, y, q);
    OneSyndrome(Bech32, |p|, e, |q|);
    ShiftInWidth(Bech32, e, |q|);
    hide Difference; hide Shift; hide Fold; hide Polymod;
    MissedExactly(p + [x] + q, p + [y] + q, ds);
    FirstBack();
    hide Back;
    NeverBetween(e, |q|, 0);
  }

  /** The symbol with the bits of m turned over. */
  function Flip(v: Symbol, m: bv40): Symbol
    requires m <= 31
  {
    FlipWords(Word(v), m);
    (Word(v) ^ m) as int
  }

  lemma FlipWords(a: bv40, m: bv40)
    requires m <= 31
    ensures a <= 31 ==> a ^ m <= 31
  {
  }

  /** Two changed symbols can slip through: turning over bits 10101 and 11101 of the last two symbols
      takes an address that folds to the first constant to one that folds to the second. */
  lemma TwoSymbolsSlip(p: seq<Symbol>, x: Symbol, y: Symbol)
    requires Polymod(Bech32, p + [x, y]) == 1
    ensures Polymod(Bech32, p + [Flip(x, 21), Flip(y, 29)]) == 0x2bc
  {
    var vs, ws, ds := p + [x, y], p + [Flip(x, 21), Flip(y, 29)], Nothing(|p|) + [21, 29];
    FlipIs(x, 21);
    FlipIs(y, 29);
    hide Flip; hide Word;
    forall i | 0 <= i < |vs| ensures Word(ws[i]) == Xor(Word(vs[i]), ds[i]) {
      if i < |p| { XorZero(Word(vs[i])); }
    }
    SyndromeAdds(Bech32, vs, ws, ds);
    LastTwo(|p|);
    hide Fold; hide Polymod;
    assert Xor(1, 0x2bd) == 0x2bc;
  }

  lemma FlipIs(v: Symbol, m: bv40)
    requires m <= 31
    ensures Word(Flip(v, m)) == Xor(Word(v), m)
  {
    SymbolWord(v);
    FlipWords(Word(v), m);
  }

  lemma LastTwo(p: nat)
    ensures Fold(Bech32, 0, Nothing(p) + [21, 29]) == 0x2bd
  {
    FoldAppend(Bech32, 0, Nothing(p), [21, 29]);
    FoldsToShift(Bech32, 0, p);
    ZeroShift(Bech32, p);
    FoldOne(Bech32, 21);
    assert [21 as bv40, 29][..1] == [21];
    hide Shift;
    assert Step(Bech32, 21, 29) == 0x2bd;
  }
}
