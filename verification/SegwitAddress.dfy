/** Segwit addresses. */
module SegwitAddress {
  import opened Wrappers
  import opened Bytes
  import opened BitGroups
  import opened Glyphs
  import C = Checksum

  const BECH32_CONST: bv40 := 1
  const BECH32M_CONST: bv40 := 0x2bc

  function ConstOf(ver: int): bv40 {
    if ver >= 1 then BECH32M_CONST else BECH32_CONST
  }

  /** High bits of every character, a zero, low bits of every character. */
  function ExpandHrp(hrp: Ascii): seq<C.Symbol> {
    seq(|hrp|, i requires 0 <= i < |hrp| => hrp[i] as int / 32) + [0]
    + seq(|hrp|, i requires 0 <= i < |hrp| => hrp[i] as int % 32)
  }

  method BuildExpandHrp(hrp: Ascii) returns (out: seq<C.Symbol>)
    ensures out == ExpandHrp(hrp)
  {
    out := [];
    for i := 0 to |hrp|
      invariant |out| == i && forall k | 0 <= k < i :: out[k] == hrp[k] as int / 32
    {
      out := out + [hrp[i] as int / 32];
    }
    out := out + [0];
    for i := 0 to |hrp|
      invariant |out| == |hrp| + 1 + i && out[|hrp|] == 0
      invariant forall k | 0 <= k < |hrp| :: out[k] == hrp[k] as int / 32
      invariant forall k | 0 <= k < i :: out[|hrp| + 1 + k] == hrp[k] as int % 32
    {
      out := out + [hrp[i] as int % 32];
    }
    assert out == ExpandHrp(hrp);
  }

  /** Program bytes as symbols, padded. */
  function ProgramSymbols(prog: Data): (s: seq<C.Symbol>)
    ensures |s| == (8 * |prog| + 4) / 5 && Regroup(prog, 8, 5, true) == Some(s) && Regroup(s, 5, 8, false) == Some(prog)
  {
    BytesSymbolsBytes(prog);
    SmallPowers();
    Regroup(prog, 8, 5, true).value
  }

  function DataSymbols(hrp: Ascii, ver: C.Symbol, prog: Data): seq<C.Symbol> {
    var data := [ver] + ProgramSymbols(prog);
    data + C.Checksum(C.Bech32, ExpandHrp(hrp) + data, ConstOf(ver))
  }

  function Encode(hrp: Ascii, ver: int, prog: Data): Option<string> {
    if ver < 0 || ver > 16 || |prog| < 2 || |prog| > 40 then None
    else Some(hrp + "1" + Spelled(DataSymbols(hrp, ver, prog)))
  }

  method EncodeSegwit(hrp: Ascii, ver: int, prog: Data) returns (addr: Option<string>)
    ensures addr == Encode(hrp, ver, prog)
  {
    hide Regroup; hide C.Checksum; hide ExpandHrp;
    if ver < 0 || ver > 16 { return None; }
    if |prog| < 2 || |prog| > 40 { return None; }
    var groups := ConvertBits(prog, 8, 5, true);
    ghost var symbols := ProgramSymbols(prog);
    assert groups == Some(symbols);
    var data: seq<C.Symbol> := [ver] + groups.value;
    var expanded := BuildExpandHrp(hrp);
    var cs := C.CreateChecksum(C.Bech32, expanded + data, if ver >= 1 then BECH32M_CONST else BECH32_CONST);
    var full := data + cs;
    var text: string := hrp + "1";
    for i := 0 to |full|
      invariant text == hrp + "1" + Spelled(full)[..i]
    {
      text := text + [Glyph(full[i])];
    }
    assert Spelled(full)[..|full|] == Spelled(full);
    addr := Some(text);
  }

  /** The position of the last separator, -1 without one. */
  function LastOne(s: string): int {
    if s == [] then -1 else if s[|s| - 1] == '1' then |s| - 1 else LastOne(s[..|s| - 1])
  }

  lemma {:induction false} LastOneBounds(s: string)
    ensures -1 <= LastOne(s) < |s|
    ensures LastOne(s) >= 0 ==> s[LastOne(s)] == '1'
    ensures forall i | LastOne(s) < i < |s| :: s[i] != '1'
  {
    if s != [] { LastOneBounds(s[..|s| - 1]); }
  }

  lemma LastOneIs(s: string, k: nat)
    requires k < |s| && s[k] == '1' && forall i | k < i < |s| :: s[i] != '1'
    ensures LastOne(s) == k
  {
    LastOneBounds(s);
  }

  /** The symbols after the separator, checked against either constant. */
  function Checked(hrp: Ascii, data: string): Option<seq<C.Symbol>> {
    match Read(data)
    case None => None
    case Some(symbols) =>
      var m := C.Polymod(C.Bech32, ExpandHrp(hrp) + symbols);
      if m != BECH32_CONST && m != BECH32M_CONST then None else Some(symbols)
  }

  /** Version and program out of the symbols before the checksum; the first symbol is taken
      without asking whether there is one. */
  function Payload(data: seq<C.Symbol>): Reading<(int, Data)> {
    if data == [] then Panics else
    match Regroup(data[1..], 5, 8, false)
    case None => Refused
    case Some(prog) =>
      SmallPowers();
      if data[0] > 16 then Refused else Done((data[0], prog))
  }

  function Decode(addr: Ascii): Reading<(string, int, Data)> {
    if |addr| < 8 || |addr| > 90 || MixedCase(addr) then Refused else
    var s := Lower(addr);
    LastOneBounds(s);
    var pos := LastOne(s);
    if pos < 1 || pos + 7 > |s| then Refused else
    match Checked(s[..pos], s[pos + 1..])
    case None => Refused
    case Some(symbols) =>
      match Payload(symbols[..|symbols| - 6])
      case Refused => Refused
      case Panics => Panics
      case Done(p) => Done((s[..pos], p.0, p.1))
  }

  method DecodeSegwit(addr: Ascii) returns (r: Reading<(string, int, Data)>)
    ensures r == Decode(addr)
  {
    hide Regroup; hide C.Polymod; hide ExpandHrp; hide Read; hide MixedCase;
    if |addr| < 8 || |addr| > 90 { return Refused; }
    if MixedCase(addr) { return Refused; }
    var s := Lower(addr);
    var pos := |s| - 1;
    while pos >= 0 && s[pos] != '1'
      invariant -1 <= pos < |s|
      invariant forall i | pos < i < |s| :: s[i] != '1'
      decreases pos
    {
      pos := pos - 1;
    }
    LastOneBounds(s);
    assert pos == LastOne(s);
    if pos < 1 || pos + 7 > |s| { return Refused; }
    var hrp: Ascii := s[..pos];
    var data := ReadSymbols(s[pos + 1..]);
    if data.None? { return Refused; }
    var symbols := data.value;
    var expanded := BuildExpandHrp(hrp);
    var m := C.ComputePolymod(C.Bech32, expanded + symbols);
    if m != BECH32_CONST && m != BECH32M_CONST { return Refused; }
    symbols := symbols[..|symbols| - 6];
    if symbols == [] { return Panics; }
    var prog := ConvertBits(symbols[1..], 5, 8, false);
    if prog.None? { return Refused; }
    if symbols[0] > 16 { return Refused; }
    assert Payload(symbols).Done?;
    r := Done((hrp, symbols[0], prog.value));
  }

  // ---- Round trip ----------------------------------------------------------

  lemma AddressIsAscii(hrp: Ascii, ver: int, prog: Data)
    ensures Encode(hrp, ver, prog).Some? ==> IsAscii(Encode(hrp, ver, prog).value)
  {
    if Encode(hrp, ver, prog).Some? {
      hide DataSymbols;
      ReadSpelled(DataSymbols(hrp, ver, prog));
    }
  }

  predicate Encodes(a: string, hrp: Ascii, ver: int, prog: Data) {
    0 <= ver <= 16 && 2 <= |prog| <= 40 && IsAscii(a) && a == hrp + "1" + Spelled(DataSymbols(hrp, ver, prog))
  }

  lemma SeparatorFound(a: Ascii, hrp: Ascii, ver: int, prog: Data)
    requires Encodes(a, hrp, ver, prog)
    ensures |a| == |hrp| + 8 + (8 * |prog| + 4) / 5
    ensures LastOne(a) == |hrp| && a[..|hrp|] == hrp && a[|hrp| + 1..] == Spelled(DataSymbols(hrp, ver, prog))
    ensures Lower(a) == a <==> !HasUpper(hrp)
  {
    hide Regroup; hide Glyph; hide C.Checksum; hide ExpandHrp;
    var symbols := DataSymbols(hrp, ver, prog);
    LowerIsSelf(a);
    NoUpperAfter(hrp, symbols);
    assert a[|hrp|] == '1';
    forall i | |hrp| < i < |a| ensures a[i] != '1' { PlainGlyph(symbols[i - |hrp| - 1]); }
    LastOneIs(a, |hrp|);
  }

  lemma LegalDecodes(a: Ascii, hrp: Ascii, ver: int, prog: Data)
    requires Encodes(a, hrp, ver, prog) && hrp != "" && !HasUpper(hrp) && |a| <= 90
    ensures Decode(a) == Done((hrp, ver, prog))
  {
    hide Checked; hide Payload; hide LastOne; hide Spelled; hide DataSymbols; hide HasUpper; hide Lower; hide Upper;
    SeparatorFound(a, hrp, ver, prog);
    CheckedBack(hrp, ver, prog);
    PayloadBack(hrp, ver, prog);
    assert !MixedCase(a);
  }

  lemma CheckedBack(hrp: Ascii, ver: C.Symbol, prog: Data)
    requires ver <= 16
    ensures Checked(hrp, Spelled(DataSymbols(hrp, ver, prog))) == Some(DataSymbols(hrp, ver, prog))
  {
    hide C.Polymod; hide ExpandHrp; hide Read; hide Spelled; hide DataSymbols;
    ReadSpelled(DataSymbols(hrp, ver, prog));
    CheckPasses(hrp, ver, prog);
  }

  /** An encoded address decodes to what was encoded exactly if its prefix is not empty and has
      no capital letter, and the address is not longer than ninety characters. */
  lemma DecodeEncode(hrp: Ascii, ver: int, prog: Data)
    requires 0 <= ver <= 16 && 2 <= |prog| <= 40
    ensures var a := Encode(hrp, ver, prog);
            && a.Some? && IsAscii(a.value) && |a.value| == |hrp| + 8 + (8 * |prog| + 4) / 5
            && (Decode(a.value) == Done((hrp, ver, prog)) <==> hrp != "" && !HasUpper(hrp) && |a.value| <= 90)
  {
    hide Checked; hide Payload; hide DataSymbols; hide LastOne; hide Spelled;
    AddressIsAscii(hrp, ver, prog);
    var a := Encode(hrp, ver, prog).value;
    SeparatorFound(a, hrp, ver, prog);
    if HasUpper(hrp) {
      LowerHrp(a, hrp);
    } else if hrp != "" && |a| <= 90 {
      LegalDecodes(a, hrp, ver, prog);
    }
  }

  lemma NoUpperAfter(hrp: Ascii, symbols: seq<C.Symbol>)
    ensures HasUpper(hrp + "1" + Spelled(symbols)) <==> HasUpper(hrp)
  {
    hide Glyph;
    var a := hrp + "1" + Spelled(symbols);
    forall i | |hrp| <= i < |a| ensures !IsUpper(a[i]) {
      if i > |hrp| { PlainGlyph(symbols[i - |hrp| - 1]); }
    }
    if HasUpper(hrp) {
      var i :| 0 <= i < |hrp| && IsUpper(hrp[i]);
      assert IsUpper(a[i]);
    }
  }

  /** A decoded prefix has no capitals. */
  lemma LowerHrp(a: Ascii, hrp: Ascii)
    requires HasUpper(hrp)
    ensures Decode(a).Done? ==> Decode(a).value.0 != hrp
  {
    hide Checked; hide Payload;
    if Decode(a).Done? {
      var s := Lower(a);
      LastOneBounds(s);
      var i :| 0 <= i < |hrp| && IsUpper(hrp[i]);
      assert i < LastOne(s) ==> !IsUpper(s[..LastOne(s)][i]);
    }
  }

  lemma CheckPasses(hrp: Ascii, ver: C.Symbol, prog: Data)
    requires ver <= 16
    ensures C.Polymod(C.Bech32, ExpandHrp(hrp) + DataSymbols(hrp, ver, prog)) == ConstOf(ver)
  {
    hide C.Polymod; hide ExpandHrp; hide C.Checksum;
    var data := [ver] + ProgramSymbols(prog);
    C.ChecksumVerifies(C.Bech32, ExpandHrp(hrp) + data, ConstOf(ver));
    var cs := C.Checksum(C.Bech32, ExpandHrp(hrp) + data, ConstOf(ver));
    assert ExpandHrp(hrp) + data + cs == ExpandHrp(hrp) + (data + cs);
  }

  lemma PayloadBack(hrp: Ascii, ver: C.Symbol, prog: Data)
    requires ver <= 16
    ensures var s := DataSymbols(hrp, ver, prog); |s| >= 6 && Payload(s[..|s| - 6]) == Done((ver, prog))
  {
    hide Regroup; hide C.Checksum; hide ExpandHrp;
    var data := [ver] + ProgramSymbols(prog);
    assert data[1..] == ProgramSymbols(prog);
    assert Payload(data) == Done((ver, prog));
    var s := DataSymbols(hrp, ver, prog);
    assert s[..|s| - 6] == data;
  }

  // ---- An address without data ---------------------------------------------

  /** The decoder panics on exactly the addresses that pass every check and have nothing but the
      six checksum symbols after the separator. */
  lemma PanicsExactly(a: Ascii)
    ensures Decode(a) == Panics
            <==> && 8 <= |a| <= 90 && !MixedCase(a)
                 && var s := Lower(a);
                    var pos := LastOne(s);
                    0 < pos && pos + 7 == |s| && Checked(s[..pos], s[pos + 1..]).Some?
  {
    hide MixedCase; hide Regroup; hide C.Polymod; hide Read;
    LastOneBounds(Lower(a));
  }

  /** There is one for every prefix: the checksum of no data. */
  lemma BareAddressPanics(hrp: Ascii, k: bv40)
    requires 1 <= |hrp| <= 83 && !HasUpper(hrp) && (k == BECH32_CONST || k == BECH32M_CONST)
    ensures var a := hrp + "1" + Spelled(C.Checksum(C.Bech32, ExpandHrp(hrp), k)); IsAscii(a) && Decode(a) == Panics
  {
    hide C.Checksum; hide ExpandHrp; hide C.Polymod; hide Read; hide Upper; hide HasUpper; hide LastOne;
    var cs := C.Checksum(C.Bech32, ExpandHrp(hrp), k);
    ReadSpelled(cs);
    SpelledAscii(cs);
    var a := hrp + "1" + Spelled(cs);
    assert ExpandHrp(hrp) + cs == ExpandHrp(hrp) + cs;
    C.ChecksumVerifies(C.Bech32, ExpandHrp(hrp), k);
    NoUpperAfter(hrp, cs);
    LowerIsSelf(a);
    Separated(a, hrp, cs);
    PanicsExactly(a);
  }

  lemma SpelledAscii(cs: seq<C.Symbol>)
    ensures IsAscii(Spelled(cs))
  {
    hide Glyph;
    forall i | 0 <= i < |cs| ensures Spelled(cs)[i] < 128 as char { PlainGlyph(cs[i]); }
  }

  lemma Separated(a: string, hrp: Ascii, cs: seq<C.Symbol>)
    requires a == hrp + "1" + Spelled(cs)
    ensures LastOne(a) == |hrp| && a[..|hrp|] == hrp && a[|hrp| + 1..] == Spelled(cs)
  {
    hide Glyph;
    assert a[|hrp|] == '1';
    forall i | |hrp| < i < |a| ensures a[i] != '1' { PlainGlyph(cs[i - |hrp| - 1]); }
    LastOneIs(a, |hrp|);
  }

  // ---- A vector of BIP 173, "Test vectors" ---------------------------------

  const VECTOR: Ascii := "A12UEL5L"

  const VECTOR_SYMBOLS: seq<C.Symbol> := [3, 0, 1, 10, 28, 25, 31, 20, 31]

  lemma FoldThree(ws: seq<bv40>, k: nat, s0: bv40, s1: bv40, s2: bv40, s3: bv40)
    requires k + 3 <= |ws| && C.Fold(C.Bech32, 1, ws[..k]) == s0 && C.Step(C.Bech32, s0, ws[k]) == s1
    requires C.Step(C.Bech32, s1, ws[k + 1]) == s2 && C.Step(C.Bech32, s2, ws[k + 2]) == s3
    ensures C.Fold(C.Bech32, 1, ws[..k + 3]) == s3
  {
    hide C.Step;
    assert ws[..k + 1][..k] == ws[..k] && ws[..k + 2][..k + 1] == ws[..k + 1] && ws[..k + 3][..k + 2] == ws[..k + 2];
    assert C.Fold(C.Bech32, 1, ws[..k + 1]) == s1;
    assert C.Fold(C.Bech32, 1, ws[..k + 2]) == s2;
  }

  lemma VectorSteps()
    ensures C.Step(C.Bech32, 0x1, 3) == 0x23 &&
            C.Step(C.Bech32, 0x23, 0) == 0x460 &&
            C.Step(C.Bech32, 0x460, 1) == 0x8c01 &&
            C.Step(C.Bech32, 0x8c01, 10) == 0x11802a &&
            C.Step(C.Bech32, 0x11802a, 28) == 0x230055c &&
            C.Step(C.Bech32, 0x230055c, 25) == 0x3d6afc2b &&
            C.Step(C.Bech32, 0x3d6afc2b, 31) == 0x2f84386 &&
            C.Step(C.Bech32, 0x2f84386, 20) == 0x24622766 &&
            C.Step(C.Bech32, 0x24622766, 31) == 0x1
  {
  }

  lemma VectorWords()
    ensures C.Word(VECTOR_SYMBOLS[0]) == 3 && C.Word(VECTOR_SYMBOLS[1]) == 0 && C.Word(VECTOR_SYMBOLS[2]) == 1
    ensures C.Word(VECTOR_SYMBOLS[3]) == 10 && C.Word(VECTOR_SYMBOLS[4]) == 28 && C.Word(VECTOR_SYMBOLS[5]) == 25
    ensures C.Word(VECTOR_SYMBOLS[6]) == 31 && C.Word(VECTOR_SYMBOLS[7]) == 20 && C.Word(VECTOR_SYMBOLS[8]) == 31
  {
  }

  lemma WordsFold(ws: seq<bv40>)
    requires |ws| == 9 && ws[0] == 3 && ws[1] == 0 && ws[2] == 1 && ws[3] == 10 && ws[4] == 28 && ws[5] == 25
    requires ws[6] == 31 && ws[7] == 20 && ws[8] == 31
    ensures C.Fold(C.Bech32, 1, ws) == 1
  {
    assert C.Fold(C.Bech32, 1, ws[..0]) == 1;
    hide C.Step; hide C.Fold;
    VectorSteps();
    FoldThree(ws, 0, 0x1, 0x23, 0x460, 0x8c01);
    FoldThree(ws, 3, 0x8c01, 0x11802a, 0x230055c, 0x3d6afc2b);
    FoldThree(ws, 6, 0x3d6afc2b, 0x2f84386, 0x24622766, 0x1);
    assert ws[..9] == ws;
  }

  lemma VectorFolds()
    ensures C.Polymod(C.Bech32, VECTOR_SYMBOLS) == BECH32_CONST
  {
    hide C.Fold; hide C.Word;
    VectorWords();
    WordsFold(C.Words(VECTOR_SYMBOLS));
  }

  lemma VectorParts()
    ensures Lower(VECTOR) == "a12uel5l" && !MixedCase(VECTOR) && LastOne("a12uel5l") == 1
    ensures Read("2uel5l") == Some([10, 28, 25, 31, 20, 31])
  {
    hide LastOne; hide Read;
    assert Upper(VECTOR) == VECTOR;
    LastOneIs("a12uel5l", 1);
    ReadSpelled([10, 28, 25, 31, 20, 31]);
    assert Spelled([10, 28, 25, 31, 20, 31]) == "2uel5l";
  }

  /** The vector passes every check and has no data: the decoder panics on it. */
  lemma VectorPanics()
    ensures Decode(VECTOR) == Panics
  {
    VectorParts();
    VectorFolds();
    assert ExpandHrp("a") + [10, 28, 25, 31, 20, 31] == VECTOR_SYMBOLS;
    assert "a12uel5l"[..1] == "a" && "a12uel5l"[2..] == "2uel5l";
    hide C.Polymod; hide Read; hide LastOne; hide MixedCase; hide ExpandHrp; hide Lower;
    PanicsExactly(VECTOR);
  }
}
