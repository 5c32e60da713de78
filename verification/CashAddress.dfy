/** CashAddr addresses. */
module CashAddress {
  import opened Wrappers
  import opened Bytes
  import opened BitGroups
  import opened Glyphs
  import C = Checksum

  function SizeIndex(n: nat): Option<nat> {
    if n == 20 then Some(0) else if n == 24 then Some(1) else if n == 28 then Some(2) else if n == 32 then Some(3)
    else None
  }

  function LengthOf(index: nat): Option<nat> {
    if index == 0 then Some(20) else if index == 1 then Some(24) else if index == 2 then Some(28)
    else if index == 3 then Some(32) else None
  }

  /** Low bits of every character and a zero. */
  function ExpandPrefix(prefix: Ascii): seq<C.Symbol> {
    seq(|prefix|, i requires 0 <= i < |prefix| => prefix[i] as int % 32) + [0]
  }

  method BuildExpandPrefix(prefix: Ascii) returns (out: seq<C.Symbol>)
    ensures out == ExpandPrefix(prefix)
  {
    out := [];
    for i := 0 to |prefix|
      invariant |out| == i && forall k | 0 <= k < i :: out[k] == prefix[k] as int % 32
    {
      out := out + [prefix[i] as int % 32];
    }
    out := out + [0];
    assert out == ExpandPrefix(prefix);
  }

  /** The version byte and the hash as symbols, padded. */
  function PayloadSymbols(hashType: nat, index: nat, hash: Data): (s: seq<C.Symbol>)
    requires hashType <= 1 && index <= 3
    ensures |s| == (8 * |hash| + 12) / 5
    ensures Regroup([8 * hashType + index] + hash, 8, 5, true) == Some(s)
    ensures Regroup(s, 5, 8, false) == Some([8 * hashType + index] + hash)
  {
    BytesSymbolsBytes([8 * hashType + index] + hash);
    SmallPowers();
    Regroup([8 * hashType + index] + hash, 8, 5, true).value
  }

  function AddressSymbols(prefix: Ascii, hashType: nat, index: nat, hash: Data): seq<C.Symbol>
    requires hashType <= 1 && index <= 3
  {
    var payload := PayloadSymbols(hashType, index, hash);
    payload + C.Checksum(C.CashAddr, ExpandPrefix(prefix) + payload, 1)
  }

  function Encode(prefix: Ascii, hashType: int, hash: Data): Option<string> {
    if hashType != 0 && hashType != 1 then None else
    match SizeIndex(|hash|)
    case None => None
    case Some(index) => Some(prefix + ":" + Spelled(AddressSymbols(prefix, hashType, index, hash)))
  }

  method EncodeAddress(prefix: Ascii, hashType: int, hash: Data) returns (addr: Option<string>)
    ensures addr == Encode(prefix, hashType, hash)
  {
    hide Regroup; hide C.Checksum; hide ExpandPrefix;
    if hashType != 0 && hashType != 1 { return None; }
    var index := SizeIndex(|hash|);
    if index.None? { return None; }
    ghost var symbols := PayloadSymbols(hashType, index.value, hash);
    var groups := ConvertBits([8 * hashType + index.value] + hash, 8, 5, true);
    assert groups == Some(symbols);
    var payload: seq<C.Symbol> := groups.value;
    var expanded := BuildExpandPrefix(prefix);
    var cs := C.CreateChecksum(C.CashAddr, expanded + payload, 1);
    var full := payload + cs;
    var text: string := prefix + ":";
    for i := 0 to |full|
      invariant text == prefix + ":" + Spelled(full)[..i]
    {
      text := text + [Glyph(full[i])];
    }
    assert Spelled(full)[..|full|] == Spelled(full);
    addr := Some(text);
  }

  /** The position of the first separator from i on, the length without one. */
  function ColonFrom(s: string, i: nat): (k: nat)
    requires i <= |s|
    ensures i <= k <= |s| && (k < |s| ==> s[k] == ':') && forall j | i <= j < k :: s[j] != ':'
    decreases |s| - i
  {
    if i == |s| || s[i] == ':' then i else ColonFrom(s, i + 1)
  }

  function Checked(prefix: Ascii, data: string): Option<seq<C.Symbol>> {
    match Read(data)
    case None => None
    case Some(symbols) =>
      if C.Polymod(C.CashAddr, ExpandPrefix(prefix) + symbols) != 1 then None else Some(symbols)
  }

  /** Type and hash out of the symbols; the checksum is dropped and the version byte taken without
      asking whether they are there. */
  function Payload(symbols: seq<C.Symbol>): Reading<(int, Data)> {
    if |symbols| < 8 then Panics else
    match Regroup(symbols[..|symbols| - 8], 5, 8, false)
    case None => Refused
    case Some(decoded) =>
      SmallPowers();
      if decoded == [] then Panics else
      var hashType, size := decoded[0] / 8, LengthOf(decoded[0] % 8);
      if size.None? || (hashType != 0 && hashType != 1) || |decoded| != 1 + size.value then Refused
      else Done((hashType, decoded[1..]))
  }

  function Decode(addr: Ascii, wantPrefix: string): Reading<(int, Data)> {
    if |addr| < 8 || |addr| > 110 || MixedCase(addr) then Refused else
    var s := Lower(addr);
    var pos := ColonFrom(s, 0);
    if pos < 1 || pos == |s| then Refused else
    if wantPrefix != "" && s[..pos] != wantPrefix then Refused else
    match Checked(s[..pos], s[pos + 1..])
    case None => Refused
    case Some(symbols) => Payload(symbols)
  }

  method DecodeAddress(addr: Ascii, wantPrefix: string) returns (r: Reading<(int, Data)>)
    ensures r == Decode(addr, wantPrefix)
  {
    hide Regroup; hide C.Polymod; hide ExpandPrefix; hide Read; hide MixedCase;
    if |addr| < 8 || |addr| > 110 { return Refused; }
    if MixedCase(addr) { return Refused; }
    var s := Lower(addr);
    var pos := 0;
    while pos < |s| && s[pos] != ':'
      invariant 0 <= pos <= |s| && ColonFrom(s, 0) == ColonFrom(s, pos)
    {
      pos := pos + 1;
    }
    if pos < 1 || pos == |s| { return Refused; }
    var prefix: Ascii := s[..pos];
    if wantPrefix != "" && prefix != wantPrefix { return Refused; }
    var data := ReadSymbols(s[pos + 1..]);
    if data.None? { return Refused; }
    var symbols := data.value;
    var expanded := BuildExpandPrefix(prefix);
    var m := C.ComputePolymod(C.CashAddr, expanded + symbols);
    if m != 1 { return Refused; }
    if |symbols| < 8 { return Panics; }
    var decoded := ConvertBits(symbols[..|symbols| - 8], 5, 8, false);
    if decoded.None? { return Refused; }
    if decoded.value == [] { return Panics; }
    SmallPowers();
    var version := decoded.value[0];
    var size := LengthOf(version % 8);
    if size.None? { return Refused; }
    if version / 8 != 0 && version / 8 != 1 { return Refused; }
    if |decoded.value| != 1 + size.value { return Refused; }
    GroupsFit(symbols[..|symbols| - 8], 5, 8, false);
    var hash: Data := decoded.value[1..];
    r := Done((version / 8, hash));
  }

  // ---- Round trip ----------------------------------------------------------

  predicate HasColon(s: string) {
    ':' in s
  }

  predicate Encodes(a: string, prefix: Ascii, hashType: nat, hash: Data) {
    && hashType <= 1 && SizeIndex(|hash|).Some? && IsAscii(a)
    && a == prefix + ":" + Spelled(AddressSymbols(prefix, hashType, SizeIndex(|hash|).value, hash))
  }

  /** In lower case an address is its prefix in lower case and the same symbols. */
  lemma LowerAddress(a: Ascii, prefix: Ascii, symbols: seq<C.Symbol>)
    requires a == prefix + ":" + Spelled(symbols)
    ensures Lower(a) == Lower(prefix) + ":" + Spelled(symbols)
    ensures ExpandPrefix(Lower(prefix)) == ExpandPrefix(prefix)
    ensures HasColon(Lower(prefix)) <==> HasColon(prefix)
  {
    hide Glyph;
    forall i | |prefix| <= i < |a| ensures !IsUpper(a[i]) {
      if i > |prefix| { PlainGlyph(symbols[i - |prefix| - 1]); }
    }
    forall i | 0 <= i < |prefix| ensures (Lower(prefix)[i] == ':' <==> prefix[i] == ':') {}
    if HasColon(prefix) {
      var i :| 0 <= i < |prefix| && prefix[i] == ':';
      assert Lower(prefix)[i] == ':';
    }
  }

  lemma SeparatorFound(s: string, prefix: string, symbols: seq<C.Symbol>)
    requires s == prefix + ":" + Spelled(symbols)
    ensures !HasColon(prefix) ==> ColonFrom(s, 0) == |prefix| && s[..|prefix|] == prefix && s[|prefix| + 1..] == Spelled(symbols)
    ensures HasColon(prefix) ==> ColonFrom(s, 0) < |prefix| && s[|prefix|] == ':'
  {
    hide Spelled;
    assert s[|prefix|] == ':';
    var k := ColonFrom(s, 0);
    if k < |prefix| { assert prefix[k] == ':'; }
    if HasColon(prefix) { var i :| 0 <= i < |prefix| && prefix[i] == ':'; assert s[i] == ':'; }
  }

  lemma CheckedBack(prefix: Ascii, hashType: nat, index: nat, hash: Data)
    requires hashType <= 1 && index <= 3
    ensures var s := AddressSymbols(prefix, hashType, index, hash); Checked(prefix, Spelled(s)) == Some(s)
  {
    hide C.Polymod; hide ExpandPrefix; hide Read; hide Spelled; hide C.Checksum; hide Regroup;
    var payload := PayloadSymbols(hashType, index, hash);
    var cs := C.Checksum(C.CashAddr, ExpandPrefix(prefix) + payload, 1);
    C.ChecksumVerifies(C.CashAddr, ExpandPrefix(prefix) + payload, 1);
    assert ExpandPrefix(prefix) + payload + cs == ExpandPrefix(prefix) + (payload + cs);
    ReadSpelled(payload + cs);
  }

  lemma PayloadBack(prefix: Ascii, hashType: nat, hash: Data)
    requires hashType <= 1 && SizeIndex(|hash|).Some?
    ensures Payload(AddressSymbols(prefix, hashType, SizeIndex(|hash|).value, hash)) == Done((hashType, hash))
  {
    hide Regroup; hide C.Checksum; hide ExpandPrefix;
    var index := SizeIndex(|hash|).value;
    var s := AddressSymbols(prefix, hashType, index, hash);
    assert s[..|s| - 8] == PayloadSymbols(hashType, index, hash);
    assert ([8 * hashType + index] + hash)[1..] == hash;
  }

  lemma LegalDecodes(a: Ascii, prefix: Ascii, hashType: nat, hash: Data, want: string)
    requires Encodes(a, prefix, hashType, hash) && (want == "" || want == Lower(prefix))
    requires prefix != "" && !HasColon(prefix) && 8 <= |a| <= 110 && !MixedCase(a)
    ensures Decode(a, want) == Done((hashType, hash))
  {
    hide Payload; hide ColonFrom; hide Spelled; hide AddressSymbols; hide HasColon; hide Lower; hide MixedCase;
    hide C.Polymod; hide ExpandPrefix; hide Read;
    var index := SizeIndex(|hash|).value;
    var symbols := AddressSymbols(prefix, hashType, index, hash);
    LowerAddress(a, prefix, symbols);
    SeparatorFound(Lower(a), Lower(prefix), symbols);
    CheckedBack(prefix, hashType, index, hash);
    PayloadBack(prefix, hashType, hash);
  }

  /** A colon inside the prefix leaves one among the symbols. */
  lemma ColonStops(a: Ascii, prefix: Ascii, symbols: seq<C.Symbol>, want: string)
    requires a == prefix + ":" + Spelled(symbols) && HasColon(prefix)
    ensures Decode(a, want) == Refused
  {
    hide Spelled; hide HasColon; hide Payload; hide MixedCase; hide C.Polymod; hide Read; hide Lower; hide ExpandPrefix;
    LowerAddress(a, prefix, symbols);
    var s := Lower(a);
    SeparatorFound(s, Lower(prefix), symbols);
    var pos := ColonFrom(s, 0);
    var data := s[pos + 1..];
    assert data[|prefix| - pos - 1] == ':';
    NoGlyph(data, |prefix| - pos - 1);
  }

  lemma {:induction false} NoGlyph(s: string, k: nat)
    requires k < |s| && s[k] == ':'
    ensures Read(s).None?
  {
    if k < |s| - 1 { NoGlyph(s[..|s| - 1], k); } else { ColonIsNoGlyph(0); }
  }

  lemma {:induction false} ColonIsNoGlyph(i: nat)
    requires i <= 32
    ensures FindFrom(':', i).None?
    decreases 32 - i
  {
    if i < 32 {
      PlainGlyph(i);
      ColonIsNoGlyph(i + 1);
    }
  }

  /** An encoded address decodes to what was encoded, whatever prefix is wanted, exactly if its own
      prefix is not empty and has no colon, the address does not mix cases and has at most 110
      characters, and no prefix is wanted or its own in lower case. */
  lemma DecodeEncode(prefix: Ascii, hashType: int, hash: Data, want: string)
    requires 0 <= hashType <= 1 && SizeIndex(|hash|).Some?
    ensures var a := Encode(prefix, hashType, hash);
            && a.Some? && IsAscii(a.value) && |a.value| == |prefix| + 9 + (8 * |hash| + 12) / 5
            && (Decode(a.value, want) == Done((hashType, hash))
                <==> prefix != "" && !HasColon(prefix) && |a.value| <= 110 && !MixedCase(a.value)
                     && (want == "" || want == Lower(prefix)))
  {
    hide Checked; hide Payload; hide ColonFrom; hide HasColon; hide MixedCase; hide Lower;
    var index := SizeIndex(|hash|).value;
    var symbols := AddressSymbols(prefix, hashType, index, hash);
    SymbolCount(prefix, hashType, index, hash);
    hide AddressSymbols;
    ReadSpelled(symbols);
    var a := Encode(prefix, hashType, hash).value;
    AddressIsAscii(a, prefix, symbols);
    LowerAddress(a, prefix, symbols);
    SeparatorFound(Lower(a), Lower(prefix), symbols);
    hide Spelled;
    if HasColon(prefix) {
      ColonStops(a, prefix, symbols, want);
    } else if prefix != "" && |a| <= 110 && !MixedCase(a) && (want == "" || want == Lower(prefix)) {
      LegalDecodes(a, prefix, hashType, hash, want);
    }
  }

  lemma SymbolCount(prefix: Ascii, hashType: nat, index: nat, hash: Data)
    requires hashType <= 1 && index <= 3
    ensures |AddressSymbols(prefix, hashType, index, hash)| == 8 + (8 * |hash| + 12) / 5
  {
    hide Regroup; hide C.Polymod; hide ExpandPrefix;
  }

  lemma AddressIsAscii(a: string, prefix: Ascii, symbols: seq<C.Symbol>)
    requires a == prefix + ":" + Spelled(symbols)
    ensures IsAscii(a) && |a| == |prefix| + 1 + |symbols|
  {
    hide Glyph;
    forall i | |prefix| < i < |a| ensures a[i] < 128 as char { PlainGlyph(symbols[i - |prefix| - 1]); }
  }

  // ---- An address without a payload ----------------------------------------

  /** The decoder panics on exactly the addresses that pass every check and have no more than
      eight symbols after the separator. */
  lemma PanicsExactly(a: Ascii, want: string)
    ensures Decode(a, want) == Panics
            <==> && 8 <= |a| <= 110 && !MixedCase(a)
                 && var s := Lower(a);
                    var pos := ColonFrom(s, 0);
                    && 0 < pos < |s| && (want == "" || s[..pos] == want)
                    && Checked(s[..pos], s[pos + 1..]).Some? && |s| - pos - 1 <= 8
  {
    hide MixedCase; hide Regroup; hide C.Polymod; hide ExpandPrefix; hide Checked;
    var s := Lower(a);
    var pos := ColonFrom(s, 0);
    if 0 < pos < |s| && Checked(s[..pos], s[pos + 1..]).Some? {
      CheckedLength(s[..pos], s[pos + 1..]);
      PayloadPanics(Checked(s[..pos], s[pos + 1..]).value);
    }
  }

  lemma CheckedLength(prefix: Ascii, data: string)
    ensures Checked(prefix, data).Some? ==> |Checked(prefix, data).value| == |data|
  {
    hide C.Polymod; hide ExpandPrefix;
  }

  lemma PayloadPanics(symbols: seq<C.Symbol>)
    ensures Payload(symbols) == Panics <==> |symbols| <= 8
  {
    if |symbols| >= 8 { NothingDecoded(symbols[..|symbols| - 8]); }
    hide Regroup;
  }

  /** Some symbols never decode to no bytes: a single one leaves too many bits over. */
  lemma NothingDecoded(data: seq<C.Symbol>)
    ensures Regroup(data, 5, 8, false) == Some([]) <==> data == []
  {
    SmallPowers();
  }

  /** There is one for every prefix: the checksum of no payload. */
  lemma BareAddressPanics(prefix: Ascii)
    requires 1 <= |prefix| <= 101 && !HasUpper(prefix) && !HasColon(prefix)
    ensures var a := prefix + ":" + Spelled(C.Checksum(C.CashAddr, ExpandPrefix(prefix), 1));
            IsAscii(a) && Decode(a, prefix) == Panics
  {
    hide C.Checksum; hide C.Polymod; hide Read; hide Upper; hide HasColon; hide ColonFrom; hide HasUpper; hide ExpandPrefix;
    var cs := C.Checksum(C.CashAddr, ExpandPrefix(prefix), 1);
    var a := prefix + ":" + Spelled(cs);
    AddressIsAscii(a, prefix, cs);
    LowerAddress(a, prefix, cs);
    LowerIsSelf(prefix);
    SeparatorFound(a, prefix, cs);
    ReadSpelled(cs);
    C.ChecksumVerifies(C.CashAddr, ExpandPrefix(prefix), 1);
    PanicsExactly(a, prefix);
  }
}
