/** The 32 glyphs of bech32 and CashAddr strings, and the case of ASCII letters. */
module Glyphs {
  import opened Wrappers
  import opened Checksum

  predicate IsAscii(s: string) {
    forall i | 0 <= i < |s| :: s[i] < 128 as char
  }

  /** Addresses are read as ASCII text. */
  type Ascii = s: string | IsAscii(s)

  const CHARSET: string := "qpzry9x8gf2tvdw0s3jn54khce6mua7l"

  function Glyph(v: Symbol): char {
    CHARSET[v]
  }

  function FindFrom(c: char, i: nat): Option<Symbol>
    requires i <= 32
    decreases 32 - i
  {
    if i == 32 then None else if CHARSET[i] == c then Some(i) else FindFrom(c, i + 1)
  }

  /** The value of a glyph; None for any other character. */
  function Lookup(c: char): Option<Symbol> {
    FindFrom(c, 0)
  }

  predicate IsUpper(c: char) {
    'A' <= c <= 'Z'
  }

  predicate IsLower(c: char) {
    'a' <= c <= 'z'
  }

  function LowerChar(c: char): char {
    if IsUpper(c) then (c as int + 32) as char else c
  }

  function UpperChar(c: char): char {
    if IsLower(c) then (c as int - 32) as char else c
  }

  function Lower(s: Ascii): (r: Ascii)
    ensures |r| == |s| && forall i | 0 <= i < |s| :: r[i] == LowerChar(s[i])
  {
    seq(|s|, i requires 0 <= i < |s| => LowerChar(s[i]))
  }

  function Upper(s: Ascii): (r: Ascii)
    ensures |r| == |s| && forall i | 0 <= i < |s| :: r[i] == UpperChar(s[i])
  {
    seq(|s|, i requires 0 <= i < |s| => UpperChar(s[i]))
  }

  predicate MixedCase(s: Ascii) {
    Lower(s) != s && Upper(s) != s
  }

  predicate HasUpper(s: string) {
    exists i | 0 <= i < |s| :: IsUpper(s[i])
  }

  lemma LowerIsSelf(s: Ascii)
    ensures Lower(s) == s <==> !HasUpper(s)
  {
    if Lower(s) == s {
      forall i | 0 <= i < |s| ensures !IsUpper(s[i]) { assert Lower(s)[i] == s[i]; }
    }
  }

  function Spelled(vs: seq<Symbol>): (s: string)
    ensures |s| == |vs| && forall i | 0 <= i < |vs| :: s[i] == Glyph(vs[i])
  {
    seq(|vs|, i requires 0 <= i < |vs| => Glyph(vs[i]))
  }

  /** The symbols a string spells, when every character is a glyph. */
  function Read(s: string): (r: Option<seq<Symbol>>)
    ensures r.Some? ==> |r.value| == |s|
  {
    if s == [] then Some([]) else
    var front, last := Read(s[..|s| - 1]), Lookup(s[|s| - 1]);
    if front.None? || last.None? then None else Some(front.value + [last.value])
  }

  method ReadSymbols(s: string) returns (r: Option<seq<Symbol>>)
    ensures r == Read(s)
  {
    hide Lookup;
    var data: seq<Symbol> := [];
    for i := 0 to |s|
      invariant Read(s[..i]) == Some(data)
    {
      assert s[..i + 1][..i] == s[..i];
      var v := Lookup(s[i]);
      if v.None? {
        ReadStops(s, i + 1);
        return None;
      }
      data := data + [v.value];
    }
    assert s[..|s|] == s;
    r := Some(data);
  }

  lemma {:induction false} ReadStops(s: string, i: nat)
    requires i <= |s| && Read(s[..i]).None?
    ensures Read(s).None?
    decreases |s| - i
  {
    hide Lookup;
    if i == |s| {
      assert s[..i] == s;
    } else {
      assert s[..i + 1][..i] == s[..i];
      ReadStops(s, i + 1);
    }
  }

  lemma {:induction false} FindsNoEarlier(c: char, i: nat, k: nat)
    requires i <= k < 32 && CHARSET[k] == c
    requires forall j | i <= j < k :: CHARSET[j] != c
    ensures FindFrom(c, i) == Some(k)
    decreases k - i
  {
    if i < k { FindsNoEarlier(c, i + 1, k); }
  }

  lemma GlyphsDistinct(k: Symbol, j: nat)
    requires j < k
    ensures CHARSET[j] != CHARSET[k]
  {
  }

  lemma PlainGlyph(v: Symbol)
    ensures Glyph(v) != '1' && Glyph(v) != ':' && !IsUpper(Glyph(v)) && Glyph(v) < 128 as char
  {
  }

  lemma LookupGlyph(v: Symbol)
    ensures Lookup(Glyph(v)) == Some(v)
  {
    hide FindFrom;
    forall j | 0 <= j < v ensures CHARSET[j] != CHARSET[v] { GlyphsDistinct(v, j); }
    FindsNoEarlier(Glyph(v), 0, v);
  }

  lemma {:induction false} ReadSpelled(vs: seq<Symbol>)
    ensures Read(Spelled(vs)) == Some(vs)
    ensures IsAscii(Spelled(vs))
  {
    hide Lookup; hide Glyph;
    if vs != [] {
      var front, last := vs[..|vs| - 1], vs[|vs| - 1];
      assert Spelled(vs)[..|vs| - 1] == Spelled(front);
      ReadSpelled(front);
      LookupGlyph(last);
      PlainGlyph(last);
      assert vs == front + [last];
    }
  }
}
