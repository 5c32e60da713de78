/** Bytes spelled in hexadecimal. */
module HexText {
  import opened Wrappers
  import opened Bytes

  function HexDigit(d: int): char
    requires 0 <= d < 16
  {
    if d < 10 then (48 + d) as char else (97 + d - 10) as char
  }

  function HexEncode(b: Data): (s: string)
    ensures |s| == 2 * |b|
  {
    if b == [] then "" else [HexDigit(b[0] / 16), HexDigit(b[0] % 16)] + HexEncode(b[1..])
  }

  function HexValue(c: char): Option<int> {
    if '0' <= c <= '9' then Some(c as int - 48)
    else if 'a' <= c <= 'f' then Some(c as int - 97 + 10)
    else if 'A' <= c <= 'F' then Some(c as int - 65 + 10)
    else None
  }

  /** Pairs of hex digits of either case; anything else does not decode. */
  function HexDecode(s: string): Option<Data> {
    if s == "" then Some([])
    else if |s| == 1 then None
    else
      var hi, lo, rest := HexValue(s[0]), HexValue(s[1]), HexDecode(s[2..]);
      if hi.None? || lo.None? || rest.None? || hi.value >= 16 || lo.value >= 16 then None
      else Some([16 * hi.value + lo.value] + rest.value)
  }

  predicate IsLowerHex(s: string) {
    forall i | 0 <= i < |s| :: '0' <= s[i] <= '9' || 'a' <= s[i] <= 'f'
  }

  /** One byte is spelled back as its two digits exactly when they are in lower case. */
  lemma PairRoundTrip(hi: char, lo: char)
    requires HexValue(hi).Some? && HexValue(lo).Some?
    ensures 0 <= HexValue(hi).value < 16 && 0 <= HexValue(lo).value < 16
    ensures var v := 16 * HexValue(hi).value + HexValue(lo).value;
            HexDigit(v / 16) == hi && HexDigit(v % 16) == lo <==> IsLowerHex([hi, lo])
  {
    var v := 16 * HexValue(hi).value + HexValue(lo).value;
    assert v / 16 == HexValue(hi).value && v % 16 == HexValue(lo).value;
    assert IsLowerHex([hi, lo]) <==>
           ('0' <= [hi, lo][0] <= '9' || 'a' <= [hi, lo][0] <= 'f') && ('0' <= [hi, lo][1] <= '9' || 'a' <= [hi, lo][1] <= 'f');
  }

  lemma LowerSplits(hi: char, lo: char, rest: string)
    ensures IsLowerHex([hi, lo] + rest) <==> IsLowerHex([hi, lo]) && IsLowerHex(rest)
  {
    var s := [hi, lo] + rest;
    assert s[..2] == [hi, lo] && s[2..] == rest;
  }

  /** What decodes is spelled back in lower case. */
  lemma {:induction false} HexRoundTrip(s: string)
    requires HexDecode(s).Some?
    ensures HexEncode(HexDecode(s).value) == s <==> IsLowerHex(s)
  {
    hide IsLowerHex; hide HexValue; hide HexDigit;
    if s == "" {
      NoDigits();
    } else {
      var hi, lo, rest := s[0], s[1], s[2..];
      HexRoundTrip(rest);
      PairRoundTrip(hi, lo);
      LowerSplits(hi, lo, rest);
      assert s == [hi, lo] + rest;
      var v := 16 * HexValue(hi).value + HexValue(lo).value;
      var b := HexDecode(rest).value;
      assert HexDecode(s).value == [v] + b && ([v] + b)[1..] == b;
      SamePair(HexDigit(v / 16), HexDigit(v % 16), HexEncode(b), hi, lo, rest);
    }
  }

  lemma NoDigits()
    ensures HexDecode("") == Some([]) && HexEncode([]) == "" && IsLowerHex("")
  {
  }

  lemma SamePair(a: char, b: char, s: string, c: char, d: char, t: string)
    ensures [a, b] + s == [c, d] + t <==> a == c && b == d && s == t
  {
    var x, y := [a, b] + s, [c, d] + t;
    assert x[0] == a && x[1] == b && x[2..] == s && y[0] == c && y[1] == d && y[2..] == t;
  }
}
