/** Base58: big-integer digits, with leading zero bytes kept as leading ones. */
module Base58 {
  import opened Wrappers
  import opened Bytes
  import B = BitGroups

  const MAX_LENGTH: nat := 128

  type Digit = x: int | 0 <= x < 58

  /** The alphabet 1..9 A..H J..N P..Z a..k m..z, which leaves out 0, I, O and l. */
  function CharOf(d: Digit): char {
    if d < 9 then (49 + d) as char
    else if d < 17 then (65 + d - 9) as char
    else if d < 22 then (74 + d - 17) as char
    else if d < 33 then (80 + d - 22) as char
    else if d < 44 then (97 + d - 33) as char
    else (109 + d - 44) as char
  }

  function DigitOf(c: char): Option<Digit> {
    var k := c as int;
    if '1' <= c <= '9' then Some(k - 49)
    else if 'A' <= c <= 'H' then Some(k - 65 + 9)
    else if 'J' <= c <= 'N' then Some(k - 74 + 17)
    else if 'P' <= c <= 'Z' then Some(k - 80 + 22)
    else if 'a' <= c <= 'k' then Some(k - 97 + 33)
    else if 'm' <= c <= 'z' then Some(k - 109 + 44)
    else None
  }

  lemma DigitOfChar(d: Digit)
    ensures DigitOf(CharOf(d)) == Some(d)
  {
  }

  lemma CharOfDigit(c: char)
    requires DigitOf(c).Some?
    ensures CharOf(DigitOf(c).value) == c
  {
  }

  function Spelled(ds: seq<Digit>): (s: string)
    ensures |s| == |ds| && forall i | 0 <= i < |ds| :: s[i] == CharOf(ds[i])
  {
    seq(|ds|, i requires 0 <= i < |ds| => CharOf(ds[i]))
  }

  /** The digits a string spells, when every character is in the alphabet. */
  function Read(s: string): (r: Option<seq<Digit>>)
    ensures r.Some? ==> |r.value| == |s| && forall i | 0 <= i < |s| :: DigitOf(s[i]) == Some(r.value[i])
    ensures r.None? ==> exists i | 0 <= i < |s| :: DigitOf(s[i]).None?
  {
    if s == [] then Some([]) else
    var front, last := Read(s[..|s| - 1]), DigitOf(s[|s| - 1]);
    if front.None? || last.None? then None else Some(front.value + [last.value])
  }

  lemma ReadSpelled(ds: seq<Digit>)
    ensures Read(Spelled(ds)) == Some(ds)
  {
    hide CharOf; hide DigitOf; hide Read;
    var s := Spelled(ds);
    forall i | 0 <= i < |s| ensures DigitOf(s[i]) == Some(ds[i]) { DigitOfChar(ds[i]); }
    assert Read(s).Some?;
    assert Read(s).value == ds;
  }

  lemma SpelledRead(s: string)
    requires Read(s).Some?
    ensures Spelled(Read(s).value) == s
  {
    hide CharOf; hide DigitOf; hide Read;
    forall i | 0 <= i < |s| ensures Spelled(Read(s).value)[i] == s[i] { CharOfDigit(s[i]); }
  }

  // ---- Big-endian digits ---------------------------------------------------

  /** The shortest digits of x, most significant first. */
  function Big(x: nat, base: int): (s: seq<int>)
    requires base >= 2
    ensures IsDigits(s, base)
    ensures s != [] ==> s[0] != 0
  {
    Reversed(Digits(x, base))
  }

  lemma {:induction false} NumIsValue(s: seq<int>, base: int)
    ensures B.Num(s, base) == Value(Reversed(s), base)
  {
    if s != [] {
      var front, last := s[..|s| - 1], s[|s| - 1];
      NumIsValue(front, base);
      assert Reversed(s)[1..] == Reversed(front);
      assert B.Num(front, base) * base == base * Value(Reversed(front), base);
    }
  }

  lemma NumOfBig(x: nat, base: int)
    requires base >= 2
    ensures B.Num(Big(x, base), base) == x
  {
    NumIsValue(Big(x, base), base);
    assert Reversed(Big(x, base)) == Digits(x, base);
    ValueOfDigits(x, base);
  }

  lemma BigOfNum(s: seq<int>, base: int)
    requires base >= 2 && IsDigits(s, base) && (s != [] ==> s[0] != 0)
    ensures B.Num(s, base) >= 0 && Big(B.Num(s, base), base) == s
  {
    NumIsValue(s, base);
    DigitsOfValue(Reversed(s), base);
    assert Reversed(Reversed(s)) == s;
  }

  lemma {:induction false} LeadingZeros(n: nat, s: seq<int>, base: int)
    ensures B.Num(Repeat(0, n) + s, base) == B.Num(s, base)
  {
    if s == [] {
      assert Repeat(0, n) + s == Repeat(0, n);
      ZerosAreZero(n, base);
    } else {
      var front := s[..|s| - 1];
      assert (Repeat(0, n) + s)[..n + |s| - 1] == Repeat(0, n) + front;
      LeadingZeros(n, front, base);
    }
  }

  lemma {:induction false} ZerosAreZero(n: nat, base: int)
    ensures B.Num(Repeat(0, n), base) == 0
  {
    if n > 0 {
      assert Repeat(0, n)[..n - 1] == Repeat(0, n - 1);
      ZerosAreZero(n - 1, base);
    }
  }

  /** How many zeros a digit string starts with. */
  function Leading(s: seq<int>): (n: nat)
    ensures n <= |s| && (forall i | 0 <= i < n :: s[i] == 0) && (n < |s| ==> s[n] != 0)
  {
    if s == [] || s[0] != 0 then 0 else 1 + Leading(s[1..])
  }

  lemma LeadingIs(n: nat, s: seq<int>)
    requires s != [] ==> s[0] != 0
    ensures Leading(Repeat(0, n) + s) == n
  {
    var t := Repeat(0, n) + s;
    var k := Leading(t);
    assert n < |t| ==> t[n] == s[0];
  }

  // ---- Encoding and decoding -----------------------------------------------

  /** The same number in another base, with as many leading zeros as before. */
  function Rebase(s: seq<int>, from: int, to: int): seq<int>
    requires from >= 2 && to >= 2 && IsDigits(s, from)
  {
    B.NumBelow(s, from);
    Repeat(0, Leading(s)) + Big(B.Num(s, from), to)
  }

  lemma RebaseFits(s: seq<int>, from: int, to: int)
    requires from >= 2 && to >= 2 && IsDigits(s, from)
    ensures IsDigits(Rebase(s, from, to), to)
  {
  }

  /** Changing the base and back loses nothing. */
  lemma RebaseBack(s: seq<int>, from: int, to: int)
    requires from >= 2 && to >= 2 && IsDigits(s, from)
    ensures IsDigits(Rebase(s, from, to), to) && Rebase(Rebase(s, from, to), to, from) == s
  {
    var n := Leading(s);
    var rest := s[n..];
    B.NumBelow(s, from);
    var x := B.Num(s, from);
    assert s == Repeat(0, n) + rest;
    LeadingZeros(n, rest, from);
    BigOfNum(rest, from);
    RebaseFits(s, from, to);
    LeadingIs(n, Big(x, to));
    LeadingZeros(n, Big(x, to), to);
    NumOfBig(x, to);
  }

  function Encode(b: Data): string {
    RebaseFits(b, 256, 58);
    Spelled(Rebase(b, 256, 58))
  }

  function Decode(s: string): Option<Data> {
    if |s| > MAX_LENGTH then None else
    match Read(s)
    case None => None
    case Some(ds) => RebaseFits(ds, 58, 256); Some(Rebase(ds, 58, 256))
  }

  /** Decoding what was encoded gives it back, up to the length the decoder accepts. */
  lemma DecodeEncode(b: Data)
    ensures Decode(Encode(b)) == if |Encode(b)| <= MAX_LENGTH then Some(b) else None
  {
    RebaseBack(b, 256, 58);
    hide Rebase;
    ReadSpelled(Rebase(b, 256, 58));
  }

  /** Encoding what was decoded gives back the string, and only strings over the alphabet decode. */
  lemma EncodeDecode(s: string)
    ensures Decode(s).Some? <==> |s| <= MAX_LENGTH && forall i | 0 <= i < |s| :: DigitOf(s[i]).Some?
    ensures Decode(s).Some? ==> Encode(Decode(s).value) == s
  {
    hide Rebase; hide DigitOf;
    if Decode(s).Some? {
      RebaseBack(Read(s).value, 58, 256);
      SpelledRead(s);
    }
  }

  // ---- The loops -----------------------------------------------------------

  method Base58Encode(b: Data) returns (s: string)
    ensures s == Encode(b)
  {
    hide Rebase; hide Leading; hide Reversed;
    var x := FromBytes(b);
    B.NumBelow(b, 256);
    var out := PeelDigits(x);
    out := AppendZeros(b, out);
    var text := new Digit[|out|](k requires 0 <= k < |out| => out[k]);
    assert text[..] == out;
    ReverseInPlace(text);
    BackToFront(b, out);
    RebaseFits(b, 256, 58);
    s := Spelled(text[..]);
  }

  /** One more zero digit for every leading zero byte. */
  method AppendZeros(b: Data, out0: seq<Digit>) returns (out: seq<Digit>)
    ensures out == out0 + Repeat(0, Leading(b))
  {
    hide Leading;
    out := out0;
    var i := 0;
    while i < |b| && b[i] == 0
      invariant i <= |b| && out == out0 + Repeat(0, i) && forall k | 0 <= k < i :: b[k] == 0
    {
      out, i := out + [0], i + 1;
    }
    assert i == Leading(b);
  }

  lemma BackToFront(b: Data, out: seq<Digit>)
    requires B.Num(b, 256) >= 0 && out == Digits(B.Num(b, 256), 58) + Repeat(0, Leading(b))
    ensures Reversed(out) == Rebase(b, 256, 58)
  {
    hide Digits; hide B.Num; hide Leading;
  }

  method FromBytes(b: Data) returns (x: nat)
    ensures x == B.Num(b, 256)
  {
    x := 0;
    for i := 0 to |b|
      invariant x == B.Num(b[..i], 256)
    {
      assert b[..i + 1][..i] == b[..i];
      x := x * 256 + b[i];
    }
    assert b[..|b|] == b;
  }

  method PeelDigits(n: nat) returns (out: seq<Digit>)
    ensures out == Digits(n, 58)
  {
    hide Digits;
    var x := n;
    out := [];
    assert [] + Digits(n, 58) == Digits(n, 58);
    while x > 0
      invariant x >= 0 && Digits(n, 58) == out + Digits(x, 58)
      decreases x
    {
      PeelOne(x, out);
      out, x := out + [x % 58], x / 58;
    }
    assert out + Digits(0, 58) == out;
  }

  lemma PeelOne(x: nat, out: seq<int>)
    requires x > 0
    ensures out + Digits(x, 58) == (out + [x % 58]) + Digits(x / 58, 58)
  {
  }

  method ReverseInPlace(a: array<Digit>)
    modifies a
    ensures a[..] == Reversed(old(a[..]))
  {
    var i, j := 0, a.Length - 1;
    while i < j
      invariant 0 <= i <= a.Length && i + j == a.Length - 1
      invariant forall k | 0 <= k < i :: a[k] == old(a[a.Length - 1 - k]) && a[a.Length - 1 - k] == old(a[k])
      invariant forall k | i <= k <= j :: a[k] == old(a[k])
    {
      a[i], a[j] := a[j], a[i];
      i, j := i + 1, j - 1;
    }
  }

  method Base58Decode(s: string) returns (r: Option<Data>)
    ensures r == Decode(s)
  {
    hide DigitOf; hide B.Num; hide Big; hide Leading;
    if |s| > MAX_LENGTH { return None; }
    var x: int := 0;
    NothingRead();
    for i := 0 to |s|
      invariant Read(s[..i]).Some? && x == B.Num(Read(s[..i]).value, 58)
    {
      assert s[..i + 1][..i] == s[..i];
      var d := DigitOf(s[i]);
      if d.None? { return None; }
      B.NumSnoc(Read(s[..i]).value, d.value, 58);
      assert Read(s[..i + 1]) == Some(Read(s[..i]).value + [d.value]);
      x := x * 58 + d.value;
    }
    assert s[..|s|] == s;
    var leading := 0;
    while leading < |s| && s[leading] == '1'
      invariant leading <= |s| && forall k | 0 <= k < leading :: s[k] == '1'
    {
      leading := leading + 1;
    }
    OneIsZero(s, leading);
    ghost var ds := Read(s).value;
    B.NumBelow(ds, 58);
    RebaseFits(ds, 58, 256);
    r := Some(Repeat(0, leading) + Big(x, 256));
  }

  lemma NothingRead()
    ensures Read("") == Some([]) && B.Num([], 58) == 0
  {
  }

  /** Leading ones are the leading zero digits. */
  lemma OneIsZero(s: string, n: nat)
    requires Read(s).Some? && n <= |s|
    requires forall k | 0 <= k < n :: s[k] == '1'
    requires n < |s| ==> s[n] != '1'
    ensures Leading(Read(s).value) == n
  {
    hide Read;
    var ds := Read(s).value;
    forall k | 0 <= k < |s| ensures ds[k] == 0 <==> s[k] == '1' { assert DigitOf(s[k]) == Some(ds[k]); }
  }
}
