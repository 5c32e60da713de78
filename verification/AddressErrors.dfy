/** One mistyped character after the separator is refused by both address decoders. */
module AddressErrors {
  import opened Wrappers
  import opened Glyphs
  import C = Checksum
  import S = SegwitAddress
  import K = CashAddress
  import Substitution

  lemma {:induction false} FoundIs(c: char, i: nat)
    requires i <= 32 && FindFrom(c, i).Some?
    ensures CHARSET[FindFrom(c, i).value] == c
    decreases 32 - i
  {
    if CHARSET[i] != c { FoundIs(c, i + 1); }
  }

  lemma {:induction false} ReadAt(s: string, i: nat)
    requires Read(s).Some? && i < |s|
    ensures Lookup(s[i]) == Some(Read(s).value[i])
  {
    hide Lookup;
    if i < |s| - 1 {
      assert s[..|s| - 1][i] == s[i];
      ReadAt(s[..|s| - 1], i);
    }
  }

  /** Two readable strings that differ in one character read as symbols that differ in one place. */
  lemma OneOff(s: string, i: nat, c: char)
    requires i < |s| && c != s[i] && Read(s).Some? && Read(s[i := c]).Some?
    ensures var vs, ws := Read(s).value, Read(s[i := c]).value;
            vs[i] != ws[i] && vs == vs[..i] + [vs[i]] + vs[i + 1..] && ws == vs[..i] + [ws[i]] + vs[i + 1..]
  {
    var t := s[i := c];
    var vs, ws := Read(s).value, Read(t).value;
    ReadAt(s, i);
    ReadAt(t, i);
    FoundIs(s[i], 0);
    FoundIs(c, 0);
    hide Read; hide FindFrom;
    forall j | 0 <= j < |s| && j != i ensures vs[j] == ws[j] {
      ReadAt(s, j);
      ReadAt(t, j);
    }
  }

  lemma SegwitCheckFails(hrp: Ascii, s: string, i: nat, c: char)
    requires i < |s| <= 90 && c != s[i] && S.Checked(hrp, s).Some?
    ensures S.Checked(hrp, s[i := c]).None?
  {
    var p := S.ExpandHrp(hrp);
    hide C.Polymod; hide S.ExpandHrp; hide Read;
    if Read(s[i := c]).Some? {
      var vs, ws := Read(s).value, Read(s[i := c]).value;
      OneOff(s, i, c);
      assert p + vs == (p + vs[..i]) + [vs[i]] + vs[i + 1..];
      assert p + ws == (p + vs[..i]) + [ws[i]] + vs[i + 1..];
      Substitution.OneSymbolIsRefused(p + vs[..i], vs[i], ws[i], vs[i + 1..]);
    }
  }

  lemma CashCheckFails(prefix: Ascii, s: string, i: nat, c: char)
    requires i < |s| && c != s[i] && K.Checked(prefix, s).Some?
    ensures K.Checked(prefix, s[i := c]).None?
  {
    var p := K.ExpandPrefix(prefix);
    hide C.Polymod; hide K.ExpandPrefix; hide Read;
    if Read(s[i := c]).Some? {
      var vs, ws := Read(s).value, Read(s[i := c]).value;
      OneOff(s, i, c);
      assert p + vs == (p + vs[..i]) + [vs[i]] + vs[i + 1..];
      assert p + ws == (p + vs[..i]) + [ws[i]] + vs[i + 1..];
      Substitution.OneSymbolShows(C.CashAddr, p + vs[..i], vs[i], ws[i], vs[i + 1..]);
    }
  }

  lemma ChangedSplits(s: string, t: string, i: nat, pos: nat)
    requires |s| == |t| && pos < i < |s| && forall j | 0 <= j < |s| && j != i :: t[j] == s[j]
    ensures t[..pos] == s[..pos] && t[pos + 1..] == s[pos + 1..][i - pos - 1 := t[i]]
  {
  }

  /** A segwit address that passes the checks passes none of them with one character after the
      separator changed to another one, case aside and the separator itself excepted. */
  lemma SegwitTypoIsRefused(a: Ascii, i: nat, c: char)
    requires !S.Decode(a).Refused?
    requires S.LastOne(Lower(a)) < i < |a| && c < 128 as char && c != '1' && LowerChar(c) != LowerChar(a[i])
    ensures S.Decode(a[i := c]) == Refused
  {
    hide S.Checked; hide S.Payload; hide MixedCase; hide S.LastOne; hide LowerChar;
    var s, t := Lower(a), Lower(a[i := c]);
    var pos := S.LastOne(s);
    S.LastOneBounds(s);
    LowerNotOne(c);
    S.LastOneIs(t, pos);
    ChangedSplits(s, t, i, pos);
    SegwitCheckFails(s[..pos], s[pos + 1..], i - pos - 1, t[i]);
  }

  lemma LowerNotOne(c: char)
    requires c != '1'
    ensures LowerChar(c) != '1'
  {
  }

  /** A CashAddr address likewise, with any other character. */
  lemma CashTypoIsRefused(a: Ascii, want: string, i: nat, c: char)
    requires !K.Decode(a, want).Refused?
    requires K.ColonFrom(Lower(a), 0) < i < |a| && c < 128 as char && LowerChar(c) != LowerChar(a[i])
    ensures K.Decode(a[i := c], want) == Refused
  {
    hide K.Checked; hide K.Payload; hide MixedCase; hide K.ColonFrom; hide LowerChar;
    var s, t := Lower(a), Lower(a[i := c]);
    var pos := K.ColonFrom(s, 0);
    SameColon(s, t, 0, i);
    ChangedSplits(s, t, i, pos);
    CashCheckFails(s[..pos], s[pos + 1..], i - pos - 1, t[i]);
  }

  lemma {:induction false} SameColon(s: string, t: string, k: nat, i: nat)
    requires |s| == |t| && k <= |s| && K.ColonFrom(s, k) < i < |s| && forall j | 0 <= j < |s| && j != i :: t[j] == s[j]
    ensures K.ColonFrom(t, k) == K.ColonFrom(s, k) >= k
    decreases |s| - k
  {
    if k < |s| && s[k] != ':' { SameColon(s, t, k + 1, i); }
  }
}
