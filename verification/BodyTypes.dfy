/** The bodies of the packet commands: one field list each, and what may follow the fields. */
module BodyTypes {
  import opened Wrappers
  import opened Bytes
  import opened WireBody

  datatype Ending =
    | Exact                       // nothing may follow
    | Loose                       // what follows is ignored
    | Within(lo: nat, hi: nat)    // ignored too, but the body is longer than lo and no longer than hi
    | OptionalLast                // the last number may be missing, and then reads as zero

  datatype Layout = Layout(kinds: seq<Kind>, ending: Ending)

  const ORDER := 3
  const PENDING := 4
  const ACCEPTING := 5
  const HOLD := 6
  const HOLD_APPLY := 7
  const INIT := 8
  const INITIALIZED := 9
  const CREATE_A := 10
  const CREATED_A := 11
  const CREATE_B := 12
  const CREATED_B := 13
  const CONFIRM_A := 18
  const CONFIRMED_A := 19
  const CONFIRM_B := 20
  const CONFIRMED_B := 21
  const CANCEL := 22
  const FINISHED := 24
  const REJECT := 26

  /** The layout of a command's body; commands without a typed body have none. */
  function LayoutOf(cmd: int): Option<Layout> {
    var addr, hash, key, amount, u32 := Raw(20), Raw(32), Raw(33), Num(8), Num(4);
    if cmd == ORDER then
      Some(Layout([hash, addr, Currency, amount, addr, Currency, amount, amount, hash, Flag, amount, Utxos], Loose))
    else if cmd == PENDING then
      Some(Layout([hash, Currency, amount, Currency, amount, addr, amount, hash, Flag, amount], OptionalLast))
    else if cmd == ACCEPTING then
      Some(Layout([addr, hash, Blob, addr, Currency, amount, u32, Raw(8), addr, Currency, amount, u32, Raw(8), Utxos], Loose))
    else if cmd == HOLD then Some(Layout([addr, hash, amount, amount], Exact))
    else if cmd == HOLD_APPLY || cmd == INITIALIZED then Some(Layout([addr, addr, hash], Exact))
    else if cmd == INIT then
      Some(Layout([addr, addr, hash, addr, Currency, amount, addr, Currency, amount], Exact))
    else if cmd == CREATE_A then Some(Layout([addr, hash, key], Exact))
    else if cmd == CREATED_A then Some(Layout([addr, hash, Text, addr, u32, Text, Text], Loose))
    else if cmd == CREATE_B then Some(Layout([addr, hash, key, Text, addr, u32], Loose))
    else if cmd == CREATED_B then Some(Layout([addr, hash, Text, u32, Text, Text], Loose))
    else if cmd == CONFIRM_A then Some(Layout([addr, hash, Text, u32], Within(56, 1000)))
    else if cmd == CONFIRMED_A || cmd == CONFIRM_B || cmd == CONFIRMED_B then Some(Layout([addr, hash, Text], Within(52, 1000)))
    else if cmd == CANCEL || cmd == REJECT then Some(Layout([hash, u32], Exact))
    else if cmd == FINISHED then Some(Layout([hash], Exact))
    else None
  }

  // ---- Field lists ---------------------------------------------------------

  predicate FitAll(ks: seq<Kind>, fs: seq<Field>) {
    |ks| == |fs| && forall i | 0 <= i < |ks| :: Fits(ks[i], fs[i])
  }

  predicate LegalAll(ks: seq<Kind>, fs: seq<Field>) {
    |ks| == |fs| && forall i | 0 <= i < |ks| :: Legal(ks[i], fs[i])
  }

  function Encoded(ks: seq<Kind>, fs: seq<Field>): Data
    requires FitAll(ks, fs)
  {
    if ks == [] then []
    else Encoded(ks[..|ks| - 1], fs[..|fs| - 1]) + Write(ks[|ks| - 1], fs[|fs| - 1])
  }

  /** The fields read off the front of b, and the bytes after them. */
  function Parsed(ks: seq<Kind>, b: Data): (r: Option<(seq<Field>, Data)>)
    ensures r.Some? ==> |r.value.0| == |ks|
  {
    if ks == [] then Some(([], b)) else
    match Parsed(ks[..|ks| - 1], b)
    case None => None
    case Some(r) =>
      match ReadField(ks[|ks| - 1], r.1)
      case None => None
      case Some(f) => Some((r.0 + [f.0], f.1))
  }

  /** Every flag read is 0 or 1. */
  predicate PlainFlags(ks: seq<Kind>, b: Data) {
    ks == [] ||
    var k, r := ks[|ks| - 1], Parsed(ks[..|ks| - 1], b);
    && PlainFlags(ks[..|ks| - 1], b)
    && (r.Some? && k.Flag? && |r.value.1| >= 2 ==> PlainFlag(k, r.value.1))
  }

  lemma {:induction false} ListReads(ks: seq<Kind>, fs: seq<Field>, rest: Data)
    requires FitAll(ks, fs) && LegalAll(ks, fs)
    ensures Parsed(ks, Encoded(ks, fs) + rest) == Some((fs, rest))
  {
    hide Legal; hide Fits; hide Write; hide ReadField;
    if ks == [] {
      assert [] + rest == rest;
    } else {
      var n := |ks| - 1;
      var last := Write(ks[n], fs[n]);
      assert Encoded(ks, fs) + rest == Encoded(ks[..n], fs[..n]) + (last + rest);
      ListReads(ks[..n], fs[..n], last + rest);
      FieldReads(ks[n], fs[n], rest);
      assert fs[..n] + [fs[n]] == fs;
    }
  }

  /** Prefix and suffix rebuild b through the middle r1 exactly when both halves do. */
  lemma Rejoin(e: Data, w: Data, rest: Data, r1: Data, b: Data)
    requires |e| + |r1| == |b| && r1 == b[|b| - |r1|..] && |w| + |rest| == |r1|
    ensures e + w + rest == b <==> e + r1 == b && w + rest == r1
  {
    assert e + w + rest == e + (w + rest);
    if e + (w + rest) == b {
      assert (e + (w + rest))[|e|..] == w + rest;
    }
  }

  lemma LegalFits(k: Kind, f: Field)
    requires Legal(k, f)
    ensures Fits(k, f)
  {
  }

  lemma EncodedAppend(ks: seq<Kind>, fs: seq<Field>, k: Kind, f: Field)
    requires FitAll(ks, fs) && LegalAll(ks, fs) && Legal(k, f)
    ensures FitAll(ks + [k], fs + [f]) && LegalAll(ks + [k], fs + [f])
    ensures Encoded(ks + [k], fs + [f]) == Encoded(ks, fs) + Write(k, f)
  {
    hide Write;
    assert (ks + [k])[..|ks|] == ks && (fs + [f])[..|fs|] == fs;
  }

  lemma ParsedAppend(ks: seq<Kind>, k: Kind, b: Data)
    ensures Parsed(ks + [k], b) ==
            (match Parsed(ks, b)
             case None => None
             case Some(p) => match ReadField(k, p.1) case None => None case Some(f) => Some((p.0 + [f.0], f.1)))
    ensures PlainFlags(ks + [k], b) <==>
            PlainFlags(ks, b)
            && (Parsed(ks, b).Some? && k.Flag? && |Parsed(ks, b).value.1| >= 2 ==> PlainFlag(k, Parsed(ks, b).value.1))
  {
    hide ReadField; hide PlainFlag;
    assert (ks + [k])[..|ks|] == ks;
  }

  /** The fields fs and the rest, read from b, are legal and give b back, plain flags taken for granted. */
  predicate ListBack(ks: seq<Kind>, b: Data, fs: seq<Field>, rest: Data) {
    && LegalAll(ks, fs) && FitAll(ks, fs)
    && |Encoded(ks, fs)| + |rest| == |b| && rest == b[|b| - |rest|..]
    && (Encoded(ks, fs) + rest == b <==> PlainFlags(ks, b))
  }

  lemma NothingBack(b: Data)
    ensures Parsed([], b) == Some(([], b)) && ListBack([], b, [], b)
  {
    assert [] + b == b;
  }

  lemma OneMoreBack(ks: seq<Kind>, k: Kind, b: Data, fs: seq<Field>, r1: Data, f: Field, rest: Data)
    requires Parsed(ks, b) == Some((fs, r1)) && ListBack(ks, b, fs, r1) && WritesBack(k, r1, (f, rest))
    ensures ListBack(ks + [k], b, fs + [f], rest)
  {
    hide Legal; hide Fits; hide Write; hide ReadField; hide Encoded; hide PlainFlags; hide Parsed; hide LegalAll; hide FitAll;
    hide PlainFlag;
    LegalFits(k, f);
    ParsedAppend(ks, k, b);
    EncodedAppend(ks, fs, k, f);
    Rejoin(Encoded(ks, fs), Write(k, f), rest, r1, b);
    assert rest == b[|b| - |rest|..];
  }

  lemma {:induction false} ListWrites(ks: seq<Kind>, b: Data)
    requires Parsed(ks, b).Some?
    ensures ListBack(ks, b, Parsed(ks, b).value.0, Parsed(ks, b).value.1)
  {
    hide ListBack; hide Parsed; hide ReadField; hide WritesBack;
    if ks == [] {
      NothingBack(b);
    } else {
      var front, k := ks[..|ks| - 1], ks[|ks| - 1];
      assert ks == front + [k];
      ParsedAppend(front, k, b);
      ListWrites(front, b);
      var (fs, r1) := Parsed(front, b).value;
      FieldWrites(k, r1);
      var (f, rest) := ReadField(k, r1).value;
      OneMoreBack(front, k, b, fs, r1, f, rest);
    }
  }

  // ---- Bodies --------------------------------------------------------------

  function DecodedLast(fs: seq<Field>, k: Kind, rest: Data): Option<seq<Field>> {
    if rest == [] then Some(fs + [Number(0)])
    else if |rest| != 8 then None
    else match ReadField(k, rest) case None => None case Some(f) => Some(fs + [f.0])
  }

  /** A body is read: its fields, or nothing when it is refused. */
  function Decoded(l: Layout, d: Data): Option<seq<Field>>
    requires l.ending.OptionalLast? ==> l.kinds != []
  {
    var n := |l.kinds|;
    var ks := if l.ending.OptionalLast? then l.kinds[..n - 1] else l.kinds;
    match Parsed(ks, d)
    case None => None
    case Some(r) =>
      match l.ending
      case Exact => if r.1 == [] then Some(r.0) else None
      case Loose => Some(r.0)
      case Within(lo, hi) => if lo < |d| <= hi then Some(r.0) else None
      case OptionalLast => DecodedLast(r.0, l.kinds[n - 1], r.1)
  }

  /** What a body can carry there and back. */
  predicate LegalBody(l: Layout, fs: seq<Field>) {
    && FitAll(l.kinds, fs) && LegalAll(l.kinds, fs)
    && (l.ending.Within? ==> l.ending.lo < |Encoded(l.kinds, fs)| <= l.ending.hi)
  }

  /** The accepted bytes that a legal body is written as: plain flags, nothing ignored, nothing missing. */
  predicate Canonical(l: Layout, d: Data)
    requires l.ending.OptionalLast? ==> l.kinds != []
  {
    var n := |l.kinds|;
    var ks := if l.ending.OptionalLast? then l.kinds[..n - 1] else l.kinds;
    && PlainFlags(ks, d)
    && (Parsed(ks, d).Some? ==> (l.ending.OptionalLast? <==> Parsed(ks, d).value.1 != []))
  }

  predicate Standard(l: Layout) {
    && (l.ending.OptionalLast? ==> l.kinds != [] && l.kinds[|l.kinds| - 1] == Num(8))
    && (l.ending.Within? ==> MinLength(l.kinds) > l.ending.lo)
  }

  /** A length every body of these fields has at least. */
  function MinLength(ks: seq<Kind>): nat {
    if ks == [] then 0 else
    var k := ks[|ks| - 1];
    MinLength(ks[..|ks| - 1]) + (match k case Raw(n) => n case Num(n) => n case Flag => 2 case Currency => 8
                                 case Text => 1 case Blob => 4 case Utxos => 4)
  }

  lemma {:induction false} LengthAtLeast(ks: seq<Kind>, fs: seq<Field>)
    requires FitAll(ks, fs)
    ensures |Encoded(ks, fs)| >= MinLength(ks)
  {
    hide LeBytes; hide WriteUtxos; hide FitsUtxo; hide Power;
    if ks != [] { LengthAtLeast(ks[..|ks| - 1], fs[..|fs| - 1]); }
  }

  lemma LayoutsAreStandard(cmd: int)
    requires LayoutOf(cmd).Some?
    ensures Standard(LayoutOf(cmd).value)
  {
    var l := LayoutOf(cmd).value;
    if l.ending.Within? {
      var ks := l.kinds;
      assert ks[..3] == [Raw(20), Raw(32), Text];
      assert ks[..3][..2] == [Raw(20), Raw(32)] && [Raw(20), Raw(32)][..1] == [Raw(20)];
      assert MinLength([Raw(20)]) == 20;
      assert MinLength([Raw(20), Raw(32)]) == 52;
      assert MinLength(ks[..3]) == 53;
      if |ks| == 4 { assert MinLength(ks) == 57; } else { assert ks[..3] == ks; }
    }
  }

  lemma LastWrites(l: Layout, d: Data)
    requires l.ending.OptionalLast? && Standard(l) && Decoded(l, d).Some?
    ensures var fs := Decoded(l, d).value;
            LegalBody(l, fs) && (Encoded(l.kinds, fs) == d <==> Canonical(l, d))
  {
    hide PlainFlags; hide Encoded; hide FitAll; hide LegalAll; hide Write; hide ReadField; hide Parsed; hide Fits; hide Legal;
    var n := |l.kinds| - 1;
    var ks, k := l.kinds[..n], l.kinds[n];
    assert l.kinds == ks + [k];
    ListWrites(ks, d);
    var (front, rest) := Parsed(ks, d).value;
    if rest == [] {
      ZeroIsLegal();
      EncodedAppend(ks, front, k, Number(0));
    } else {
      FieldWrites(k, rest);
      var (f, none) := ReadField(k, rest).value;
      NumTakesEight(f, none, rest);
      EncodedAppend(ks, front, k, f);
    }
  }

  lemma ZeroIsLegal()
    ensures Legal(Num(8), Number(0)) && |Write(Num(8), Number(0))| == 8
  {
    Powers256();
  }

  lemma NumTakesEight(f: Field, none: Data, rest: Data)
    requires |rest| == 8 && WritesBack(Num(8), rest, (f, none))
    ensures none == [] && Fits(Num(8), f) && Write(Num(8), f) == rest
  {
    hide LeBytes; hide Power;
    assert |Write(Num(8), f)| == 8;
    assert Write(Num(8), f) + [] == Write(Num(8), f);
  }

  /** Whatever is accepted is legal, and writing it again gives the accepted bytes exactly
      when these are canonical. */
  lemma AcceptedIsLegal(l: Layout, d: Data)
    requires Standard(l) && Decoded(l, d).Some?
    ensures var fs := Decoded(l, d).value;
            LegalBody(l, fs) && (Encoded(l.kinds, fs) == d <==> Canonical(l, d))
  {
    hide PlainFlags;
    if l.ending.OptionalLast? {
      LastWrites(l, d);
    } else {
      ListWrites(l.kinds, d);
      var (fs, rest) := Parsed(l.kinds, d).value;
      LengthAtLeast(l.kinds, fs);
      var e := Encoded(l.kinds, fs);
      if rest == [] { assert e + rest == e; }
    }
  }

  lemma LegalIsRead(l: Layout, fs: seq<Field>)
    requires Standard(l) && LegalBody(l, fs)
    ensures Decoded(l, Encoded(l.kinds, fs)) == Some(fs)
  {
    hide PlainFlags; hide Encoded; hide Parsed; hide ReadField; hide Write; hide Legal;
    var e := Encoded(l.kinds, fs);
    assert e + [] == e;
    if l.ending.OptionalLast? {
      LastIsRead(l, fs);
    } else {
      ListReads(l.kinds, fs, []);
    }
  }

  lemma LastIsRead(l: Layout, fs: seq<Field>)
    requires Standard(l) && LegalBody(l, fs) && l.ending.OptionalLast?
    ensures Decoded(l, Encoded(l.kinds, fs)) == Some(fs)
  {
    hide PlainFlags; hide Encoded; hide Parsed; hide ReadField; hide Write; hide Legal; hide Fits;
    var n := |l.kinds| - 1;
    var k, front := l.kinds[n], fs[..n];
    assert l.kinds == l.kinds[..n] + [k] && fs == front + [fs[n]];
    EncodedAppend(l.kinds[..n], front, k, fs[n]);
    var last := Write(k, fs[n]);
    ListReads(l.kinds[..n], front, last);
    FieldReads(k, fs[n], []);
    EightBytes(fs[n]);
    assert last + [] == last;
  }

  lemma EightBytes(f: Field)
    requires Legal(Num(8), f)
    ensures Fits(Num(8), f) && |Write(Num(8), f)| == 8
  {
    hide LeBytes; hide Power;
  }

  /** A body comes back as it was sent exactly when its fields are ones the wire can carry. */
  lemma BodyRoundTrip(cmd: int, fs: seq<Field>)
    requires LayoutOf(cmd).Some? && FitAll(LayoutOf(cmd).value.kinds, fs)
    ensures Standard(LayoutOf(cmd).value)
    ensures var l := LayoutOf(cmd).value; Decoded(l, Encoded(l.kinds, fs)) == Some(fs) <==> LegalBody(l, fs)
  {
    hide LayoutOf; hide Encoded; hide Decoded; hide LegalBody; hide Canonical; hide Standard;
    var l := LayoutOf(cmd).value;
    LayoutsAreStandard(cmd);
    NeedsKinds(l);
    if LegalBody(l, fs) {
      LegalIsRead(l, fs);
    } else if Decoded(l, Encoded(l.kinds, fs)) == Some(fs) {
      AcceptedIsLegal(l, Encoded(l.kinds, fs));
    }
  }

  lemma NeedsKinds(l: Layout)
    requires Standard(l)
    ensures l.ending.OptionalLast? ==> l.kinds != []
  {
  }

  lemma {:induction false} NoFlags(ks: seq<Kind>, b: Data)
    requires Flag !in ks
    ensures PlainFlags(ks, b)
  {
    if ks != [] { NoFlags(ks[..|ks| - 1], b); }
  }

  /** The commands whose bodies end exactly and carry no flag: accepted bytes and legal
      bodies match one to one. */
  predicate OneToOne(cmd: int) {
    cmd in {HOLD, HOLD_APPLY, INIT, INITIALIZED, CREATE_A, CANCEL, FINISHED, REJECT}
  }

  lemma OneToOneLayout(cmd: int)
    requires OneToOne(cmd)
    ensures LayoutOf(cmd).Some? && LayoutOf(cmd).value.ending.Exact? && Flag !in LayoutOf(cmd).value.kinds
  {
  }

  lemma AcceptedIsWritten(cmd: int, d: Data)
    requires OneToOne(cmd) && Decoded(LayoutOf(cmd).value, d).Some?
    ensures var l := LayoutOf(cmd).value;
            FitAll(l.kinds, Decoded(l, d).value) && Encoded(l.kinds, Decoded(l, d).value) == d
  {
    hide LayoutOf; hide OneToOne; hide Encoded; hide PlainFlags; hide FitAll; hide LegalAll;
    OneToOneLayout(cmd);
    var l := LayoutOf(cmd).value;
    AcceptedIsLegal(l, d);
    NoFlags(l.kinds, d);
  }

  // ---- The writer and the reader -------------------------------------------

  class BodyWriter {
    var buf: Data

    constructor ()
      ensures buf == []
    {
      buf := [];
    }

    method Bytes(b: Data)
      modifies this
      ensures buf == old(buf) + b
    {
      buf := buf + b;
    }

    method Uint(v: nat, size: nat)
      modifies this
      ensures buf == old(buf) + LeBytes(v, size)
    {
      buf := buf + LeBytes(v, size);
    }

    method String(s: Data)
      modifies this
      ensures buf == old(buf) + (s + [0])
    {
      buf := buf + s;
      buf := buf + [0];
    }

    method CurrencyCode(s: Data)
      modifies this
      ensures buf == old(buf) + Padded(s)
    {
      var b: Data := Repeat<Byte>(0, 8);
      var i := 0;
      while i < 8 && i < |s|
        invariant 0 <= i <= 8 && i <= |s| && |b| == 8
        invariant b == s[..i] + Repeat<Byte>(0, 8 - i)
      {
        b := b[i := s[i]];
        i := i + 1;
      }
      if |s| >= 8 { assert s[..8] + Repeat<Byte>(0, 0) == s[..8]; } else { assert s[..|s|] == s; }
      buf := buf + b;
    }

    method UtxoArray(s: seq<Utxo>)
      requires forall i | 0 <= i < |s| :: FitsUtxo(s[i])
      modifies this
      ensures buf == old(buf) + (LeBytes(|s|, 4) + WriteUtxos(s))
    {
      hide LeBytes; hide FitsUtxo;
      Uint(|s|, 4);
      ghost var start := buf;
      for i := 0 to |s|
        invariant buf == start + WriteUtxos(s[..i])
      {
        ghost var before := buf;
        Bytes(s[i].txid);
        Uint(s[i].vout, 4);
        Bytes(s[i].rawAddress);
        Bytes(s[i].signature);
        assert buf == before + WriteUtxo(s[i]);
        assert s[..i + 1][..i] == s[..i];
      }
      assert s[..|s|] == s;
    }

    method Put(k: Kind, f: Field)
      requires Fits(k, f)
      modifies this
      ensures buf == old(buf) + Write(k, f)
    {
      hide LeBytes; hide Padded; hide WriteUtxos; hide FitsUtxo; hide Power;
      match k
      case Raw(_) => Bytes(f.bytes);
      case Num(n) => Uint(f.value, n);
      case Flag => if f.on { Uint(1, 2); } else { Uint(0, 2); }
      case Currency => CurrencyCode(f.text);
      case Text => String(f.text);
      case Blob => Uint(|f.bytes|, 4); Bytes(f.bytes);
      case Utxos => UtxoArray(f.list);
    }
  }

  /** Every field of a body is appended in turn. */
  method Marshal(ks: seq<Kind>, fs: seq<Field>) returns (b: Data)
    requires FitAll(ks, fs)
    ensures b == Encoded(ks, fs)
  {
    hide Fits; hide Write;
    var w := new BodyWriter();
    for i := 0 to |ks|
      invariant w.buf == Encoded(ks[..i], fs[..i])
    {
      w.Put(ks[i], fs[i]);
      assert ks[..i + 1][..i] == ks[..i] && fs[..i + 1][..i] == fs[..i];
    }
    assert ks[..|ks|] == ks && fs[..|fs|] == fs;
    b := w.buf;
  }

  class BodyReader {
    const data: Data
    var pos: nat

    ghost predicate Valid()
      reads this
    {
      pos <= |data|
    }

    /** The bytes not read yet. */
    ghost function Rest(): Data
      requires Valid()
      reads this
    {
      data[pos..]
    }

    constructor (b: Data)
      ensures Valid() && data == b && pos == 0
    {
      data, pos := b, 0;
    }

    method Bytes(n: nat) returns (r: Option<Data>)
      requires Valid()
      modifies this
      ensures Valid() && r.Some? == T.Take(old(Rest()), n).Some?
      ensures r.Some? ==> T.Take(old(Rest()), n) == Some((r.value, Rest()))
    {
      if |data| - pos < n { return None; }
      assert data[pos..][..n] == data[pos..pos + n] && data[pos..][n..] == data[pos + n..];
      r := Some(data[pos..pos + n]);
      pos := pos + n;
    }

    method Uint(size: nat) returns (r: Option<nat>)
      requires Valid()
      modifies this
      ensures Valid() && r.Some? == T.ReadLe(old(Rest()), size).Some?
      ensures r.Some? ==> T.ReadLe(old(Rest()), size) == Some((r.value, Rest()))
    {
      if |data| - pos < size { return None; }
      assert data[pos..][..size] == data[pos..pos + size] && data[pos..][size..] == data[pos + size..];
      LeOfValue(data[pos..pos + size]);
      r := Some(Value(data[pos..pos + size], 256));
      pos := pos + size;
    }

    method String() returns (r: Option<Data>)
      requires Valid()
      modifies this
      ensures Valid()
      ensures var b := old(Rest()); var z := FirstZero(b);
              if r.Some? then z < |b| && r.value == b[..z] && Rest() == b[z + 1..] else z == |b|
    {
      ghost var b := Rest();
      for i := pos to |data|
        invariant pos == old(pos)
        invariant 0 !in data[pos..i]
      {
        if data[i] == 0 {
          FirstZeroIs(b, i - pos);
          r := Some(data[pos..i]);
          pos := i + 1;
          return;
        }
        assert data[pos..i + 1] == data[pos..i] + [data[i]];
      }
      FirstZeroIs(b, |b|);
      return None;
    }

    method CurrencyCode() returns (r: Option<Data>)
      requires Valid()
      modifies this
      ensures Valid() && r.Some? == T.Take(old(Rest()), 8).Some?
      ensures r.Some? ==> r.value == Trimmed(T.Take(old(Rest()), 8).value.0) && Rest() == T.Take(old(Rest()), 8).value.1
    {
      var b := Bytes(8);
      if b.None? { return None; }
      var end := |b.value|;
      while end > 0 && b.value[end - 1] == 0
        invariant 0 <= end <= |b.value|
        invariant Trimmed(b.value[..end]) == Trimmed(b.value)
      {
        assert b.value[..end][..end - 1] == b.value[..end - 1];
        end := end - 1;
      }
      return Some(b.value[..end]);
    }

    method Entry() returns (r: Option<Utxo>)
      requires Valid()
      modifies this
      ensures Valid() && r.Some? == ReadUtxo(old(Rest())).Some?
      ensures r.Some? ==> ReadUtxo(old(Rest())) == Some((r.value, Rest()))
    {
      ghost var p := pos;
      var txid := Bytes(32);
      if txid.None? { return None; }
      var vout := Uint(4);
      if vout.None? { return None; }
      var addr := Bytes(20);
      if addr.None? { return None; }
      var sig := Bytes(65);
      if sig.None? { return None; }
      EntryParts(data[p..]);
      return Some(Utxo(txid.value, vout.value, addr.value, sig.value));
    }

    method UtxoArray() returns (r: Option<seq<Utxo>>)
      requires Valid()
      modifies this
      ensures Valid() && r.Some? == ReadField(Utxos, old(Rest())).Some?
      ensures r.Some? ==> ReadField(Utxos, old(Rest())) == Some((Coins(r.value), Rest()))
    {
      hide T.ReadLe; hide ReadUtxo; hide FitsUtxo;
      var n := Uint(4);
      if n.None? { return None; }
      if n.value > MAX_UTXO_ENTRIES || n.value * UTXO_BYTES > |data| - pos { return None; }
      ghost var b := Rest();
      var list := [];
      for i := 0 to n.value
        invariant Valid() && ReadUtxos(b, i) == Some((list, Rest()))
      {
        var u := Entry();
        if u.None? {
          UtxosStop(b, i + 1, n.value);
          return None;
        }
        list := list + [u.value];
      }
      return Some(list);
    }

    method Get(k: Kind) returns (r: Option<Field>)
      requires Valid()
      modifies this
      ensures Valid() && r.Some? == ReadField(k, old(Rest())).Some?
      ensures r.Some? ==> ReadField(k, old(Rest())) == Some((r.value, Rest()))
    {
      hide T.ReadLe; hide T.Take; hide FirstZero; hide Trimmed; hide ReadUtxos;
      match k
      case Raw(n) =>
        var b := Bytes(n);
        return if b.None? then None else Some(Plain(b.value));
      case Num(n) =>
        var v := Uint(n);
        return if v.None? then None else Some(Number(v.value));
      case Flag =>
        var v := Uint(2);
        return if v.None? then None else Some(Truth(v.value != 0));
      case Currency =>
        var s := CurrencyCode();
        return if s.None? then None else Some(Name(s.value));
      case Text =>
        var s := String();
        return if s.None? then None else Some(Name(s.value));
      case Blob =>
        var n := Uint(4);
        if n.None? { return None; }
        var b := Bytes(n.value);
        return if b.None? then None else Some(Plain(b.value));
      case Utxos =>
        var list := UtxoArray();
        return if list.None? then None else Some(Coins(list.value));
    }
  }

  /** The four parts of an entry, read one after the other. */
  lemma EntryParts(b: Data)
    requires |b| >= UTXO_BYTES
    ensures b[32..][..4] == b[32..36] && b[32..][4..] == b[36..]
    ensures b[36..][..20] == b[36..56] && b[36..][20..] == b[56..]
    ensures b[56..][..65] == b[56..UTXO_BYTES] && b[56..][65..] == b[UTXO_BYTES..]
  {
  }

  lemma {:induction false} UtxosStop(b: Data, i: nat, n: nat)
    requires i <= n && ReadUtxos(b, i).None?
    ensures ReadUtxos(b, n).None?
    decreases n - i
  {
    if i < n { UtxosStop(b, i + 1, n); }
  }

  lemma {:induction false} ParsedStops(ks: seq<Kind>, b: Data, i: nat)
    requires i <= |ks| && Parsed(ks[..i], b).None?
    ensures Parsed(ks, b).None?
    decreases |ks| - i
  {
    if i == |ks| {
      assert ks[..i] == ks;
    } else {
      assert ks[..i + 1][..i] == ks[..i];
      ParsedStops(ks, b, i + 1);
    }
  }

  /** The fields of a body in turn, the first that fails refusing the whole. */
  method ReadFields(r: BodyReader, ks: seq<Kind>) returns (fs: Option<seq<Field>>)
    requires r.Valid()
    modifies r
    ensures r.Valid() && fs.Some? == Parsed(ks, old(r.Rest())).Some?
    ensures fs.Some? ==> Parsed(ks, old(r.Rest())) == Some((fs.value, r.Rest()))
  {
    hide ReadField;
    var list := [];
    for i := 0 to |ks|
      invariant r.Valid() && Parsed(ks[..i], old(r.Rest())) == Some((list, r.Rest()))
    {
      assert ks[..i + 1][..i] == ks[..i];
      var f := r.Get(ks[i]);
      if f.None? {
        ParsedStops(ks, old(r.Rest()), i + 1);
        return None;
      }
      list := list + [f.value];
    }
    assert ks[..|ks|] == ks;
    return Some(list);
  }

  method Unmarshal(l: Layout, d: Data) returns (fs: Option<seq<Field>>)
    requires Standard(l)
    ensures fs == Decoded(l, d)
  {
    hide Parsed; hide ReadField;
    var r := new BodyReader(d);
    assert d[0..] == d;
    var n := |l.kinds|;
    fs := ReadFields(r, if l.ending.OptionalLast? then l.kinds[..n - 1] else l.kinds);
    if fs.None? { return None; }
    match l.ending
    case Exact => if |r.data| != r.pos { return None; }
    case Loose =>
    case Within(lo, hi) => if |d| <= lo || |d| > hi { return None; }
    case OptionalLast =>
      if |r.data| == r.pos { return Some(fs.value + [Number(0)]); }
      if |r.data| - r.pos != 8 { return None; }
      var last := r.Get(l.kinds[n - 1]);
      return if last.None? then None else Some(fs.value + [last.value]);
  }

  lemma {:induction false} FirstZeroIs(b: Data, i: nat)
    requires i <= |b| && 0 !in b[..i] && (i < |b| ==> b[i] == 0)
    ensures FirstZero(b) == i
  {
    if i > 0 {
      assert b[..i][0] == b[0];
      assert b[1..][..i - 1] == b[..i][1..];
      FirstZeroIs(b[1..], i - 1);
    }
  }
}
