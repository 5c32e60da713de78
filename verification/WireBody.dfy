/** Packet bodies: the field list of every command, and the writer and reader of a field list.

    A body is a list of fields of given kinds.  Go strings are byte strings here. */
module WireBody {
  import opened Wrappers
  import opened Bytes
  import T = Transaction

  const MAX_UTXO_ENTRIES: nat := 0x1_0000
  const UTXO_BYTES: nat := 121

  /** A used coin of an order: the signature proves its ownership. */
  datatype Utxo = Utxo(txid: Data, vout: nat, rawAddress: Data, signature: Data)

  datatype Kind =
    | Raw(size: nat)      // a byte array of fixed size
    | Num(size: nat)      // an unsigned number in `size` little-endian bytes
    | Flag                // a boolean in two bytes
    | Currency            // eight bytes, padded with zeros
    | Text                // ended by a zero byte
    | Blob                // a four-byte length, then that many bytes
    | Utxos               // a four-byte count, then that many entries

  datatype Field =
    | Plain(bytes: Data)
    | Number(value: nat)
    | Truth(on: bool)
    | Name(text: Data)
    | Coins(list: seq<Utxo>)

  predicate FitsUtxo(u: Utxo) {
    |u.txid| == 32 && u.vout < T.TWO32 && |u.rawAddress| == 20 && |u.signature| == 65
  }

  /** The field is a value of the type its kind has in the program. */
  predicate Fits(k: Kind, f: Field) {
    match k
    case Raw(n) => f.Plain? && |f.bytes| == n
    case Num(n) => f.Number? && f.value < Power(256, n)
    case Flag => f.Truth?
    case Currency => f.Name?
    case Text => f.Name?
    case Blob => f.Plain?
    case Utxos => f.Coins? && forall i | 0 <= i < |f.list| :: FitsUtxo(f.list[i])
  }

  /** The values the wire can carry. */
  predicate Legal(k: Kind, f: Field) {
    && Fits(k, f)
    && match k
       case Currency => |f.text| <= 8 && (f.text == [] || f.text[|f.text| - 1] != 0)
       case Text => 0 !in f.text
       case Blob => |f.bytes| < T.TWO32
       case Utxos => |f.list| <= MAX_UTXO_ENTRIES
       case _ => true
  }

  // ---- One field -----------------------------------------------------------

  function Padded(t: Data): (b: Data)
    ensures |b| == 8
  {
    if |t| >= 8 then t[..8] else t + Repeat<Byte>(0, 8 - |t|)
  }

  function WriteUtxo(u: Utxo): Data {
    u.txid + LeBytes(u.vout, 4) + u.rawAddress + u.signature
  }

  function WriteUtxos(s: seq<Utxo>): Data {
    if s == [] then [] else WriteUtxos(s[..|s| - 1]) + WriteUtxo(s[|s| - 1])
  }

  function Write(k: Kind, f: Field): Data
    requires Fits(k, f)
  {
    match k
    case Raw(_) => f.bytes
    case Num(n) => LeBytes(f.value, n)
    case Flag => LeBytes(if f.on then 1 else 0, 2)
    case Currency => Padded(f.text)
    case Text => f.text + [0]
    case Blob => LeBytes(|f.bytes|, 4) + f.bytes
    case Utxos => LeBytes(|f.list|, 4) + WriteUtxos(f.list)
  }

  function Trimmed(b: Data): (t: Data)
    ensures t <= b && (t == [] || t[|t| - 1] != 0)
    ensures forall i | |t| <= i < |b| :: b[i] == 0
  {
    if b != [] && b[|b| - 1] == 0 then Trimmed(b[..|b| - 1]) else b
  }

  /** The index of the first zero byte, or the length when there is none. */
  function FirstZero(b: Data): (i: nat)
    ensures i <= |b| && (i < |b| ==> b[i] == 0) && 0 !in b[..i]
  {
    if b == [] || b[0] == 0 then 0 else
    var i := FirstZero(b[1..]) + 1;
    assert b[..i] == [b[0]] + b[1..][..i - 1];
    i
  }

  function ReadUtxo(b: Data): (r: T.Read<Utxo>)
    ensures r.Some? ==> FitsUtxo(r.value.0)
  {
    if |b| < UTXO_BYTES then None else
    Powers256();
    ValueBelow(b[32..36], 256);
    Some((Utxo(b[..32], Value(b[32..36], 256), b[36..56], b[56..UTXO_BYTES]), b[UTXO_BYTES..]))
  }

  function ReadUtxos(b: Data, n: nat): (r: T.Read<seq<Utxo>>)
    ensures r.Some? ==> |r.value.0| == n && forall i | 0 <= i < n :: FitsUtxo(r.value.0[i])
  {
    if n == 0 then Some(([], b)) else
    match ReadUtxos(b, n - 1)
    case None => None
    case Some(r) =>
      match ReadUtxo(r.1)
      case None => None
      case Some(u) => Some((r.0 + [u.0], u.1))
  }

  function ReadField(k: Kind, b: Data): T.Read<Field> {
    match k
    case Raw(n) => (match T.Take(b, n) case None => None case Some(r) => Some((Plain(r.0), r.1)))
    case Num(n) => (match T.ReadLe(b, n) case None => None case Some(r) => Some((Number(r.0), r.1)))
    case Flag => (match T.ReadLe(b, 2) case None => None case Some(r) => Some((Truth(r.0 != 0), r.1)))
    case Currency => (match T.Take(b, 8) case None => None case Some(r) => Some((Name(Trimmed(r.0)), r.1)))
    case Text =>
      var i := FirstZero(b);
      if i == |b| then None else Some((Name(b[..i]), b[i + 1..]))
    case Blob =>
      (match T.ReadLe(b, 4)
       case None => None
       case Some(n) => match T.Take(n.1, n.0) case None => None case Some(r) => Some((Plain(r.0), r.1)))
    case Utxos =>
      (match T.ReadLe(b, 4)
       case None => None
       case Some(n) =>
         if n.0 > MAX_UTXO_ENTRIES || n.0 * UTXO_BYTES > |n.1| then None else
         match ReadUtxos(n.1, n.0) case None => None case Some(r) => Some((Coins(r.0), r.1)))
  }

  // ---- A field is read as it was written -----------------------------------

  lemma LeWrites(b: Data, k: nat)
    requires |b| >= k
    ensures Value(b[..k], 256) >= 0 && LeBytes(Value(b[..k], 256), k) + b[k..] == b && Value(b[..k], 256) < Power(256, k)
  {
    hide Value; hide Power; hide LeBytes;
    LeOfValue(b[..k]);
    ValueBelow(b[..k], 256);
    assert b[..k] + b[k..] == b;
  }

  lemma {:induction false} TrimOfPadded(t: Data, n: nat)
    requires t == [] || t[|t| - 1] != 0
    ensures Trimmed(t + Repeat<Byte>(0, n)) == t
  {
    if n == 0 {
      assert t + Repeat<Byte>(0, 0) == t;
    } else {
      assert (t + Repeat<Byte>(0, n))[..|t| + n - 1] == t + Repeat<Byte>(0, n - 1);
      TrimOfPadded(t, n - 1);
    }
  }

  lemma PaddedOfTrimmed(b: Data)
    requires |b| == 8
    ensures Padded(Trimmed(b)) == b
  {
    var t := Trimmed(b);
    assert b == t + Repeat<Byte>(0, 8 - |t|);
  }

  lemma {:induction false} ZeroAt(t: Data, rest: Data)
    requires 0 !in t
    ensures FirstZero(t + [0] + rest) == |t|
  {
    if t != [] {
      assert (t + [0] + rest)[1..] == t[1..] + [0] + rest;
      ZeroAt(t[1..], rest);
    }
  }

  lemma UtxoReads(u: Utxo, rest: Data)
    requires FitsUtxo(u)
    ensures ReadUtxo(WriteUtxo(u) + rest) == Some((u, rest))
  {
    hide LeBytes; hide Value;
    var b := WriteUtxo(u) + rest;
    assert b[..32] == u.txid && b[32..36] == LeBytes(u.vout, 4) && b[36..56] == u.rawAddress;
    assert b[56..121] == u.signature && b[121..] == rest;
    Powers256();
    LeValue(u.vout, 4);
  }

  lemma UtxoWrites(b: Data)
    requires ReadUtxo(b).Some?
    ensures WriteUtxo(ReadUtxo(b).value.0) + ReadUtxo(b).value.1 == b
  {
    hide LeBytes; hide Value;
    LeOfValue(b[32..36]);
    assert b == b[..32] + b[32..36] + b[36..56] + b[56..121] + b[121..];
  }

  lemma {:induction false} UtxosRead(s: seq<Utxo>, rest: Data)
    requires forall i | 0 <= i < |s| :: FitsUtxo(s[i])
    ensures ReadUtxos(WriteUtxos(s) + rest, |s|) == Some((s, rest))
    ensures |WriteUtxos(s)| == UTXO_BYTES * |s|
  {
    hide ReadUtxo; hide WriteUtxo; hide FitsUtxo;
    if s == [] {
      assert WriteUtxos(s) + rest == rest;
    } else {
      var front, last := s[..|s| - 1], s[|s| - 1];
      assert front + [last] == s;
      assert WriteUtxos(s) + rest == WriteUtxos(front) + (WriteUtxo(last) + rest);
      UtxosRead(front, WriteUtxo(last) + rest);
      UtxoReads(last, rest);
      UtxoLength(last);
    }
  }

  lemma UtxoLength(u: Utxo)
    requires FitsUtxo(u)
    ensures |WriteUtxo(u)| == UTXO_BYTES
  {
  }

  lemma {:induction false} UtxosWrite(b: Data, n: nat)
    requires ReadUtxos(b, n).Some?
    ensures WriteUtxos(ReadUtxos(b, n).value.0) + ReadUtxos(b, n).value.1 == b
  {
    hide ReadUtxo; hide WriteUtxo;
    if n == 0 {
      assert [] + b == b;
    } else {
      var r := ReadUtxos(b, n - 1).value;
      var u := ReadUtxo(r.1).value;
      UtxosWrite(b, n - 1);
      UtxoWrites(r.1);
      assert (r.0 + [u.0])[..n - 1] == r.0;
      assert WriteUtxos(r.0 + [u.0]) + u.1 == WriteUtxos(r.0) + (WriteUtxo(u.0) + u.1);
    }
  }

  lemma FieldReads(k: Kind, f: Field, rest: Data)
    requires Legal(k, f)
    ensures ReadField(k, Write(k, f) + rest) == Some((f, rest))
  {
    hide LeBytes; hide Value; hide WriteUtxos; hide ReadUtxos; hide FirstZero; hide Power; hide Trimmed; hide FitsUtxo;
    hide T.ReadLe;
    Powers256();
    var b := Write(k, f) + rest;
    match k
    case Raw(n) =>
      assert b[..n] == f.bytes && b[n..] == rest;
    case Num(n) =>
      T.LeReads(f.value, n, rest);
    case Flag =>
      T.LeReads(if f.on then 1 else 0, 2, rest);
    case Currency =>
      assert b[..8] == Padded(f.text) && b[8..] == rest;
      if |f.text| == 8 { assert f.text + Repeat<Byte>(0, 0) == f.text[..8]; }
      TrimOfPadded(f.text, 8 - |f.text|);
    case Text =>
      ZeroAt(f.text, rest);
      assert b[..|f.text|] == f.text && b[|f.text| + 1..] == rest;
    case Blob =>
      assert b == LeBytes(|f.bytes|, 4) + (f.bytes + rest);
      T.LeReads(|f.bytes|, 4, f.bytes + rest);
      assert (f.bytes + rest)[..|f.bytes|] == f.bytes && (f.bytes + rest)[|f.bytes|..] == rest;
    case Utxos =>
      assert b == LeBytes(|f.list|, 4) + (WriteUtxos(f.list) + rest);
      T.LeReads(|f.list|, 4, WriteUtxos(f.list) + rest);
      UtxosRead(f.list, rest);
  }

  /** A flag is written as 0 or 1; any other non-zero reading is written differently. */
  predicate PlainFlag(k: Kind, b: Data)
    requires |b| >= 2
  {
    k.Flag? ==> Value(b[..2], 256) <= 1
  }

  /** What is read is legal, and writing it gives the bytes back, plain flags taken for granted. */
  predicate WritesBack(k: Kind, b: Data, r: (Field, Data)) {
    && Legal(k, r.0) && |Write(k, r.0)| + |r.1| == |b| && r.1 == b[|b| - |r.1|..] && (k.Flag? ==> |b| >= 2)
    && (Write(k, r.0) + r.1 == b <==> (k.Flag? ==> PlainFlag(k, b)))
  }

  lemma FieldWrites(k: Kind, b: Data)
    requires ReadField(k, b).Some?
    ensures WritesBack(k, b, ReadField(k, b).value)
  {
    hide WritesBack; hide ReadField; hide Legal;
    match k
    case Blob => BlobWrites(b);
    case Utxos => UtxoListWrites(b);
    case Flag => TruthWrites(b);
    case _ => PlainWrites(k, b);
  }

  lemma PlainWrites(k: Kind, b: Data)
    requires ReadField(k, b).Some? && !k.Blob? && !k.Utxos? && !k.Flag?
    ensures WritesBack(k, b, ReadField(k, b).value)
  {
    hide LeBytes; hide FirstZero; hide Power; hide Trimmed; hide Value;
    match k
    case Raw(n) =>
      assert b[..n] + b[n..] == b;
    case Num(n) =>
      LeWrites(b, n);
    case Currency =>
      PaddedOfTrimmed(b[..8]);
      assert b[..8] + b[8..] == b;
    case Text =>
      var i := FirstZero(b);
      assert b[..i] + [0] + b[i + 1..] == b;
  }

  lemma TruthWrites(b: Data)
    requires ReadField(Flag, b).Some?
    ensures WritesBack(Flag, b, ReadField(Flag, b).value)
  {
    hide LeBytes; hide Power; hide Value;
    LeWrites(b, 2);
    FlagWrites(b, ReadField(Flag, b).value.0.on);
  }

  lemma BlobWrites(b: Data)
    requires ReadField(Blob, b).Some?
    ensures WritesBack(Blob, b, ReadField(Blob, b).value)
  {
    hide LeBytes; hide Power; hide Value;
    Powers256();
    LeWrites(b, 4);
    var n, more := Value(b[..4], 256), b[4..];
    assert more[..n] + more[n..] == more;
    assert LeBytes(n, 4) + more[..n] + more[n..] == LeBytes(n, 4) + (more[..n] + more[n..]);
  }

  lemma UtxoListWrites(b: Data)
    requires ReadField(Utxos, b).Some?
    ensures WritesBack(Utxos, b, ReadField(Utxos, b).value)
  {
    hide LeBytes; hide Power; hide Value; hide WriteUtxos; hide ReadUtxos; hide FitsUtxo;
    LeWrites(b, 4);
    var n, more := Value(b[..4], 256), b[4..];
    var r := ReadUtxos(more, n).value;
    UtxosWrite(more, n);
    assert LeBytes(n, 4) + WriteUtxos(r.0) + r.1 == LeBytes(n, 4) + (WriteUtxos(r.0) + r.1);
  }

  lemma FlagWrites(b: Data, on: bool)
    requires |b| >= 2 && on == (Value(b[..2], 256) != 0)
    ensures LeBytes(if on then 1 else 0, 2) + b[2..] == b <==> Value(b[..2], 256) <= 1
  {
    var w := LeBytes(if on then 1 else 0, 2);
    LeWrites(b, 2);
    if w + b[2..] == b {
      assert (w + b[2..])[..2] == w;
      Powers256();
      LeValue(if on then 1 else 0, 2);
    }
  }
}
