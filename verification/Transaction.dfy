/** The transaction wire format: what is written, what is read back, and the loops that do it. */
module Transaction {
  import opened Wrappers
  import opened Bytes

  const MAX_COUNT: nat := 0x10_0000
  const MIN_IN_BYTES: nat := 41
  const MIN_OUT_BYTES: nat := 9
  const TWO31: int := 0x8000_0000
  const TWO32: int := 0x1_0000_0000
  const TWO63: int := 0x8000_0000_0000_0000
  const TWO64: int := 0x1_0000_0000_0000_0000

  datatype TxIn = TxIn(hash: Data, index: nat, scriptSig: Data, sequence: nat, wit: seq<Data>, amount: nat)

  datatype TxOut = TxOut(value: nat, scriptPubKey: Data)

  datatype Tx = Tx(
    version: int,
    lockTime: nat,
    inputs: seq<TxIn>,
    outputs: seq<TxOut>,
    segWit: bool,
    withTime: bool,
    txTime: nat)

  /** The fields stay within the machine types that hold them. */
  predicate ValidIn(i: TxIn) {
    && |i.hash| == 32 && i.index < TWO32 && |i.scriptSig| < TWO63 && i.sequence < TWO32
    && |i.wit| < TWO63 && forall k | 0 <= k < |i.wit| :: |i.wit[k]| < TWO63
  }

  predicate ValidOut(o: TxOut) {
    o.value < TWO64 && |o.scriptPubKey| < TWO63
  }

  predicate Valid(t: Tx) {
    && -TWO31 <= t.version < TWO31 && t.lockTime < TWO32 && t.txTime < TWO32
    && |t.inputs| <= MAX_COUNT && |t.outputs| <= MAX_COUNT
    && (forall k | 0 <= k < |t.inputs| :: ValidIn(t.inputs[k]))
    && (forall k | 0 <= k < |t.outputs| :: ValidOut(t.outputs[k]))
  }

  // ---- Writing -------------------------------------------------------------

  function VarInt(n: nat): (b: Data)
    ensures |b| >= 1
  {
    if n < 0xfd then [n]
    else if n <= 0xffff then [0xfd] + LeBytes(n, 2)
    else if n <= 0xffff_ffff then [0xfe] + LeBytes(n, 4)
    else [0xff] + LeBytes(n, 8)
  }

  function Blob(b: Data): Data {
    VarInt(|b|) + b
  }

  function WriteIn(i: TxIn): Data {
    i.hash + LeBytes(i.index, 4) + Blob(i.scriptSig) + LeBytes(i.sequence, 4)
  }

  function WriteOut(o: TxOut): Data {
    LeBytes(o.value, 8) + Blob(o.scriptPubKey)
  }

  function WriteIns(s: seq<TxIn>): Data {
    if s == [] then [] else WriteIns(s[..|s| - 1]) + WriteIn(s[|s| - 1])
  }

  function WriteOuts(s: seq<TxOut>): Data {
    if s == [] then [] else WriteOuts(s[..|s| - 1]) + WriteOut(s[|s| - 1])
  }

  function WriteItems(s: seq<Data>): Data {
    if s == [] then [] else WriteItems(s[..|s| - 1]) + Blob(s[|s| - 1])
  }

  function WriteWitness(i: TxIn): Data {
    VarInt(|i.wit|) + WriteItems(i.wit)
  }

  function WriteWitnesses(s: seq<TxIn>): Data {
    if s == [] then [] else WriteWitnesses(s[..|s| - 1]) + WriteWitness(s[|s| - 1])
  }

  function Head(t: Tx): Data {
    LeBytes(t.version % TWO32, 4) + (if t.withTime then LeBytes(t.txTime, 4) else [])
  }

  function Body(t: Tx): Data {
    VarInt(|t.inputs|) + WriteIns(t.inputs) + VarInt(|t.outputs|) + WriteOuts(t.outputs) + LeBytes(t.lockTime, 4)
  }

  function Serialized(t: Tx): Data {
    Head(t) + (if t.segWit then [0x00, 0x01] else []) + Body(t) + (if t.segWit then WriteWitnesses(t.inputs) else [])
  }

  /** The buffer is appended to field by field. */
  method Serialize(t: Tx) returns (buf: Data)
    ensures buf == Serialized(t)
  {
    hide VarInt; hide LeBytes; hide WriteIns; hide WriteOuts; hide WriteWitnesses;
    buf := LeBytes(t.version % TWO32, 4);
    if t.withTime { buf := buf + LeBytes(t.txTime, 4); }
    if t.segWit { buf := buf + [0x00, 0x01]; }
    ghost var start := buf;
    assert start == Head(t) + (if t.segWit then [0x00, 0x01] else []);
    buf := buf + VarInt(|t.inputs|);
    buf := AppendIns(t.inputs, buf);
    buf := buf + VarInt(|t.outputs|);
    buf := AppendOuts(t.outputs, buf);
    buf := buf + LeBytes(t.lockTime, 4);
    assert buf == start + Body(t);
    if t.segWit { buf := AppendWitnesses(t, buf); }
  }

  method AppendIns(s: seq<TxIn>, prefix: Data) returns (buf: Data)
    ensures buf == prefix + WriteIns(s)
  {
    hide VarInt; hide LeBytes;
    buf := prefix;
    for i := 0 to |s|
      invariant buf == prefix + WriteIns(s[..i])
    {
      ghost var before := buf;
      buf := buf + s[i].hash + LeBytes(s[i].index, 4);
      buf := buf + VarInt(|s[i].scriptSig|) + s[i].scriptSig;
      buf := buf + LeBytes(s[i].sequence, 4);
      assert buf == before + WriteIn(s[i]);
      assert s[..i + 1][..i] == s[..i];
    }
    assert s[..|s|] == s;
  }

  method AppendOuts(s: seq<TxOut>, prefix: Data) returns (buf: Data)
    ensures buf == prefix + WriteOuts(s)
  {
    hide VarInt; hide LeBytes;
    buf := prefix;
    for i := 0 to |s|
      invariant buf == prefix + WriteOuts(s[..i])
    {
      ghost var before := buf;
      buf := buf + LeBytes(s[i].value, 8) + VarInt(|s[i].scriptPubKey|) + s[i].scriptPubKey;
      assert buf == before + WriteOut(s[i]);
      assert s[..i + 1][..i] == s[..i];
    }
    assert s[..|s|] == s;
  }

  method AppendWitnesses(t: Tx, prefix: Data) returns (buf: Data)
    ensures buf == prefix + WriteWitnesses(t.inputs)
  {
    hide VarInt;
    buf := prefix;
    for i := 0 to |t.inputs|
      invariant buf == prefix + WriteWitnesses(t.inputs[..i])
    {
      var ws := t.inputs[i].wit;
      buf := buf + VarInt(|ws|);
      ghost var p := buf;
      for k := 0 to |ws|
        invariant buf == p + WriteItems(ws[..k])
      {
        buf := buf + VarInt(|ws[k]|) + ws[k];
        assert ws[..k + 1][..k] == ws[..k];
      }
      assert ws[..|ws|] == ws;
      assert t.inputs[..i + 1][..i] == t.inputs[..i];
    }
    assert t.inputs[..|t.inputs|] == t.inputs;
  }

  // ---- Reading -------------------------------------------------------------

  /** A value read off the front, and the bytes after it. */
  type Read<T> = Option<(T, Data)>

  function Take(b: Data, n: int): Read<Data> {
    if n < 0 || |b| < n then None else Some((b[..n], b[n..]))
  }

  function ReadLe(b: Data, k: nat): Read<nat> {
    if |b| < k then None else
    LeOfValue(b[..k]);
    Some((Value(b[..k], 256), b[k..]))
  }

  /** Any width is accepted for any value; one the platform's int cannot hold is refused. */
  function ReadVarInt(b: Data): Read<nat> {
    if b == [] then None
    else if b[0] < 0xfd then Some((b[0], b[1..]))
    else
      match ReadLe(b[1..], if b[0] == 0xfd then 2 else if b[0] == 0xfe then 4 else 8)
      case None => None
      case Some(r) => if r.0 >= TWO63 then None else Some(r)
  }

  function ReadBlob(b: Data): Read<Data> {
    match ReadVarInt(b)
    case None => None
    case Some(n) => Take(n.1, n.0)
  }

  function ReadIn(b: Data): Read<TxIn> {
    match Take(b, 32)
    case None => None
    case Some(h) =>
      match ReadLe(h.1, 4)
      case None => None
      case Some(ix) =>
        match ReadBlob(ix.1)
        case None => None
        case Some(s) =>
          match ReadLe(s.1, 4)
          case None => None
          case Some(q) => Some((TxIn(h.0, ix.0, s.0, q.0, [], 0), q.1))
  }

  function ReadOut(b: Data): Read<TxOut> {
    match ReadLe(b, 8)
    case None => None
    case Some(v) =>
      match ReadBlob(v.1)
      case None => None
      case Some(s) => Some((TxOut(v.0, s.0), s.1))
  }

  function ReadIns(b: Data, n: nat): Read<seq<TxIn>> {
    if n == 0 then Some(([], b)) else
    match ReadIns(b, n - 1)
    case None => None
    case Some(r) =>
      match ReadIn(r.1)
      case None => None
      case Some(i) => Some((r.0 + [i.0], i.1))
  }

  function ReadOuts(b: Data, n: nat): Read<seq<TxOut>> {
    if n == 0 then Some(([], b)) else
    match ReadOuts(b, n - 1)
    case None => None
    case Some(r) =>
      match ReadOut(r.1)
      case None => None
      case Some(o) => Some((r.0 + [o.0], o.1))
  }

  function ReadItems(b: Data, n: nat): Read<seq<Data>> {
    if n == 0 then Some(([], b)) else
    match ReadItems(b, n - 1)
    case None => None
    case Some(r) =>
      match ReadBlob(r.1)
      case None => None
      case Some(w) => Some((r.0 + [w.0], w.1))
  }

  function ReadWitness(b: Data): Read<seq<Data>> {
    match ReadVarInt(b)
    case None => None
    case Some(n) => ReadItems(n.1, n.0)
  }

  /** One witness stack for each of the first n inputs. */
  function ReadWitnesses(b: Data, s: seq<TxIn>, n: nat): Read<seq<TxIn>>
    requires n <= |s|
  {
    if n == 0 then Some((s, b)) else
    match ReadWitnesses(b, s, n - 1)
    case None => None
    case Some(r) =>
      if |r.0| < n then None else
      match ReadWitness(r.1)
      case None => None
      case Some(w) => Some((r.0[n - 1 := r.0[n - 1].(wit := w.0)], w.1))
  }

  /** A count, refused when too large or when the bytes left cannot hold that many. */
  function ReadCount(b: Data, minBytes: nat): Read<nat> {
    match ReadVarInt(b)
    case None => None
    case Some(n) => if n.0 > MAX_COUNT || n.0 * minBytes > |n.1| then None else Some(n)
  }

  function Signed(v: nat): int {
    if v >= TWO31 then v - TWO32 else v
  }

  predicate HasMarker(b: Data) {
    |b| >= 2 && b[0] == 0x00 && b[1] == 0x01
  }

  /** From the input count to the end. */
  function ReadBody(b: Data, segWit: bool): Option<(seq<TxIn>, seq<TxOut>, nat)> {
    match ReadCount(b, MIN_IN_BYTES)
    case None => None
    case Some(nIn) =>
      match ReadIns(nIn.1, nIn.0)
      case None => None
      case Some(ins) =>
        match ReadCount(ins.1, MIN_OUT_BYTES)
        case None => None
        case Some(nOut) =>
          match ReadOuts(nOut.1, nOut.0)
          case None => None
          case Some(outs) =>
            match ReadLe(outs.1, 4)
            case None => None
            case Some(lt) =>
              if !segWit then (if lt.1 == [] then Some((ins.0, outs.0, lt.0)) else None)
              else
                match ReadWitnesses(lt.1, ins.0, |ins.0|)
                case None => None
                case Some(ws) => if ws.1 == [] then Some((ws.0, outs.0, lt.0)) else None
  }

  function Deserialized(b: Data, hasTime: bool): Option<Tx> {
    match ReadLe(b, 4)
    case None => None
    case Some(v) =>
      match (if hasTime then ReadLe(v.1, 4) else Some((0, v.1)))
      case None => None
      case Some(tm) =>
        var marked := HasMarker(tm.1);
        match ReadBody(if marked then tm.1[2..] else tm.1, marked)
        case None => None
        case Some(r) => Some(Tx(Signed(v.0), r.2, r.0, r.1, marked, hasTime, tm.0))
  }

  // ---- What is read is what was written ------------------------------------

  lemma LeReads(n: nat, k: nat, rest: Data)
    requires n < Power(256, k)
    ensures ReadLe(LeBytes(n, k) + rest, k) == Some((n, rest))
  {
    var b := LeBytes(n, k) + rest;
    assert b[..k] == LeBytes(n, k) && b[k..] == rest;
    LeValue(n, k);
  }

  lemma VarIntReads(n: nat, rest: Data)
    requires n < TWO63
    ensures ReadVarInt(VarInt(n) + rest) == Some((n, rest))
  {
    hide Power; hide LeBytes; hide ReadLe;
    Powers256();
    var b := VarInt(n) + rest;
    if n < 0xfd {
      assert b[1..] == rest;
    } else {
      var k := if n <= 0xffff then 2 else if n <= 0xffff_ffff then 4 else 8;
      assert b[1..] == LeBytes(n, k) + rest;
      LeReads(n, k, rest);
    }
  }

  lemma BlobReads(s: Data, rest: Data)
    requires |s| < TWO63
    ensures ReadBlob(Blob(s) + rest) == Some((s, rest))
  {
    hide VarInt; hide ReadVarInt;
    assert Blob(s) + rest == VarInt(|s|) + (s + rest);
    VarIntReads(|s|, s + rest);
    assert (s + rest)[..|s|] == s && (s + rest)[|s|..] == rest;
  }

  /** An input as it comes back: the witness and the amount are not part of it. */
  function Bare(i: TxIn): TxIn {
    i.(wit := [], amount := 0)
  }

  lemma InReads(i: TxIn, rest: Data)
    requires ValidIn(i)
    ensures ReadIn(WriteIn(i) + rest) == Some((Bare(i), rest))
  {
    hide Power; hide LeBytes; hide ReadLe; hide Blob; hide ReadBlob;
    Powers256();
    var r3 := LeBytes(i.sequence, 4) + rest;
    var r2 := Blob(i.scriptSig) + r3;
    var r1 := LeBytes(i.index, 4) + r2;
    assert WriteIn(i) + rest == i.hash + r1;
    assert (i.hash + r1)[..32] == i.hash && (i.hash + r1)[32..] == r1;
    LeReads(i.index, 4, r2);
    BlobReads(i.scriptSig, r3);
    LeReads(i.sequence, 4, rest);
  }

  lemma OutReads(o: TxOut, rest: Data)
    requires ValidOut(o)
    ensures ReadOut(WriteOut(o) + rest) == Some((o, rest))
  {
    hide Power; hide LeBytes; hide ReadLe; hide Blob; hide ReadBlob;
    Powers256();
    var r1 := Blob(o.scriptPubKey) + rest;
    assert WriteOut(o) + rest == LeBytes(o.value, 8) + r1;
    LeReads(o.value, 8, r1);
    BlobReads(o.scriptPubKey, rest);
  }

  function Bares(s: seq<TxIn>): (r: seq<TxIn>)
    ensures |r| == |s| && forall k | 0 <= k < |s| :: r[k] == Bare(s[k])
  {
    if s == [] then [] else Bares(s[..|s| - 1]) + [Bare(s[|s| - 1])]
  }

  lemma {:induction false} InsRead(s: seq<TxIn>, rest: Data)
    requires forall k | 0 <= k < |s| :: ValidIn(s[k])
    ensures ReadIns(WriteIns(s) + rest, |s|) == Some((Bares(s), rest))
  {
    hide ReadIn; hide WriteIn; hide ValidIn;
    if s == [] {
      assert WriteIns(s) + rest == rest;
    } else {
      var front, last := s[..|s| - 1], s[|s| - 1];
      assert WriteIns(s) + rest == WriteIns(front) + (WriteIn(last) + rest);
      InsRead(front, WriteIn(last) + rest);
      InReads(last, rest);
    }
  }

  lemma {:induction false} OutsRead(s: seq<TxOut>, rest: Data)
    requires forall k | 0 <= k < |s| :: ValidOut(s[k])
    ensures ReadOuts(WriteOuts(s) + rest, |s|) == Some((s, rest))
  {
    hide ReadOut; hide WriteOut; hide ValidOut;
    if s == [] {
      assert WriteOuts(s) + rest == rest;
    } else {
      var front, last := s[..|s| - 1], s[|s| - 1];
      assert front + [last] == s;
      assert WriteOuts(s) + rest == WriteOuts(front) + (WriteOut(last) + rest);
      OutsRead(front, WriteOut(last) + rest);
      OutReads(last, rest);
    }
  }

  lemma {:induction false} ItemsRead(s: seq<Data>, rest: Data)
    requires forall k | 0 <= k < |s| :: |s[k]| < TWO63
    ensures ReadItems(WriteItems(s) + rest, |s|) == Some((s, rest))
  {
    hide ReadBlob; hide Blob;
    if s == [] {
      assert WriteItems(s) + rest == rest;
    } else {
      var front, last := s[..|s| - 1], s[|s| - 1];
      assert front + [last] == s;
      assert WriteItems(s) + rest == WriteItems(front) + (Blob(last) + rest);
      ItemsRead(front, Blob(last) + rest);
      BlobReads(last, rest);
    }
  }

  lemma WitnessReads(i: TxIn, rest: Data)
    requires ValidIn(i)
    ensures ReadWitness(WriteWitness(i) + rest) == Some((i.wit, rest))
  {
    hide VarInt; hide ReadVarInt; hide WriteItems; hide ReadItems;
    assert WriteWitness(i) + rest == VarInt(|i.wit|) + (WriteItems(i.wit) + rest);
    VarIntReads(|i.wit|, WriteItems(i.wit) + rest);
    ItemsRead(i.wit, rest);
  }

  function Unpriced(i: TxIn): TxIn {
    i.(amount := 0)
  }

  /** The first n inputs have their witness again, the others not yet. */
  function Dressed(s: seq<TxIn>, n: nat): (r: seq<TxIn>)
    requires n <= |s|
    ensures |r| == |s|
    ensures forall k | 0 <= k < |s| :: r[k] == if k < n then Unpriced(s[k]) else Bare(s[k])
  {
    seq(|s|, k requires 0 <= k < |s| => if k < n then Unpriced(s[k]) else Bare(s[k]))
  }

  lemma {:induction false} WitnessesRead(s: seq<TxIn>, n: nat, rest: Data)
    requires n <= |s| && forall k | 0 <= k < |s| :: ValidIn(s[k])
    ensures ReadWitnesses(WriteWitnesses(s[..n]) + rest, Bares(s), n) == Some((Dressed(s, n), rest))
  {
    hide ReadWitness; hide WriteWitness; hide ValidIn;
    if n == 0 {
      assert WriteWitnesses(s[..n]) + rest == rest;
      assert Dressed(s, 0) == Bares(s);
    } else {
      var next := WriteWitness(s[n - 1]) + rest;
      assert s[..n][..n - 1] == s[..n - 1];
      assert WriteWitnesses(s[..n]) + rest == WriteWitnesses(s[..n - 1]) + next;
      WitnessesRead(s, n - 1, next);
      WitnessReads(s[n - 1], rest);
      var before := Dressed(s, n - 1);
      assert before[n - 1 := before[n - 1].(wit := s[n - 1].wit)] == Dressed(s, n);
    }
  }

  lemma {:induction false} InsLength(s: seq<TxIn>)
    requires forall k | 0 <= k < |s| :: ValidIn(s[k])
    ensures |WriteIns(s)| >= MIN_IN_BYTES * |s|
  {
    hide VarInt; hide LeBytes;
    if s != [] { InsLength(s[..|s| - 1]); }
  }

  lemma {:induction false} OutsLength(s: seq<TxOut>)
    ensures |WriteOuts(s)| >= MIN_OUT_BYTES * |s|
  {
    hide VarInt; hide LeBytes;
    if s != [] { OutsLength(s[..|s| - 1]); }
  }

  lemma CountReads(n: nat, minBytes: nat, rest: Data)
    requires n <= MAX_COUNT && |rest| >= n * minBytes
    ensures ReadCount(VarInt(n) + rest, minBytes) == Some((n, rest))
  {
    VarIntReads(n, rest);
  }

  /** The transaction as it comes back: what the wire does not carry is dropped. */
  function OnWire(t: Tx): Tx {
    t.(inputs := if t.segWit then Dressed(t.inputs, |t.inputs|) else Bares(t.inputs),
       txTime := if t.withTime then t.txTime else 0)
  }

  lemma BodyReads(t: Tx)
    requires Valid(t)
    ensures ReadBody(Body(t) + (if t.segWit then WriteWitnesses(t.inputs) else []), t.segWit)
            == Some((OnWire(t).inputs, t.outputs, t.lockTime))
  {
    hide VarInt; hide LeBytes; hide ReadVarInt; hide ReadLe; hide ReadIns; hide ReadOuts; hide WriteIns; hide WriteOuts;
    hide ReadWitnesses; hide WriteWitnesses; hide ReadCount; hide ValidIn; hide ValidOut; hide Power;
    Powers256();
    var tail := if t.segWit then WriteWitnesses(t.inputs) else [];
    var r4 := LeBytes(t.lockTime, 4) + tail;
    var r3 := WriteOuts(t.outputs) + r4;
    var r2 := VarInt(|t.outputs|) + r3;
    var r1 := WriteIns(t.inputs) + r2;
    assert Body(t) + tail == VarInt(|t.inputs|) + r1;
    InsLength(t.inputs);
    OutsLength(t.outputs);
    CountReads(|t.inputs|, MIN_IN_BYTES, r1);
    InsRead(t.inputs, r2);
    CountReads(|t.outputs|, MIN_OUT_BYTES, r3);
    OutsRead(t.outputs, r4);
    LeReads(t.lockTime, 4, tail);
    if t.segWit {
      assert t.inputs[..|t.inputs|] == t.inputs && tail + [] == tail;
      WitnessesRead(t.inputs, |t.inputs|, []);
    }
  }

  /** A classic transaction with no inputs and one output looks like a marked one. */
  predicate Ambiguous(t: Tx) {
    !t.segWit && t.inputs == [] && |t.outputs| == 1
  }

  lemma MarkerShows(t: Tx)
    requires Valid(t) && !t.segWit
    ensures HasMarker(Body(t)) <==> Ambiguous(t)
  {
    hide WriteIns; hide WriteOuts;
    assert WriteIns([]) == [] by { NoIns(); }
    var b := Body(t);
    assert b[0] == VarInt(|t.inputs|)[0];
    if t.inputs == [] {
      assert VarInt(0) == [0];
      assert b == [0] + (VarInt(|t.outputs|) + (WriteOuts(t.outputs) + LeBytes(t.lockTime, 4)));
      assert b[1] == VarInt(|t.outputs|)[0];
    }
  }

  lemma NoIns()
    ensures WriteIns([]) == []
  {
  }

  lemma HeadReads(t: Tx, rest: Data)
    requires Valid(t)
    ensures ReadLe(Head(t) + rest, 4) == Some((t.version % TWO32, (if t.withTime then LeBytes(t.txTime, 4) else []) + rest))
    ensures t.withTime ==> ReadLe(LeBytes(t.txTime, 4) + rest, 4) == Some((t.txTime, rest))
    ensures Signed(t.version % TWO32) == t.version
  {
    Powers256();
    hide LeBytes; hide ReadLe; hide Power;
    var more := if t.withTime then LeBytes(t.txTime, 4) else [];
    assert Head(t) + rest == LeBytes(t.version % TWO32, 4) + (more + rest);
    LeReads(t.version % TWO32, 4, more + rest);
    if t.withTime { LeReads(t.txTime, 4, rest); }
  }

  /** Reading back what was written gives the same transaction, up to what the wire does not
      carry, exactly unless the classic form looks marked. */
  lemma RoundTrip(t: Tx)
    requires Valid(t)
    ensures Deserialized(Serialized(t), t.withTime) == Some(OnWire(t)) <==> !Ambiguous(t)
  {
    hide Head; hide Body; hide ReadBody; hide ReadLe; hide WriteWitnesses; hide LeBytes; hide Signed; hide Valid;
    var wits := if t.segWit then WriteWitnesses(t.inputs) else [];
    var rest := (if t.segWit then [0x00, 0x01] else []) + (Body(t) + wits);
    assert Serialized(t) == Head(t) + rest;
    HeadReads(t, rest);
    assert [] + rest == rest;
    BodyReads(t);
    if t.segWit {
      assert HasMarker(rest) && rest[2..] == Body(t) + wits;
    } else {
      assert rest == Body(t) && Body(t) + wits == Body(t);
      MarkerShows(t);
    }
  }

  // ---- The parser ----------------------------------------------------------

  /** A position-based result seen as one on the bytes that follow. */
  function At<T>(b: Data, r: Option<(T, nat)>): Read<T>
    requires r.Some? ==> r.value.1 <= |b|
  {
    match r
    case None => None
    case Some(p) => Some((p.0, b[p.1..]))
  }

  method Need(b: Data, pos: nat, n: nat) returns (r: Option<(Data, nat)>)
    requires pos <= |b|
    ensures r.Some? ==> pos <= r.value.1 <= |b|
    ensures At(b, r) == Take(b[pos..], n)
  {
    if pos + n > |b| { return None; }
    assert b[pos..][..n] == b[pos..pos + n] && b[pos..][n..] == b[pos + n..];
    return Some((b[pos..pos + n], pos + n));
  }

  method NeedLe(b: Data, pos: nat, k: nat) returns (r: Option<(nat, nat)>)
    requires pos <= |b|
    ensures r.Some? ==> pos <= r.value.1 <= |b|
    ensures At(b, r) == ReadLe(b[pos..], k)
  {
    if pos + k > |b| { return None; }
    assert b[pos..][..k] == b[pos..pos + k] && b[pos..][k..] == b[pos + k..];
    LeOfValue(b[pos..pos + k]);
    return Some((Value(b[pos..pos + k], 256), pos + k));
  }

  method NeedVarInt(b: Data, pos: nat) returns (r: Option<(nat, nat)>)
    requires pos <= |b|
    ensures r.Some? ==> pos <= r.value.1 <= |b|
    ensures At(b, r) == ReadVarInt(b[pos..])
  {
    hide ReadLe;
    if pos >= |b| { return None; }
    var first := b[pos];
    assert b[pos..][1..] == b[pos + 1..];
    if first < 0xfd { return Some((first, pos + 1)); }
    var v := NeedLe(b, pos + 1, if first == 0xfd then 2 else if first == 0xfe then 4 else 8);
    if v.None? || v.value.0 >= TWO63 { return None; }
    return v;
  }

  method NeedBlob(b: Data, pos: nat) returns (r: Option<(Data, nat)>)
    requires pos <= |b|
    ensures r.Some? ==> pos <= r.value.1 <= |b|
    ensures At(b, r) == ReadBlob(b[pos..])
  {
    hide ReadVarInt; hide Take;
    var n := NeedVarInt(b, pos);
    if n.None? { return None; }
    r := Need(b, n.value.1, n.value.0);
  }

  method NeedIn(b: Data, pos: nat) returns (r: Option<(TxIn, nat)>)
    requires pos <= |b|
    ensures r.Some? ==> pos <= r.value.1 <= |b|
    ensures At(b, r) == ReadIn(b[pos..])
  {
    hide ReadBlob; hide Take; hide ReadLe;
    var h := Need(b, pos, 32);
    if h.None? { return None; }
    var ix := NeedLe(b, h.value.1, 4);
    if ix.None? { return None; }
    var s := NeedBlob(b, ix.value.1);
    if s.None? { return None; }
    var q := NeedLe(b, s.value.1, 4);
    if q.None? { return None; }
    return Some((TxIn(h.value.0, ix.value.0, s.value.0, q.value.0, [], 0), q.value.1));
  }

  method NeedIns(b: Data, pos: nat, n: nat) returns (r: Option<(seq<TxIn>, nat)>)
    requires pos <= |b|
    ensures r.Some? ==> pos <= r.value.1 <= |b|
    ensures At(b, r) == ReadIns(b[pos..], n)
  {
    hide ReadIn;
    var ins, p := [], pos;
    for i := 0 to n
      invariant pos <= p <= |b|
      invariant ReadIns(b[pos..], i) == Some((ins, b[p..]))
    {
      var x := NeedIn(b, p);
      if x.None? {
        InsStop(b[pos..], i + 1, n);
        return None;
      }
      ins, p := ins + [x.value.0], x.value.1;
    }
    return Some((ins, p));
  }

  /** Once an input cannot be read, no longer list can. */
  lemma {:induction false} InsStop(b: Data, i: nat, n: nat)
    requires i <= n && ReadIns(b, i).None?
    ensures ReadIns(b, n).None?
    decreases n - i
  {
    if i < n { InsStop(b, i + 1, n); }
  }

  lemma {:induction false} OutsStop(b: Data, i: nat, n: nat)
    requires i <= n && ReadOuts(b, i).None?
    ensures ReadOuts(b, n).None?
    decreases n - i
  {
    if i < n { OutsStop(b, i + 1, n); }
  }

  lemma {:induction false} ItemsStop(b: Data, i: nat, n: nat)
    requires i <= n && ReadItems(b, i).None?
    ensures ReadItems(b, n).None?
    decreases n - i
  {
    if i < n { ItemsStop(b, i + 1, n); }
  }

  lemma {:induction false} WitnessesStop(b: Data, s: seq<TxIn>, i: nat, n: nat)
    requires i <= n <= |s| && ReadWitnesses(b, s, i).None?
    ensures ReadWitnesses(b, s, n).None?
    decreases n - i
  {
    if i < n { WitnessesStop(b, s, i + 1, n); }
  }

  method NeedOuts(b: Data, pos: nat, n: nat) returns (r: Option<(seq<TxOut>, nat)>)
    requires pos <= |b|
    ensures r.Some? ==> pos <= r.value.1 <= |b|
    ensures At(b, r) == ReadOuts(b[pos..], n)
  {
    hide ReadLe; hide ReadBlob;
    var outs, p := [], pos;
    for i := 0 to n
      invariant pos <= p <= |b|
      invariant ReadOuts(b[pos..], i) == Some((outs, b[p..]))
    {
      var v := NeedLe(b, p, 8);
      if v.None? { OutsStop(b[pos..], i + 1, n); return None; }
      var s := NeedBlob(b, v.value.1);
      if s.None? { OutsStop(b[pos..], i + 1, n); return None; }
      outs, p := outs + [TxOut(v.value.0, s.value.0)], s.value.1;
    }
    return Some((outs, p));
  }

  method NeedItems(b: Data, pos: nat, n: nat) returns (r: Option<(seq<Data>, nat)>)
    requires pos <= |b|
    ensures r.Some? ==> pos <= r.value.1 <= |b|
    ensures At(b, r) == ReadItems(b[pos..], n)
  {
    hide ReadBlob;
    var items, p := [], pos;
    for i := 0 to n
      invariant pos <= p <= |b|
      invariant ReadItems(b[pos..], i) == Some((items, b[p..]))
    {
      var w := NeedBlob(b, p);
      if w.None? { ItemsStop(b[pos..], i + 1, n); return None; }
      items, p := items + [w.value.0], w.value.1;
    }
    return Some((items, p));
  }

  method NeedWitnesses(b: Data, pos: nat, s: seq<TxIn>) returns (r: Option<(seq<TxIn>, nat)>)
    requires pos <= |b|
    ensures r.Some? ==> pos <= r.value.1 <= |b|
    ensures At(b, r) == ReadWitnesses(b[pos..], s, |s|)
  {
    hide ReadVarInt; hide ReadItems;
    var ins, p := s, pos;
    for i := 0 to |s|
      invariant pos <= p <= |b| && |ins| == |s|
      invariant ReadWitnesses(b[pos..], s, i) == Some((ins, b[p..]))
    {
      var n := NeedVarInt(b, p);
      if n.None? { WitnessesStop(b[pos..], s, i + 1, |s|); return None; }
      var w := NeedItems(b, n.value.1, n.value.0);
      if w.None? { WitnessesStop(b[pos..], s, i + 1, |s|); return None; }
      ins, p := ins[i := ins[i].(wit := w.value.0)], w.value.1;
    }
    return Some((ins, p));
  }

  method NeedCount(b: Data, pos: nat, minBytes: nat) returns (r: Option<(nat, nat)>)
    requires pos <= |b|
    ensures r.Some? ==> pos <= r.value.1 <= |b|
    ensures At(b, r) == ReadCount(b[pos..], minBytes)
  {
    hide ReadVarInt;
    r := NeedVarInt(b, pos);
    if r.Some? && (r.value.0 > MAX_COUNT || r.value.0 * minBytes > |b| - r.value.1) { return None; }
  }

  method DeserializeTx(b: Data, hasTime: bool) returns (t: Option<Tx>)
    ensures t == Deserialized(b, hasTime)
  {
    hide ReadLe; hide ReadCount; hide ReadIns; hide ReadOuts; hide ReadWitnesses;
    assert b[0..] == b;
    var v := NeedLe(b, 0, 4);
    if v.None? { return None; }
    var pos := v.value.1;
    var txTime := 0;
    if hasTime {
      var tm := NeedLe(b, pos, 4);
      if tm.None? { return None; }
      txTime, pos := tm.value.0, tm.value.1;
    }
    var segWit := false;
    ghost var unmarked := pos;
    if |b| >= pos + 2 && b[pos] == 0x00 && b[pos + 1] == 0x01 {
      assert b[pos..][2..] == b[pos + 2..];
      segWit, pos := true, pos + 2;
    }
    assert segWit == HasMarker(b[unmarked..]);
    var nIn := NeedCount(b, pos, MIN_IN_BYTES);
    if nIn.None? { return None; }
    var ins := NeedIns(b, nIn.value.1, nIn.value.0);
    if ins.None? { return None; }
    var nOut := NeedCount(b, ins.value.1, MIN_OUT_BYTES);
    if nOut.None? { return None; }
    var outs := NeedOuts(b, nOut.value.1, nOut.value.0);
    if outs.None? { return None; }
    var lt := NeedLe(b, outs.value.1, 4);
    if lt.None? { return None; }
    var inputs := ins.value.0;
    pos := lt.value.1;
    if segWit {
      var ws := NeedWitnesses(b, pos, inputs);
      if ws.None? { return None; }
      inputs, pos := ws.value.0, ws.value.1;
    }
    if pos != |b| { return None; }
    return Some(Tx(Signed(v.value.0), lt.value.0, inputs, outs.value.0, segWit, hasTime, txTime));
  }
}
