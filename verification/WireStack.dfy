/** From a packet to the bytes on the connection and back: the packet header, the transport
    envelope and the frame around it.  The checksum is a parameter. */
module WireStack {
  import opened Wrappers
  import opened Bytes
  import T = Transaction
  import W = WireBody
  import B = BodyTypes

  // ---- Packets -------------------------------------------------------------

  const HEADER_SIZE := 129
  const PUBKEY_OFFSET := 20
  const SIG_OFFSET := 53
  const SIG_END := 117
  const MAX_BODY_SIZE := 0x10_0000

  datatype Packet = Packet(
    version: nat,
    command: nat,
    timestamp: nat,
    oldSize: nat,
    size: nat,
    pubkey: Data,
    signature: Data,
    body: Data)

  /** The fields are values of their machine types. */
  predicate FitsPacket(p: Packet) {
    && p.version < T.TWO32 && p.command < T.TWO32 && p.timestamp < T.TWO32 && p.oldSize < T.TWO32
    && |p.pubkey| == 33 && |p.signature| == 64
  }

  function NewPacket(version: nat, command: nat, timestamp: nat, pubkey: Data, signature: Data, body: Data): Packet {
    Packet(version, command, timestamp, (|body| + HEADER_SIZE - 32) % T.TWO32, |body| % T.TWO32, pubkey, signature, body)
  }

  function Numbers(p: Packet): (b: Data)
    ensures |b| == PUBKEY_OFFSET
  {
    LeBytes(p.version, 4) + LeBytes(p.command, 4) + LeBytes(p.timestamp, 4) + LeBytes(p.oldSize, 4) + LeBytes(|p.body|, 4)
  }

  function Marshalled(p: Packet): Data {
    Numbers(p) + p.pubkey + p.signature + Repeat<Byte>(0, 12) + p.body
  }

  /** b copied into the buffer at off, behind what is written there already. */
  method Put(buf: array<Byte>, off: nat, b: Data, ghost done: Data)
    requires off == |done| && off + |b| <= buf.Length && buf[..] == done + Repeat<Byte>(0, buf.Length - off)
    modifies buf
    ensures buf[..] == done + b + Repeat<Byte>(0, buf.Length - off - |b|)
  {
    for i := 0 to |b|
      invariant buf[..] == done + b[..i] + Repeat<Byte>(0, buf.Length - off - i)
    {
      buf[off + i] := b[i];
    }
    assert b[..|b|] == b;
  }

  /** The header is written into a zeroed buffer at fixed offsets. */
  method Marshal(p: Packet) returns (buf: array<Byte>)
    requires |p.pubkey| == 33 && |p.signature| == 64
    ensures fresh(buf) && buf[..] == Marshalled(p)
  {
    hide LeBytes;
    buf := new Byte[HEADER_SIZE + |p.body|](_ => 0);
    assert buf[..] == [] + Repeat<Byte>(0, buf.Length);
    ghost var version, command, timestamp := LeBytes(p.version, 4), LeBytes(p.command, 4), LeBytes(p.timestamp, 4);
    ghost var oldSize := LeBytes(p.oldSize, 4);
    Put(buf, 0, LeBytes(p.version, 4), []);
    Put(buf, 4, LeBytes(p.command, 4), [] + version);
    Put(buf, 8, LeBytes(p.timestamp, 4), [] + version + command);
    Put(buf, 12, LeBytes(p.oldSize, 4), [] + version + command + timestamp);
    Put(buf, 16, LeBytes(|p.body|, 4), [] + version + command + timestamp + oldSize);
    assert [] + version == version;
    Put(buf, PUBKEY_OFFSET, p.pubkey, Numbers(p));
    Put(buf, SIG_OFFSET, p.signature, Numbers(p) + p.pubkey);
    assert Repeat<Byte>(0, 12 + |p.body|) == Repeat<Byte>(0, 12) + Repeat<Byte>(0, |p.body|);
    Put(buf, HEADER_SIZE, p.body, Numbers(p) + p.pubkey + p.signature + Repeat<Byte>(0, 12));
    assert Marshalled(p) + Repeat<Byte>(0, 0) == Marshalled(p);
  }

  datatype PacketError = TooShort | UnsupportedVersion | TooLarge | SizeMismatch

  function U32At(d: Data, off: nat): nat
    requires off + 4 <= |d|
  {
    LeOfValue(d[off..off + 4]);
    Value(d[off..off + 4], 256)
  }

  function Unmarshalled(d: Data, version: nat): Result<Packet, PacketError> {
    if |d| < HEADER_SIZE then Err(TooShort)
    else if U32At(d, 0) != version then Err(UnsupportedVersion)
    else if U32At(d, 16) > MAX_BODY_SIZE then Err(TooLarge)
    else if |d| != HEADER_SIZE + U32At(d, 16) then Err(SizeMismatch)
    else Ok(Packet(U32At(d, 0), U32At(d, 4), U32At(d, 8), U32At(d, 12), U32At(d, 16),
                   d[PUBKEY_OFFSET..SIG_OFFSET], d[SIG_OFFSET..SIG_END], d[HEADER_SIZE..]))
  }

  method Unmarshal(d: Data, version: nat) returns (r: Result<Packet, PacketError>)
    ensures r == Unmarshalled(d, version)
  {
    if |d| < HEADER_SIZE { return Err(TooShort); }
    var p := Packet(U32At(d, 0), U32At(d, 4), U32At(d, 8), U32At(d, 12), U32At(d, 16), [], [], []);
    if p.version != version { return Err(UnsupportedVersion); }
    p := p.(pubkey := d[PUBKEY_OFFSET..SIG_OFFSET], signature := d[SIG_OFFSET..SIG_END]);
    if p.size > MAX_BODY_SIZE { return Err(TooLarge); }
    if |d| < HEADER_SIZE + p.size { return Err(SizeMismatch); }
    p := p.(body := d[HEADER_SIZE..HEADER_SIZE + p.size]);
    if |d| != HEADER_SIZE + p.size { return Err(SizeMismatch); }
    assert d[HEADER_SIZE..HEADER_SIZE + p.size] == d[HEADER_SIZE..];
    return Ok(p);
  }

  predicate LegalPacket(p: Packet, version: nat) {
    p.version == version && p.size == |p.body| && |p.body| <= MAX_BODY_SIZE
  }

  lemma AtSlice(d: Data, off: nat, n: nat)
    requires off + 4 <= |d| && n < T.TWO32 && d[off..off + 4] == LeBytes(n, 4)
    ensures U32At(d, off) == n
  {
    Powers256();
    LeValue(n, 4);
  }

  lemma NumberSlices(p: Packet)
    ensures var n := Numbers(p);
            && n[0..4] == LeBytes(p.version, 4) && n[4..8] == LeBytes(p.command, 4) && n[8..12] == LeBytes(p.timestamp, 4)
            && n[12..16] == LeBytes(p.oldSize, 4) && n[16..20] == LeBytes(|p.body|, 4)
  {
    hide LeBytes;
  }

  lemma MarshalledSlices(p: Packet)
    requires FitsPacket(p)
    ensures var d := Marshalled(p);
            && |d| == HEADER_SIZE + |p.body|
            && d[..PUBKEY_OFFSET] == Numbers(p) && d[PUBKEY_OFFSET..SIG_OFFSET] == p.pubkey
            && d[SIG_OFFSET..SIG_END] == p.signature && d[HEADER_SIZE..] == p.body
  {
    hide Numbers;
  }

  lemma NumbersRead(p: Packet, d: Data)
    requires FitsPacket(p) && |d| >= PUBKEY_OFFSET && d[..PUBKEY_OFFSET] == Numbers(p)
    ensures U32At(d, 0) == p.version && U32At(d, 4) == p.command && U32At(d, 8) == p.timestamp
    ensures U32At(d, 12) == p.oldSize && (|p.body| < T.TWO32 ==> U32At(d, 16) == |p.body|)
  {
    hide LeBytes; hide Numbers; hide U32At;
    NumberSlices(p);
    var n := Numbers(p);
    assert d[0..4] == n[0..4] && d[4..8] == n[4..8] && d[8..12] == n[8..12];
    assert d[12..16] == n[12..16] && d[16..20] == n[16..20];
    AtSlice(d, 0, p.version);
    AtSlice(d, 4, p.command);
    AtSlice(d, 8, p.timestamp);
    AtSlice(d, 12, p.oldSize);
    if |p.body| < T.TWO32 { AtSlice(d, 16, |p.body|); }
  }

  /** A packet comes back exactly when it states our version and the size of a body that is
      not too large. */
  lemma PacketRoundTrip(p: Packet, version: nat)
    requires FitsPacket(p)
    ensures Unmarshalled(Marshalled(p), version) == Ok(p) <==> LegalPacket(p, version)
  {
    hide LeBytes; hide U32At; hide Numbers; hide Marshalled; hide FitsPacket;
    MarshalledSlices(p);
    NumbersRead(p, Marshalled(p));
  }

  lemma AcceptedPacketIsLegal(d: Data, version: nat)
    requires Unmarshalled(d, version).Ok?
    ensures FitsPacket(Unmarshalled(d, version).value) && LegalPacket(Unmarshalled(d, version).value, version)
  {
    Powers256();
    ValueBelow(d[0..4], 256);
    ValueBelow(d[4..8], 256);
    ValueBelow(d[8..12], 256);
    ValueBelow(d[12..16], 256);
  }

  /** The twelve bytes between signature and body carry nothing. */
  predicate ZeroPadding(d: Data) {
    |d| >= HEADER_SIZE && d[SIG_END..HEADER_SIZE] == Repeat<Byte>(0, 12)
  }

  lemma NumbersWritten(d: Data, p: Packet)
    requires |d| >= PUBKEY_OFFSET
    requires p.version == U32At(d, 0) && p.command == U32At(d, 4) && p.timestamp == U32At(d, 8)
    requires p.oldSize == U32At(d, 12) && |p.body| == U32At(d, 16)
    ensures Numbers(p) == d[..PUBKEY_OFFSET]
  {
    hide LeBytes;
    LeOfValue(d[0..4]);
    LeOfValue(d[4..8]);
    LeOfValue(d[8..12]);
    LeOfValue(d[12..16]);
    LeOfValue(d[16..20]);
    assert d[..PUBKEY_OFFSET] == d[0..4] + d[4..8] + d[8..12] + d[12..16] + d[16..20];
  }

  /** Accepted bytes are written back as they were exactly when their padding is zero. */
  lemma AcceptedPacketIsWritten(d: Data, version: nat)
    requires Unmarshalled(d, version).Ok?
    ensures Marshalled(Unmarshalled(d, version).value) == d <==> ZeroPadding(d)
  {
    hide U32At; hide Numbers;
    var p := Unmarshalled(d, version).value;
    NumbersWritten(d, p);
    var m := Marshalled(p);
    assert d == d[..PUBKEY_OFFSET] + d[PUBKEY_OFFSET..SIG_OFFSET] + d[SIG_OFFSET..SIG_END] + d[SIG_END..HEADER_SIZE] + d[HEADER_SIZE..];
    assert m[SIG_END..HEADER_SIZE] == Repeat<Byte>(0, 12);
  }

  /** What is hashed for signing: the packet with its signature blanked. */
  function DigestInput(p: Packet): Data {
    Marshalled(p.(signature := Repeat<Byte>(0, 64)))
  }

  /** The signed bytes determine every field that travels but the signature, and nothing else. */
  lemma SignatureCoversPacket(p: Packet, q: Packet)
    requires FitsPacket(p) && FitsPacket(q)
    ensures DigestInput(p) == DigestInput(q)
            <==> p.(signature := [], size := 0) == q.(signature := [], size := 0)
  {
    hide LeBytes; hide U32At; hide Numbers; hide Marshalled;
    var blank := Repeat<Byte>(0, 64);
    var p0, q0 := p.(signature := blank), q.(signature := blank);
    MarshalledSlices(p0);
    MarshalledSlices(q0);
    NumbersRead(p0, Marshalled(p0));
    NumbersRead(q0, Marshalled(q0));
    if p.(signature := [], size := 0) == q.(signature := [], size := 0) {
      SizeNotWritten(p0, q0);
    }
  }

  /** The stated size is not what is written: the length of the body is. */
  lemma SizeNotWritten(p: Packet, q: Packet)
    requires p.(size := 0) == q.(size := 0)
    ensures Marshalled(p) == Marshalled(q)
  {
  }

  // ---- Compact sizes -------------------------------------------------------

  const MAX_COMPACT_SIZE := 0x200_0000

  /** The smallest value each extended form may carry. */
  function FormFloor(width: nat): nat {
    if width == 2 then 0xfd else if width == 4 then 0x1_0000 else 0x1_0000_0000
  }

  function ReadCompact(b: Data): T.Read<nat> {
    if b == [] then None
    else if b[0] < 0xfd then Some((b[0], b[1..]))
    else
      var width := if b[0] == 0xfd then 2 else if b[0] == 0xfe then 4 else 8;
      match T.ReadLe(b[1..], width)
      case None => None
      case Some(r) => if r.0 < FormFloor(width) || r.0 > MAX_COMPACT_SIZE then None else Some(r)
  }

  method ReadVarInt(b: Data, pos: nat) returns (r: Option<(nat, nat)>)
    requires pos <= |b|
    ensures r.Some? ==> pos <= r.value.1 <= |b|
    ensures T.At(b, r) == ReadCompact(b[pos..])
  {
    hide T.ReadLe;
    if pos >= |b| { return None; }
    var first := b[pos];
    assert b[pos..][1..] == b[pos + 1..];
    if first < 0xfd { return Some((first, pos + 1)); }
    var width := if first == 0xfd then 2 else if first == 0xfe then 4 else 8;
    var v := T.NeedLe(b, pos + 1, width);
    if v.None? || v.value.0 < FormFloor(width) || v.value.0 > MAX_COMPACT_SIZE { return None; }
    return v;
  }

  /** The reader accepts exactly what the writer emits, up to the cap. */
  lemma CompactIsExact(b: Data, v: nat, rest: Data)
    ensures ReadCompact(b) == Some((v, rest)) <==> v <= MAX_COMPACT_SIZE && b == T.VarInt(v) + rest
  {
    if v <= MAX_COMPACT_SIZE && b == T.VarInt(v) + rest { CompactReads(v, rest); }
    if ReadCompact(b) == Some((v, rest)) { CompactWrites(b); }
  }

  lemma CompactReads(v: nat, rest: Data)
    requires v <= MAX_COMPACT_SIZE
    ensures ReadCompact(T.VarInt(v) + rest) == Some((v, rest))
  {
    hide LeBytes; hide T.ReadLe; hide Power;
    Powers256();
    var b := T.VarInt(v) + rest;
    if v < 0xfd {
      assert b[1..] == rest;
    } else {
      var width := if v <= 0xffff then 2 else 4;
      assert b[1..] == LeBytes(v, width) + rest;
      T.LeReads(v, width, rest);
    }
  }

  lemma CompactWrites(b: Data)
    requires ReadCompact(b).Some?
    ensures ReadCompact(b).value.0 <= MAX_COMPACT_SIZE && T.VarInt(ReadCompact(b).value.0) + ReadCompact(b).value.1 == b
  {
    hide LeBytes; hide Value; hide Power;
    Powers256();
    assert [b[0]] + b[1..] == b;
    if b[0] >= 0xfd {
      var width := if b[0] == 0xfd then 2 else if b[0] == 0xfe then 4 else 8;
      W.LeWrites(b[1..], width);
      var v := Value(b[1..][..width], 256);
      assert T.VarInt(v) + b[1..][width..] == [b[0]] + (LeBytes(v, width) + b[1..][width..]);
    }
  }

  // ---- The envelope --------------------------------------------------------

  const ENVELOPE_SIZE := 28

  function Enveloped(packet: Data, dest: Data, stamp: nat): Data {
    dest + LeBytes(stamp, 8) + packet
  }

  function EncodePayload(packet: Data, dest: Data, stamp: nat): Data {
    var env := Enveloped(packet, dest, stamp);
    T.VarInt(|env|) + env
  }

  function DecodePayload(payload: Data): Option<Data> {
    match ReadCompact(payload)
    case None => None
    case Some(n) => if n.0 != |n.1| || n.0 < ENVELOPE_SIZE then None else Some(n.1[ENVELOPE_SIZE..])
  }

  method DecodeXBridgePayload(payload: Data) returns (r: Option<Data>)
    ensures r == DecodePayload(payload)
  {
    hide ReadCompact;
    assert payload[0..] == payload;
    var n := ReadVarInt(payload, 0);
    if n.None? { return None; }
    var (size, off) := n.value;
    if off + size != |payload| { return None; }
    if size < ENVELOPE_SIZE { return None; }
    assert payload[off..][ENVELOPE_SIZE..] == payload[off + ENVELOPE_SIZE..off + size];
    return Some(payload[off + ENVELOPE_SIZE..off + size]);
  }

  predicate IsEnvelope(payload: Data, packet: Data, dest: Data, stamp: nat) {
    |dest| == 20 && stamp < T.TWO64 && payload == EncodePayload(packet, dest, stamp)
  }

  /** A payload yields a packet exactly when it is that packet's envelope for some
      destination and time, and not too large. */
  lemma EnvelopeIsExact(payload: Data, packet: Data)
    ensures DecodePayload(payload) == Some(packet)
            <==> ENVELOPE_SIZE + |packet| <= MAX_COMPACT_SIZE && exists dest, stamp :: IsEnvelope(payload, packet, dest, stamp)
  {
    if DecodePayload(payload) == Some(packet) { PayloadWrites(payload); }
    if ENVELOPE_SIZE + |packet| <= MAX_COMPACT_SIZE && exists dest, stamp :: IsEnvelope(payload, packet, dest, stamp) {
      var dest, stamp :| IsEnvelope(payload, packet, dest, stamp);
      PayloadReads(packet, dest, stamp);
    }
  }

  lemma PayloadReads(packet: Data, dest: Data, stamp: nat)
    requires |dest| == 20
    ensures DecodePayload(EncodePayload(packet, dest, stamp)) == Some(packet) <==> ENVELOPE_SIZE + |packet| <= MAX_COMPACT_SIZE
  {
    hide LeBytes; hide ReadCompact; hide T.VarInt;
    var env := Enveloped(packet, dest, stamp);
    assert env[ENVELOPE_SIZE..] == packet;
    CompactIsExact(EncodePayload(packet, dest, stamp), |env|, env);
    if DecodePayload(EncodePayload(packet, dest, stamp)) == Some(packet) {
      var n := ReadCompact(EncodePayload(packet, dest, stamp)).value;
      CompactIsExact(EncodePayload(packet, dest, stamp), n.0, n.1);
    }
  }

  lemma PayloadWrites(payload: Data)
    requires DecodePayload(payload).Some?
    ensures var packet := DecodePayload(payload).value;
            ENVELOPE_SIZE + |packet| <= MAX_COMPACT_SIZE && exists dest, stamp :: IsEnvelope(payload, packet, dest, stamp)
  {
    hide LeBytes; hide Value; hide ReadCompact; hide T.VarInt;
    var (n, env) := ReadCompact(payload).value;
    CompactIsExact(payload, n, env);
    Powers256();
    W.LeWrites(env[20..28], 8);
    assert env[20..28][..8] == env[20..28] && env[20..28][8..] == [];
    var stamp := Value(env[20..28], 256);
    assert LeBytes(stamp, 8) + [] == LeBytes(stamp, 8);
    assert env == env[..20] + env[20..28] + env[28..];
    assert IsEnvelope(payload, env[28..], env[..20], stamp);
  }

  // ---- Frames --------------------------------------------------------------

  const CMD_SIZE := 12
  const FRAME_HEADER := 24
  const MAX_PAYLOAD_SIZE := 4_000_000

  type Sum = d: Data | |d| == 4 witness [0, 0, 0, 0]

  datatype Message = Message(magic: Data, command: Data, length: nat, checksum: Data, payload: Data)

  datatype FrameError = FrameTooShort | PayloadTooLarge | PayloadTruncated | BadChecksum

  function CommandField(c: Data): (b: Data)
    ensures |b| == CMD_SIZE
  {
    if |c| >= CMD_SIZE then c[..CMD_SIZE] else c + Repeat<Byte>(0, CMD_SIZE - |c|)
  }

  function Framed(m: Message): Data {
    m.magic + CommandField(m.command) + LeBytes(|m.payload|, 4) + m.checksum + m.payload
  }

  method MarshalMessage(m: Message) returns (buf: Data)
    ensures buf == Framed(m)
  {
    hide LeBytes;
    buf := m.magic;
    var cmd: Data := Repeat<Byte>(0, CMD_SIZE);
    var i := 0;
    while i < CMD_SIZE && i < |m.command|
      invariant 0 <= i <= CMD_SIZE && i <= |m.command|
      invariant cmd == m.command[..i] + Repeat<Byte>(0, CMD_SIZE - i)
    {
      cmd := cmd[i := m.command[i]];
      i := i + 1;
    }
    assert cmd == CommandField(m.command);
    buf := buf + cmd;
    buf := buf + LeBytes(|m.payload|, 4);
    buf := buf + m.checksum;
    buf := buf + m.payload;
  }

  function Unframed(d: Data, sum: Data -> Sum): Result<Message, FrameError> {
    if |d| < FRAME_HEADER then Err(FrameTooShort) else
    var name, length := d[4..16], U32At(d, 16);
    if length > MAX_PAYLOAD_SIZE then Err(PayloadTooLarge)
    else if |d| < FRAME_HEADER + length then Err(PayloadTruncated)
    else
      var payload := d[FRAME_HEADER..FRAME_HEADER + length];
      if sum(payload) != d[20..24] then Err(BadChecksum)
      else Ok(Message(d[..4], name[..W.FirstZero(name)], length, d[20..24], payload))
  }

  method UnmarshalMessage(d: Data, sum: Data -> Sum) returns (r: Result<Message, FrameError>)
    ensures r == Unframed(d, sum)
  {
    if |d| < FRAME_HEADER { return Err(FrameTooShort); }
    var end := 4 + CMD_SIZE;
    var i := 4;
    while i < end && d[i] != 0
      invariant 4 <= i <= end
      invariant 0 !in d[4..i]
    {
      assert d[4..i + 1] == d[4..i] + [d[i]];
      i := i + 1;
    }
    assert d[4..16][..i - 4] == d[4..i];
    B.FirstZeroIs(d[4..16], i - 4);
    var m := Message(d[..4], d[4..i], U32At(d, 16), d[20..24], []);
    if m.length > MAX_PAYLOAD_SIZE { return Err(PayloadTooLarge); }
    if |d| < FRAME_HEADER + m.length { return Err(PayloadTruncated); }
    m := m.(payload := d[FRAME_HEADER..FRAME_HEADER + m.length]);
    if sum(m.payload) != m.checksum { return Err(BadChecksum); }
    return Ok(m);
  }

  predicate LegalMessage(m: Message, sum: Data -> Sum) {
    && |m.command| <= CMD_SIZE && 0 !in m.command
    && m.length == |m.payload| <= MAX_PAYLOAD_SIZE && m.checksum == sum(m.payload)
  }

  lemma FrameSlices(m: Message, rest: Data)
    requires |m.magic| == 4 && |m.checksum| == 4
    ensures var d := Framed(m) + rest;
            && |d| == FRAME_HEADER + |m.payload| + |rest|
            && d[..4] == m.magic && d[4..16] == CommandField(m.command) && d[16..20] == LeBytes(|m.payload|, 4)
            && d[20..24] == m.checksum && d[24..24 + |m.payload|] == m.payload
  {
    hide LeBytes; hide CommandField;
  }

  lemma NameReads(c: Data)
    requires |c| <= CMD_SIZE && 0 !in c
    ensures CommandField(c)[..W.FirstZero(CommandField(c))] == c
  {
    hide W.FirstZero;
    var f := CommandField(c);
    assert f[..|c|] == c;
    B.FirstZeroIs(f, |c|);
  }

  /** A message comes back, whatever follows it, exactly when it is well formed. */
  lemma FrameRoundTrip(m: Message, rest: Data, sum: Data -> Sum)
    requires |m.magic| == 4 && |m.checksum| == 4
    ensures Unframed(Framed(m) + rest, sum) == Ok(m) <==> LegalMessage(m, sum)
  {
    hide LeBytes; hide CommandField; hide Framed; hide U32At; hide W.FirstZero;
    var d := Framed(m) + rest;
    FrameSlices(m, rest);
    if LegalMessage(m, sum) {
      AtSlice(d, 16, |m.payload|);
      NameReads(m.command);
    } else if Unframed(d, sum) == Ok(m) {
      AcceptedFrameIsLegal(d, sum);
    }
  }

  lemma AcceptedFrameIsLegal(d: Data, sum: Data -> Sum)
    requires Unframed(d, sum).Ok?
    ensures LegalMessage(Unframed(d, sum).value, sum)
  {
    hide U32At; hide W.FirstZero;
    var name := d[4..16];
    assert W.FirstZero(name) <= |name| && 0 !in name[..W.FirstZero(name)] by { B.FirstZeroIs(name, W.FirstZero(name)); }
  }

  /** After the command's first zero byte there are only zeros. */
  predicate CleanName(d: Data) {
    |d| >= 16 && forall i | W.FirstZero(d[4..16]) <= i < 12 :: d[4..16][i] == 0
  }

  lemma NameWrites(name: Data)
    requires |name| == CMD_SIZE
    ensures CommandField(name[..W.FirstZero(name)]) == name <==> forall i | W.FirstZero(name) <= i < 12 :: name[i] == 0
  {
    var z := W.FirstZero(name);
    var f := CommandField(name[..z]);
    if f == name {
      forall i | z <= i < 12 ensures name[i] == 0 { assert f[i] == 0; }
    }
  }

  lemma AcceptedFrameIsWritten(d: Data, sum: Data -> Sum)
    requires Unframed(d, sum).Ok?
    ensures Framed(Unframed(d, sum).value) <= d <==> CleanName(d)
  {
    hide LeBytes; hide Value; hide CommandField; hide W.FirstZero;
    var m := Unframed(d, sum).value;
    LeOfValue(d[16..20]);
    NameWrites(d[4..16]);
    var n := FRAME_HEADER + m.length;
    assert d[..n] == d[..4] + d[4..16] + d[16..20] + d[20..24] + d[24..n];
    var f := Framed(m);
    assert |f| == n && f[4..16] == CommandField(m.command);
    assert f <= d ==> f == d[..n] && d[..n][4..16] == d[4..16];
    assert CommandField(m.command) == d[4..16] ==> f == d[..n];
  }

  // ---- The whole stack -----------------------------------------------------

  const XBRIDGE: Data := [0x78, 0x62, 0x72, 0x69, 0x64, 0x67, 0x65]

  function Sent(p: Packet, dest: Data, stamp: nat, magic: Data, sum: Data -> Sum): Data {
    var payload := EncodePayload(Marshalled(p), dest, stamp);
    Framed(Message(magic, XBRIDGE, |payload|, sum(payload), payload))
  }

  /** The packet and the fields of its body, or nothing when any layer refuses. */
  function Received(d: Data, magic: Data, version: nat, sum: Data -> Sum): Option<(Packet, seq<W.Field>)> {
    match Unframed(d, sum)
    case Err(_) => None
    case Ok(m) =>
      if m.magic != magic || m.command != XBRIDGE then None else
      match DecodePayload(m.payload)
      case None => None
      case Some(b) =>
        match Unmarshalled(b, version)
        case Err(_) => None
        case Ok(p) =>
          match B.LayoutOf(p.command)
          case None => None
          case Some(l) =>
            B.LayoutsAreStandard(p.command);
            match B.Decoded(l, p.body)
            case None => None
            case Some(fs) => Some((p, fs))
  }

  /** The packet of a typed body. */
  predicate Carries(p: Packet, fs: seq<W.Field>) {
    && FitsPacket(p) && B.LayoutOf(p.command).Some?
    && B.FitAll(B.LayoutOf(p.command).value.kinds, fs)
    && p.body == B.Encoded(B.LayoutOf(p.command).value.kinds, fs)
  }

  lemma PayloadSize(packet: Data, dest: Data, stamp: nat)
    requires |dest| == 20
    ensures |EncodePayload(packet, dest, stamp)| <= 37 + |packet|
  {
    hide LeBytes;
  }

  /** A body sent through packet, envelope and frame arrives, field for field, exactly when
      the packet and the body are legal. */
  lemma StackRoundTrip(p: Packet, fs: seq<W.Field>, dest: Data, stamp: nat, magic: Data, version: nat, sum: Data -> Sum)
    requires Carries(p, fs) && |dest| == 20 && |magic| == 4
    ensures Received(Sent(p, dest, stamp, magic, sum), magic, version, sum) == Some((p, fs))
            <==> LegalPacket(p, version) && B.LegalBody(B.LayoutOf(p.command).value, fs)
  {
    hide EncodePayload; hide DecodePayload; hide Marshalled; hide Unmarshalled; hide Framed; hide Unframed;
    hide B.LayoutOf; hide B.Decoded; hide B.Encoded; hide FitsPacket; hide LegalPacket; hide B.LegalBody; hide B.FitAll;
    hide B.Standard;
    var l := B.LayoutOf(p.command).value;
    B.LayoutsAreStandard(p.command);
    B.BodyRoundTrip(p.command, fs);
    var wire := Sent(p, dest, stamp, magic, sum);
    if LegalPacket(p, version) && B.LegalBody(l, fs) {
      PacketRoundTrip(p, version);
      SmallEnough(p, version);
      PayloadReads(Marshalled(p), dest, stamp);
      PayloadSize(Marshalled(p), dest, stamp);
      var payload := EncodePayload(Marshalled(p), dest, stamp);
      var m := Message(magic, XBRIDGE, |payload|, sum(payload), payload);
      FrameRoundTrip(m, [], sum);
      assert Framed(m) + [] == wire;
    } else if Received(wire, magic, version, sum) == Some((p, fs)) {
      AcceptedPacketIsLegal(DecodePayload(Unframed(wire, sum).value.payload).value, version);
    }
  }

  lemma SmallEnough(p: Packet, version: nat)
    requires FitsPacket(p) && LegalPacket(p, version)
    ensures |Marshalled(p)| <= HEADER_SIZE + MAX_BODY_SIZE
  {
    hide Numbers;
  }
}
