/** Finding the revealed secret in the counterparty's claim. */
module SecretScan {
  import opened Wrappers
  import opened Bytes
  import Htlc
  import Script
  import Transaction

  const SECRET_LENGTH: nat := 33

  predicate IsSecret(hash160: Data -> Data, hx: Data, push: Data) {
    |push| == SECRET_LENGTH && hash160(push) == hx
  }

  // ---- One signature script ------------------------------------------------

  function Word(lo: Byte, hi: Byte): nat {
    (lo as int) + 256 * (hi as int)
  }

  /** The element at the front as the scanner sees it: pushes up to two length bytes, and
      everything else a single skipped byte.  None when the element is cut short. */
  function Element(s: Data): Option<(Option<Data>, Data)>
    requires s != []
  {
    var op := s[0];
    var width := if op == 0x4c then 1 else if op == 0x4d then 2 else 0;
    if op > 0x4d then Some((None, s[1..]))
    else if |s| < 1 + width then None
    else
      var n: int := if op <= 0x4b then op as int else if op == 0x4c then s[1] as int else Word(s[1], s[2]);
      if |s| < 1 + width + n then None
      else Some((Some(s[1 + width..1 + width + n]), s[1 + width + n..]))
  }

  function Scan(hash160: Data -> Data, hx: Data, s: Data): Option<Data>
    decreases |s|
  {
    if s == [] then None else
    match Element(s)
    case None => None
    case Some(e) =>
      if e.0.Some? && IsSecret(hash160, hx, e.0.value) then e.0
      else if |e.1| < |s| then Scan(hash160, hx, e.1)
      else None
  }

  method SecretFromScriptSig(hash160: Data -> Data, hx: Data, script: Data) returns (secret: Option<Data>)
    ensures secret == Scan(hash160, hx, script)
  {
    hide IsSecret; hide Scan; hide Element;
    var i := 0;
    assert script[0..] == script;
    assert Scan(hash160, hx, []) == None by { ScanOne(hash160, hx, []); }
    while i < |script|
      invariant 0 <= i <= |script|
      invariant Scan(hash160, hx, script) == Scan(hash160, hx, script[i..])
    {
      var op := script[i];
      ScanOne(hash160, hx, script[i..]);
      ElementAt(script, i);
      i := i + 1;
      var n: int := 0;
      if op <= 0x4b {
        n := op;
      } else if op == 0x4c {
        if i >= |script| { return None; }
        n := script[i];
        i := i + 1;
      } else if op == 0x4d {
        if i + 2 > |script| { return None; }
        n := Word(script[i], script[i + 1]);
        i := i + 2;
      } else {
        continue;
      }
      if i + n > |script| { return None; }
      var push := script[i..i + n];
      if IsSecret(hash160, hx, push) { return Some(push); }
      i := i + n;
    }
    assert script[i..] == [];
    return None;
  }

  /** The push of n bytes that start at i, when the script is long enough. */
  function PushAt(script: Data, i: nat, n: nat): Option<(Option<Data>, Data)> {
    if i + n > |script| then None else Some((Some(script[i..i + n]), script[i + n..]))
  }

  /** The element at a position, in terms of positions. */
  lemma ElementAt(script: Data, i: nat)
    requires i < |script|
    ensures var op := script[i];
            Element(script[i..]) ==
            if op > 0x4d then Some((None, script[i + 1..]))
            else if op <= 0x4b then PushAt(script, i + 1, op)
            else if op == 0x4c then (if i + 2 > |script| then None else PushAt(script, i + 2, script[i + 1]))
            else if i + 3 > |script| then None
            else PushAt(script, i + 3, Word(script[i + 1], script[i + 2]))
  {
    hide Word;
    var s := script[i..];
    var width := if s[0] == 0x4c then 1 else if s[0] == 0x4d then 2 else 0;
    if s[0] > 0x4d {
      assert s[1..] == script[i + 1..];
    } else if |s| >= 1 + width {
      var n: int := if s[0] <= 0x4b then s[0] as int else if s[0] == 0x4c then s[1] as int else Word(s[1], s[2]);
      if n <= |s| - 1 - width {
        var from := i + 1 + width;
        assert s[1 + width..1 + width + n] == script[from..from + n] && s[1 + width + n..] == script[from + n..];
      }
    }
  }

  /** One turn of the scan. */
  lemma ScanOne(hash160: Data -> Data, hx: Data, s: Data)
    ensures Scan(hash160, hx, s) ==
            if s == [] || Element(s).None? then None
            else if Element(s).value.0.Some? && IsSecret(hash160, hx, Element(s).value.0.value) then Element(s).value.0
            else Scan(hash160, hx, Element(s).value.1)
  {
    hide IsSecret; hide Element;
    if s != [] { ElementShrinks(s); }
  }

  lemma ElementShrinks(s: Data)
    requires s != []
    ensures Element(s).Some? ==> |Element(s).value.1| < |s|
  {
  }

  predicate StandsAt(s: Data, i: nat, part: Data) {
    i + |part| <= |s| && s[i..i + |part|] == part
  }

  /** Whatever is found is a 33-byte stretch of the script that hashes to hx. */
  lemma {:induction false} ScanIsSound(hash160: Data -> Data, hx: Data, s: Data)
    ensures var r := Scan(hash160, hx, s);
            r.Some? ==> IsSecret(hash160, hx, r.value)
                        && exists i :: StandsAt(s, i, r.value)
    decreases |s|
  {
    hide IsSecret;
    var r := Scan(hash160, hx, s);
    if r.Some? {
      var e := Element(s).value;
      var k := |s| - |e.1|;
      if e.0.Some? && IsSecret(hash160, hx, e.0.value) {
        assert StandsAt(s, k - |r.value|, r.value);
      } else {
        ScanIsSound(hash160, hx, e.1);
        var i :| StandsAt(e.1, i, r.value);
        assert e.1 == s[k..];
        assert StandsAt(s, k + i, r.value);
      }
    }
  }

  // ---- Scripts of pushes and opcodes ---------------------------------------

  /** Pushes of at most two length bytes, 32-bit numbers, and opcodes from 1NEGATE up. */
  predicate Scannable(c: Htlc.Chunk) {
    match c
    case Code(op) => op >= Script.OP_1NEGATE
    case Text(b) => |b| <= 0xffff
    case Num(n) => -0x1_0000_0000 < n < 0x1_0000_0000
  }

  /** The first push, in script order, that is the secret. */
  function FirstSecret(hash160: Data -> Data, hx: Data, cs: seq<Htlc.Chunk>): Option<Data> {
    if cs == [] then None
    else if cs[0].Text? && IsSecret(hash160, hx, cs[0].b) then Some(cs[0].b)
    else FirstSecret(hash160, hx, cs[1..])
  }

  lemma PushElement(b: Data, rest: Data)
    requires |b| <= 0xffff
    ensures Element(Htlc.PushData(b) + rest) == Some((Some(b), rest))
  {
    var s := Htlc.PushData(b) + rest;
    if |b| == 0 {
      assert s[1..] == rest && s[1..1] == b;
    } else if |b| <= 75 {
      assert s[1..1 + |b|] == b && s[1 + |b|..] == rest;
    } else if |b| <= 0xff {
      assert s[2..2 + |b|] == b && s[2 + |b|..] == rest;
    } else {
      assert LeBytes(|b|, 2) == [|b| % 256] + ([|b| / 256 % 256] + []);
      assert Word(s[1], s[2]) == |b|;
      assert s[3..3 + |b|] == b && s[3 + |b|..] == rest;
    }
  }

  /** A pushed number is never mistaken for a secret: it is too short. */
  lemma NumElement(n: int, rest: Data)
    requires -0x1_0000_0000 < n < 0x1_0000_0000
    ensures var e := Element(Htlc.PushNum(n) + rest);
            e.Some? && e.value.1 == rest && (e.value.0.Some? ==> |e.value.0.value| != SECRET_LENGTH)
  {
    hide Script.EncodeNum; hide Htlc.PushData;
    var s := Htlc.PushNum(n) + rest;
    if n == -1 || 0 <= n <= 16 {
      assert s[1..] == rest;
    } else {
      Htlc.NumLength(n);
      PushElement(Script.EncodeNum(n), rest);
    }
  }

  /** On any such script the scanner finds the first matching push, and nothing when there is none. */
  lemma {:induction false} ScanIsComplete(hash160: Data -> Data, hx: Data, cs: seq<Htlc.Chunk>)
    requires forall i | 0 <= i < |cs| :: Scannable(cs[i])
    ensures Scan(hash160, hx, Htlc.Assemble(cs)) == FirstSecret(hash160, hx, cs)
  {
    hide Element; hide Htlc.PushData; hide Htlc.PushNum;
    if cs != [] {
      var c, rest := cs[0], Htlc.Assemble(cs[1..]);
      ScanIsComplete(hash160, hx, cs[1..]);
      match c {
        case Code(op) => CodeElement(op, rest);
        case Text(b) => PushElement(b, rest);
        case Num(n) => NumElement(n, rest);
      }
    }
  }

  lemma CodeElement(op: Byte, rest: Data)
    requires op >= Script.OP_1NEGATE
    ensures Element([op] + rest) == Some((None, rest))
  {
    assert ([op] + rest)[1..] == rest;
  }

  /** A claim's signature script yields the secret it reveals. */
  lemma PaymentRevealsSecret(hash160: Data -> Data, secret: Data, sig: Data, key: Data, inner: Data)
    requires |secret| == SECRET_LENGTH && |sig| <= 0xffff && |key| <= 0xffff && |inner| <= 0xffff
    ensures Scan(hash160, hash160(secret), Htlc.PaymentScriptSig(secret, sig, key, inner)) == Some(secret)
  {
    ScanIsComplete(hash160, hash160(secret),
                   [Htlc.Text(secret), Htlc.Text(sig), Htlc.Text(key), Htlc.Num(0), Htlc.Text(inner)]);
  }

  lemma WidePush(b: Data)
    requires |b| == SECRET_LENGTH
    ensures Script.ParseOne([Script.OP_PUSHDATA4, 33, 0, 0, 0] + b) == Some((Script.Push(b), []))
  {
    hide Value; hide Power;
    var s := [Script.OP_PUSHDATA4, 33, 0, 0, 0] + b;
    Powers256();
    LeValue(33, 4);
    ThirtyThree();
    assert s[1..5] == [33, 0, 0, 0] && s[5..38] == b && s[38..] == [];
  }

  lemma ThirtyThree()
    ensures LeBytes(33, 4) == [33, 0, 0, 0]
  {
    assert LeBytes(0, 3) == [0] + ([0] + ([0] + []));
  }

  /** A short push that is not the secret is passed over. */
  lemma Passes(hash160: Data -> Data, hx: Data, b: Data, rest: Data)
    requires 1 <= |b| <= 75 && !IsSecret(hash160, hx, b)
    ensures Scan(hash160, hx, [|b|] + b + rest) == Scan(hash160, hx, rest)
  {
    hide Element;
    PushElement(b, rest);
    var s := [|b|] + b + rest;
    assert Htlc.PushData(b) + rest == s;
  }

  /** A push with a four-byte length field is beyond the scanner, whatever the secret: it reads the
      length field as a push of three zeros and thirty bytes of the secret, and finds nothing unless
      those happen to hash to the same value. */
  lemma WidePushIsMissed(hash160: Data -> Data, secret: Data)
    requires |secret| == SECRET_LENGTH
    ensures var s := [Script.OP_PUSHDATA4, 33, 0, 0, 0] + secret;
            && Script.ParseOne(s) == Some((Script.Push(secret), []))
            && (Scan(hash160, hash160(secret), s) == None
                <==> hash160([0, 0, 0] + secret[..30]) != hash160(secret))
  {
    hide Scan; hide Script.ParseOne; hide Element;
    var hx := hash160(secret);
    WidePush(secret);
    var w: Data := [0, 0, 0] + secret[..30];
    var t := [|w|] + w + secret[30..];
    TooShort(hash160, hx, secret[30..]);
    if hash160(w) == hx {
      PushElement(w, secret[30..]);
      assert Htlc.PushData(w) + secret[30..] == t;
      ScanOne(hash160, hx, t);
    } else {
      Passes(hash160, hx, w, secret[30..]);
    }
    SkipsWide(hash160, hx, t);
    ShiftedPush(secret);
  }

  /** The bytes of the wide push, read from its length field on, are another push and three bytes. */
  lemma ShiftedPush(secret: Data)
    requires |secret| == SECRET_LENGTH
    ensures [Script.OP_PUSHDATA4, 33, 0, 0, 0] + secret
            == [Script.OP_PUSHDATA4] + ([33] + ([0, 0, 0] + secret[..30]) + secret[30..])
  {
    assert secret == secret[..30] + secret[30..];
  }

  lemma TooShort(hash160: Data -> Data, hx: Data, s: Data)
    requires |s| < SECRET_LENGTH
    ensures Scan(hash160, hx, s) == None
  {
    hide Scan;
    ScanIsSound(hash160, hx, s);
  }

  /** The scanner takes the opcode of a wide push for a single byte. */
  lemma SkipsWide(hash160: Data -> Data, hx: Data, t: Data)
    ensures Scan(hash160, hx, [Script.OP_PUSHDATA4] + t) == Scan(hash160, hx, t)
  {
    assert ([Script.OP_PUSHDATA4] + t)[1..] == t;
  }

  // ---- The claim transaction -----------------------------------------------

  /** The first input that spends the outpoint and reveals a secret. */
  function ScanInputs(hash160: Data -> Data, hx: Data, ins: seq<Transaction.TxIn>, hash: Data, vout: nat): Option<Data> {
    if ins == [] then None
    else if ins[0].hash == hash && ins[0].index == vout && Scan(hash160, hx, ins[0].scriptSig).Some?
    then Scan(hash160, hx, ins[0].scriptSig)
    else ScanInputs(hash160, hx, ins[1..], hash, vout)
  }

  function SecretIn(hash160: Data -> Data, hx: Data, raw: Data, hasTime: bool, depTxID: Data, vout: nat): Option<Data> {
    var tx := Transaction.Deserialized(raw, hasTime);
    if tx.None? || |depTxID| != 32 then None
    else ScanInputs(hash160, hx, tx.value.inputs, Reversed(depTxID), vout)
  }

  /** depTxID is in display order, the reverse of the order on the wire. */
  method SecretFromPayTx(hash160: Data -> Data, hx: Data, raw: Data, hasTime: bool, depTxID: Data, vout: nat)
    returns (secret: Option<Data>)
    ensures secret == SecretIn(hash160, hx, raw, hasTime, depTxID, vout)
  {
    hide Transaction.Deserialized; hide Scan;
    var tx := Transaction.DeserializeTx(raw, hasTime);
    if tx.None? { return None; }
    var ins := tx.value.inputs;
    if |ins| == 0 { return None; }
    if |depTxID| != 32 { return None; }
    var depHash: Data := [];
    for i := 0 to 32
      invariant |depHash| == i && forall k | 0 <= k < i :: depHash[k] == depTxID[31 - k]
    {
      depHash := depHash + [depTxID[31 - i]];
    }
    assert depHash == Reversed(depTxID);
    assert ins[0..] == ins;
    for i := 0 to |ins|
      invariant ScanInputs(hash160, hx, ins, depHash, vout) == ScanInputs(hash160, hx, ins[i..], depHash, vout)
    {
      assert ins[i..][1..] == ins[i + 1..];
      if ins[i].hash == depHash && ins[i].index == vout {
        var s := SecretFromScriptSig(hash160, hx, ins[i].scriptSig);
        if s.Some? { return s; }
      }
    }
    return None;
  }

  /** A returned secret hashes to hx and stands in an input that spends exactly our outpoint. */
  lemma {:induction false} InputsAreSound(hash160: Data -> Data, hx: Data, ins: seq<Transaction.TxIn>, hash: Data, vout: nat)
    ensures var r := ScanInputs(hash160, hx, ins, hash, vout);
            r.Some? ==> IsSecret(hash160, hx, r.value)
                        && exists k :: 0 <= k < |ins| && ins[k].hash == hash && ins[k].index == vout
                                       && Scan(hash160, hx, ins[k].scriptSig) == r
  {
    hide Scan; hide IsSecret;
    var r := ScanInputs(hash160, hx, ins, hash, vout);
    if r.Some? {
      if ins[0].hash == hash && ins[0].index == vout && Scan(hash160, hx, ins[0].scriptSig).Some? {
        ScanIsSound(hash160, hx, ins[0].scriptSig);
      } else {
        InputsAreSound(hash160, hx, ins[1..], hash, vout);
        var k :| 0 <= k < |ins[1..]| && ins[1..][k].hash == hash && ins[1..][k].index == vout
                 && Scan(hash160, hx, ins[1..][k].scriptSig) == r;
        assert ins[k + 1] == ins[1..][k];
      }
    }
  }

  /** The serialized claim of the maker always gives the taker the secret. */
  lemma ClaimYieldsSecret(hash160: Data -> Data, t: Transaction.Tx, depTxID: Data,
                          secret: Data, sig: Data, key: Data, inner: Data)
    requires Transaction.Valid(t) && |depTxID| == 32 && |t.inputs| == 1
    requires t.inputs[0].hash == Reversed(depTxID)
    requires t.inputs[0].scriptSig == Htlc.PaymentScriptSig(secret, sig, key, inner)
    requires |secret| == SECRET_LENGTH && |sig| <= 0xffff && |key| <= 0xffff && |inner| <= 0xffff
    ensures SecretIn(hash160, hash160(secret), Transaction.Serialized(t), t.withTime, depTxID, t.inputs[0].index)
            == Some(secret)
  {
    hide Transaction.Deserialized; hide Transaction.Serialized; hide Scan; hide Htlc.PaymentScriptSig;
    Transaction.RoundTrip(t);
    PaymentRevealsSecret(hash160, secret, sig, key, inner);
  }
}
