/** The deposit script of a swap and its two spends. */
module Htlc {
  import opened Wrappers
  import opened Bytes
  import opened Script

  // ---- Pushes --------------------------------------------------------------

  /** The shortest push of b; the length field of the widest form is 32 bits. */
  function PushData(b: Data): (s: Data)
    ensures |s| > |b|
  {
    if |b| == 0 then [OP_0]
    else if |b| <= 75 then [|b|] + b
    else if |b| <= 0xff then [OP_PUSHDATA1, |b|] + b
    else if |b| <= 0xffff then [OP_PUSHDATA2] + LeBytes(|b|, 2) + b
    else [OP_PUSHDATA4] + LeBytes(|b|, 4) + b
  }

  function PushNum(n: int): (s: Data)
    ensures s != []
  {
    if n == -1 then [OP_1NEGATE]
    else if n == 0 then [OP_0]
    else if 1 <= n <= 16 then [OP_1 + n - 1]
    else PushData(EncodeNum(n))
  }

  /** The sign goes into the top bit of the last byte, or into a byte of its own. */
  function SignByte(v: Data, neg: bool): Data
    requires v != []
  {
    var last := v[|v| - 1];
    if last >= 0x80 then v + [if neg then 0x80 else 0x00]
    else if neg then v[|v| - 1 := last + 0x80]
    else v
  }

  lemma SignedForm(n: int)
    requires n != 0
    ensures EncodeNum(n) == SignByte(Digits(if n < 0 then -n else n, 256), n < 0)
  {
    hide Digits;
  }

  /** The number is peeled off byte by byte, and its sign patched into the last one. */
  method BuildPushNum(n: int) returns (out: Data)
    ensures out == PushNum(n)
  {
    hide EncodeNum; hide PushData; hide SignByte; hide Digits;
    if n == -1 { return [OP_1NEGATE]; }
    if n == 0 { return [OP_0]; }
    if 1 <= n <= 16 { return [OP_1 + n - 1]; }
    var neg := n < 0;
    var buf := PeelBytes(if neg then -n else n);
    SignedForm(n);
    out := PushData(SignByte(buf, neg));
  }

  method PeelBytes(n: nat) returns (buf: Data)
    ensures buf == Digits(n, 256)
  {
    hide Digits;
    var v := n;
    buf := [];
    assert [] + Digits(n, 256) == Digits(n, 256);
    while v > 0
      invariant v >= 0 && Digits(n, 256) == buf + Digits(v, 256)
      decreases v
    {
      DigitsStep(v, buf);
      buf := buf + [v % 256];
      v := v / 256;
    }
    assert buf + Digits(0, 256) == buf;
  }

  lemma DigitsStep(v: nat, buf: Data)
    requires v > 0
    ensures buf + Digits(v, 256) == (buf + [v % 256]) + Digits(v / 256, 256)
  {
  }

  // ---- Assembly ------------------------------------------------------------

  /** What the builders append: an opcode, a pushed string or a pushed number. */
  datatype Chunk = Code(op: Byte) | Text(b: Data) | Num(n: int)

  function Encode(c: Chunk): Data {
    match c
    case Code(op) => [op]
    case Text(b) => PushData(b)
    case Num(n) => PushNum(n)
  }

  /** What a chunk means to the interpreter. */
  function Meaning(c: Chunk): Instr {
    match c
    case Code(op) => Op(op)
    case Text(b) => Push(b)
    case Num(n) => Push(EncodeNum(n))
  }

  function Assemble(cs: seq<Chunk>): Data {
    if cs == [] then [] else Encode(cs[0]) + Assemble(cs[1..])
  }

  function Meanings(cs: seq<Chunk>): (prog: seq<Instr>)
    ensures |prog| == |cs|
    ensures forall i | 0 <= i < |cs| :: prog[i] == Meaning(cs[i])
  {
    if cs == [] then [] else [Meaning(cs[0])] + Meanings(cs[1..])
  }

  /** Opcodes beyond the pushes, strings whose length fits the field, 32-bit numbers. */
  predicate Encodable(c: Chunk) {
    match c
    case Code(op) => op > OP_16
    case Text(b) => |b| < 0x1_0000_0000
    case Num(n) => -0x1_0000_0000 < n < 0x1_0000_0000
  }

  lemma ParsePush(b: Data, rest: Data)
    requires |b| < 0x1_0000_0000
    ensures ParseOne(PushData(b) + rest) == Some((Push(b), rest))
  {
    Powers256();
    var s := PushData(b) + rest;
    if |b| == 0 {
      assert s[1..] == rest;
    } else if |b| <= 75 {
      assert s[1..1 + |b|] == b && s[1 + |b|..] == rest;
    } else if |b| <= 0xff {
      assert s[1..2] == [|b|];
      OneDigit(|b|, 256);
      assert s[2..2 + |b|] == b && s[2 + |b|..] == rest;
    } else {
      var k := if |b| <= 0xffff then 2 else 4;
      LeValue(|b|, k);
      assert s[1..1 + k] == LeBytes(|b|, k);
      assert s[1 + k..1 + k + |b|] == b && s[1 + k + |b|..] == rest;
    }
  }

  lemma SmallNum(n: int)
    requires n == -1 || 0 <= n <= 16
    ensures EncodeNum(n) == (if n == -1 then [0x81] else if n == 0 then [] else [n])
  {
    hide Digits;
    if n != 0 { OneDigit(if n < 0 then -n else n, 256); }
  }

  lemma NumLength(n: int)
    requires -0x1_0000_0000 < n < 0x1_0000_0000
    ensures |EncodeNum(n)| <= 5
  {
    hide Digits; hide Power;
    Powers256();
    DigitsLength(if n < 0 then -n else n, 256, 4);
  }

  lemma ParseNum(n: int, rest: Data)
    requires -0x1_0000_0000 < n < 0x1_0000_0000
    ensures ParseOne(PushNum(n) + rest) == Some((Push(EncodeNum(n)), rest))
  {
    hide EncodeNum; hide Value; hide PushData;
    if n == -1 || 1 <= n <= 16 {
      SmallNum(n);
      assert (PushNum(n) + rest)[1..] == rest;
    } else if n == 0 {
      SmallNum(n);
      assert (PushNum(n) + rest)[1..] == rest && (PushNum(n) + rest)[1..1] == [];
    } else {
      NumLength(n);
      ParsePush(EncodeNum(n), rest);
    }
  }

  lemma ParseCode(op: Byte, rest: Data)
    requires op > OP_16
    ensures ParseOne([op] + rest) == Some((Op(op), rest))
  {
    assert ([op] + rest)[1..] == rest;
  }

  /** Parsing an assembled script gives back its meaning. */
  lemma {:induction false} ParseAssembled(cs: seq<Chunk>)
    requires forall i | 0 <= i < |cs| :: Encodable(cs[i])
    ensures Parse(Assemble(cs)) == Some(Meanings(cs))
  {
    hide ParseOne; hide EncodeNum; hide PushData; hide PushNum;
    if cs != [] {
      var c, rest := cs[0], Assemble(cs[1..]);
      ParseAssembled(cs[1..]);
      match c {
        case Code(op) => ParseCode(op, rest);
        case Text(b) => ParsePush(b, rest);
        case Num(n) => ParseNum(n, rest);
      }
    }
  }

  lemma {:induction false} AssembleSnoc(cs: seq<Chunk>, c: Chunk)
    ensures Assemble(cs + [c]) == Assemble(cs) + Encode(c)
  {
    if cs == [] {
      assert cs + [c] == [c];
    } else {
      assert (cs + [c])[1..] == cs[1..] + [c];
      AssembleSnoc(cs[1..], c);
    }
  }

  // ---- The deposit script --------------------------------------------------

  /** The terms of a deposit, with the keys already hashed. */
  datatype Terms = Terms(depositor: Data, counterparty: Data, secretHash: Data, lockTime: nat)

  /** Hashes are 20 bytes and the locktime is a block height above zero. */
  predicate Proper(d: Terms) {
    && |d.depositor| == 20 && |d.counterparty| == 20 && |d.secretHash| == 20
    && 0 < d.lockTime < LOCKTIME_THRESHOLD
  }

  function RefundChunks(d: Terms): seq<Chunk> {
    [Num(d.lockTime), Code(OP_CLTV), Code(OP_DROP), Code(OP_DUP), Code(OP_HASH160), Text(d.depositor),
     Code(OP_EQUALVERIFY), Code(OP_CHECKSIG)]
  }

  function ClaimChunks(d: Terms): seq<Chunk> {
    [Code(OP_DUP), Code(OP_HASH160), Text(d.counterparty), Code(OP_EQUALVERIFY), Code(OP_CHECKSIGVERIFY),
     Code(OP_SIZE), Num(33), Code(OP_EQUALVERIFY), Code(OP_HASH160), Text(d.secretHash), Code(OP_EQUAL)]
  }

  function DepositChunks(d: Terms): seq<Chunk> {
    [Code(OP_IF)] + RefundChunks(d) + [Code(OP_ELSE)] + ClaimChunks(d) + [Code(OP_ENDIF)]
  }

  function RedeemScript(d: Terms): Data {
    Assemble(DepositChunks(d))
  }

  /** The builder appends piece by piece; `cs` records the pieces of each branch. */
  method BuildDepositUnlockScript(d: Terms) returns (s: Data)
    ensures s == RedeemScript(d)
  {
    hide PushNum; hide PushData; hide Assemble; hide RefundChunks; hide ClaimChunks;
    assert Assemble([]) == [] by { AssembleNothing(); }
    s := [OP_IF];
    ghost var cs := Grow([], [], [Code(OP_IF)]);
    s := AppendRefundBranch(s, cs, d);
    cs := cs + RefundChunks(d);
    s := s + [OP_ELSE];
    cs := Grow(cs, Assemble(cs), [Code(OP_ELSE)]);
    s := AppendClaimBranch(s, cs, d);
    cs := cs + ClaimChunks(d);
    s := s + [OP_ENDIF];
    cs := Grow(cs, Assemble(cs), [Code(OP_ENDIF)]);
    assert cs == DepositChunks(d);
  }

  lemma EncodeIs()
    ensures forall op: Byte :: Encode(Code(op)) == [op]
    ensures forall b: Data :: Encode(Text(b)) == PushData(b)
    ensures forall n: int :: Encode(Num(n)) == PushNum(n)
  {
  }

  method AppendRefundBranch(script: Data, ghost before: seq<Chunk>, d: Terms) returns (s: Data)
    requires script == Assemble(before)
    ensures s == Assemble(before + RefundChunks(d))
  {
    hide PushNum; hide PushData; hide Assemble; hide Encode;
    EncodeIs();
    var num := BuildPushNum(d.lockTime);
    s := script + num;
    ghost var cs := Grow(before, script, [Num(d.lockTime)]);
    s := s + [OP_CLTV] + [OP_DROP];
    cs := Grow(cs, Assemble(cs), [Code(OP_CLTV), Code(OP_DROP)]);
    s := s + [OP_DUP] + [OP_HASH160];
    cs := Grow(cs, Assemble(cs), [Code(OP_DUP), Code(OP_HASH160)]);
    s := s + PushData(d.depositor);
    cs := Grow(cs, Assemble(cs), [Text(d.depositor)]);
    s := s + [OP_EQUALVERIFY] + [OP_CHECKSIG];
    cs := Grow(cs, Assemble(cs), [Code(OP_EQUALVERIFY), Code(OP_CHECKSIG)]);
    assert cs == before + RefundChunks(d);
  }

  method AppendClaimBranch(script: Data, ghost before: seq<Chunk>, d: Terms) returns (s: Data)
    requires script == Assemble(before)
    ensures s == Assemble(before + ClaimChunks(d))
  {
    hide PushNum; hide PushData; hide Assemble; hide Encode;
    EncodeIs();
    s := script + [OP_DUP] + [OP_HASH160];
    ghost var cs := Grow(before, script, [Code(OP_DUP), Code(OP_HASH160)]);
    s := s + PushData(d.counterparty);
    cs := Grow(cs, Assemble(cs), [Text(d.counterparty)]);
    s := s + [OP_EQUALVERIFY] + [OP_CHECKSIGVERIFY];
    cs := Grow(cs, Assemble(cs), [Code(OP_EQUALVERIFY), Code(OP_CHECKSIGVERIFY)]);
    var size := BuildPushNum(33);
    s := s + [OP_SIZE] + size;
    cs := Grow(cs, Assemble(cs), [Code(OP_SIZE), Num(33)]);
    s := s + [OP_EQUALVERIFY] + [OP_HASH160];
    cs := Grow(cs, Assemble(cs), [Code(OP_EQUALVERIFY), Code(OP_HASH160)]);
    s := s + PushData(d.secretHash) + [OP_EQUAL];
    cs := Grow(cs, Assemble(cs), [Text(d.secretHash), Code(OP_EQUAL)]);
    assert cs == before + ClaimChunks(d);
  }

  lemma AssembleNothing()
    ensures Assemble([]) == []
  {
  }

  /** Appending one or two chunks appends their bytes. */
  ghost method Grow(cs: seq<Chunk>, s: Data, more: seq<Chunk>) returns (r: seq<Chunk>)
    requires Assemble(cs) == s && 1 <= |more| <= 2
    ensures r == cs + more
    ensures Assemble(r) == if |more| == 1 then s + Encode(more[0]) else s + Encode(more[0]) + Encode(more[1])
  {
    hide Assemble; hide Encode;
    AssembleSnoc(cs, more[0]);
    if |more| == 2 { AssembleSnoc(cs + [more[0]], more[1]); }
    r := cs + more;
    assert r == if |more| == 1 then cs + [more[0]] else cs + [more[0]] + [more[1]];
  }

  // ---- Its two branches ----------------------------------------------------

  /** Signature and key lie on top and satisfy the key hash. */
  predicate KeyAccepts(tx: Spend, stack: seq<Data>, keyHash: Data) {
    |stack| >= 2 && tx.hash160(stack[|stack| - 1]) == keyHash
  }

  lemma Run1(tx: Spend, prog: seq<Instr>, m: Machine)
    requires prog != []
    ensures Exec(tx, prog, m)
            == (match Step(tx, prog[0], m) case None => None case Some(m1) => Exec(tx, prog[1..], m1))
    ensures |prog| == 1 ==> Exec(tx, prog, m) == Step(tx, prog[0], m)
  {
    hide Step;
  }

  /** DUP HASH160 <hash> EQUALVERIFY and what follows. */
  lemma KeyCheck(tx: Spend, prog: seq<Instr>, m: Machine, keyHash: Data)
    requires |prog| >= 4 && prog[0] == Op(OP_DUP) && prog[1] == Op(OP_HASH160) && prog[2] == Push(keyHash)
    requires prog[3] == Op(OP_EQUALVERIFY)
    requires m.conds == [true] || m.conds == [false, true] || m.conds == []
    requires false !in m.conds && |keyHash| == 20
    ensures Exec(tx, prog, m)
            == if |m.stack| >= 1 && tx.hash160(Top(m, 0)) == keyHash then Exec(tx, prog[4..], m) else None
  {
    hide Exec;
    Run1(tx, prog, m);
    if |m.stack| >= 1 {
      var m1 := PushTo(m, Top(m, 0));
      Run1(tx, prog[1..], m1);
      assert Pop(m1, 1) == m;
      var m2 := PushTo(m, tx.hash160(Top(m, 0)));
      Run1(tx, prog[1..][1..], m2);
      var m3 := PushTo(m2, keyHash);
      Run1(tx, prog[1..][1..][1..], m3);
      assert Pop(m3, 2) == m;
      assert prog[1..][1..][1..][1..] == prog[4..];
    }
  }

  /** What the refund branch does to any stack. */
  lemma RefundBranch(tx: Spend, d: Terms, m: Machine)
    requires Proper(d) && m.conds == [true]
    ensures var st := m.stack; var r := Exec(tx, Meanings(RefundChunks(d)), m);
            if LockTimeMet(tx, d.lockTime) && KeyAccepts(tx, st, d.depositor)
            then r == Some(m.(stack := st[..|st| - 2] + [Bool(tx.checkSig(st[|st| - 2], st[|st| - 1]))]))
            else r.None?
  {
    var cs := RefundChunks(d);
    var prog := Meanings(cs);
    assert prog[0] == Meaning(cs[0]) && prog[1] == Op(OP_CLTV) && prog[2] == Op(OP_DROP);
    assert prog[3] == Meaning(cs[3]) && prog[4] == Meaning(cs[4]) && prog[5] == Meaning(cs[5]);
    assert prog[6] == Meaning(cs[6]) && prog[7] == Meaning(cs[7]);
    hide Exec; hide Meanings; hide RefundChunks;
    LockStep(tx, prog, m, d.lockTime);
    if LockTimeMet(tx, d.lockTime) {
      var tail := prog[3..];
      KeyCheck(tx, tail, m, d.depositor);
      assert tail[4..] == [Op(OP_CHECKSIG)];
      Run1(tx, [Op(OP_CHECKSIG)], m);
    }
  }

  /** <n> CHECKLOCKTIMEVERIFY DROP and what follows. */
  lemma LockStep(tx: Spend, prog: seq<Instr>, m: Machine, n: nat)
    requires |prog| >= 3 && n < LOCKTIME_THRESHOLD
    requires prog[0] == Push(EncodeNum(n)) && prog[1] == Op(OP_CLTV) && prog[2] == Op(OP_DROP)
    requires m.conds == [true]
    ensures Exec(tx, prog, m) == if LockTimeMet(tx, n) then Exec(tx, prog[3..], m) else None
  {
    NumLength(n);
    DecodeEncodeNum(n);
    hide EncodeNum; hide DecodeNum; hide Exec;
    var m1 := PushTo(m, EncodeNum(n));
    Run1(tx, prog, m);
    Run1(tx, prog[1..], m1);
    Run1(tx, prog[1..][1..], m1);
    assert Pop(m1, 1) == m;
    assert prog[1..][1..][1..] == prog[3..];
  }

  /** The stack below signature and key carries a 33-byte preimage of the secret hash. */
  predicate SecretAccepts(tx: Spend, stack: seq<Data>, secretHash: Data) {
    |stack| >= 3 && |stack[|stack| - 3]| == 33 && tx.hash160(stack[|stack| - 3]) == secretHash
  }

  /** What the claim branch does to any stack; a wrong preimage leaves false on top. */
  lemma ClaimBranch(tx: Spend, d: Terms, m: Machine)
    requires Proper(d) && m.conds == [true]
    ensures var st := m.stack; var r := Exec(tx, Meanings(ClaimChunks(d)), m);
            if KeyAccepts(tx, st, d.counterparty) && tx.checkSig(st[|st| - 2], st[|st| - 1])
               && |st| >= 3 && |st[|st| - 3]| == 33
            then r == Some(m.(stack := st[..|st| - 3] + [Bool(tx.hash160(st[|st| - 3]) == d.secretHash)]))
            else r.None?
  {
    var st := m.stack;
    var prog := Meanings(ClaimChunks(d));
    ClaimProgram(d);
    hide Exec; hide Meanings; hide ClaimChunks; hide EncodeNum; hide Bool;
    KeyCheck(tx, prog, m, d.counterparty);
    Run1(tx, prog[4..], m);
    assert prog[4..][1..] == prog[5..];
    if KeyAccepts(tx, st, d.counterparty) && tx.checkSig(st[|st| - 2], st[|st| - 1]) {
      var below := Pop(m, 2);
      assert Step(tx, Op(OP_CHECKSIGVERIFY), m) == Some(below);
      SecretCheck(tx, prog[5..], below, d.secretHash);
      assert |st| >= 3 ==> st[..|st| - 2][..|st| - 3] == st[..|st| - 3];
    }
  }

  lemma ClaimProgram(d: Terms)
    ensures var prog := Meanings(ClaimChunks(d));
            && |prog| == 11 && prog[0] == Op(OP_DUP) && prog[1] == Op(OP_HASH160) && prog[2] == Push(d.counterparty)
            && prog[3] == Op(OP_EQUALVERIFY) && prog[4] == Op(OP_CHECKSIGVERIFY)
            && prog[5..] == [Op(OP_SIZE), Push(EncodeNum(33)), Op(OP_EQUALVERIFY), Op(OP_HASH160), Push(d.secretHash), Op(OP_EQUAL)]
  {
    hide EncodeNum;
    var cs := ClaimChunks(d);
    var prog := Meanings(cs);
    assert prog[0] == Meaning(cs[0]) && prog[1] == Meaning(cs[1]) && prog[2] == Meaning(cs[2]);
    assert prog[3] == Meaning(cs[3]) && prog[4] == Meaning(cs[4]) && prog[5] == Meaning(cs[5]);
    assert prog[6] == Meaning(cs[6]) && prog[7] == Meaning(cs[7]) && prog[8] == Meaning(cs[8]);
    assert prog[9] == Meaning(cs[9]) && prog[10] == Meaning(cs[10]);
  }

  lemma SizeIs(n: nat)
    ensures EncodeNum(n) == EncodeNum(33) <==> n == 33
    ensures |EncodeNum(33)| <= 5
  {
    hide EncodeNum; hide DecodeNum;
    NumLength(33);
    DecodeEncodeNum(33);
    DecodeEncodeNum(n);
  }

  /** SIZE 33 EQUALVERIFY and what follows. */
  lemma SizeCheck(tx: Spend, prog: seq<Instr>, m: Machine)
    requires |prog| >= 3 && prog[0] == Op(OP_SIZE) && prog[1] == Push(EncodeNum(33)) && prog[2] == Op(OP_EQUALVERIFY)
    requires m.conds == [true]
    ensures Exec(tx, prog, m) == if |m.stack| >= 1 && |Top(m, 0)| == 33 then Exec(tx, prog[3..], m) else None
  {
    hide Exec; hide EncodeNum;
    Run1(tx, prog, m);
    if |m.stack| >= 1 {
      var x := Top(m, 0);
      SizeIs(|x|);
      var m1 := PushTo(m, EncodeNum(|x|));
      Run1(tx, prog[1..], m1);
      var m2 := PushTo(m1, EncodeNum(33));
      Run1(tx, prog[1..][1..], m2);
      assert Pop(m2, 2) == m;
      assert prog[1..][1..][1..] == prog[3..];
    }
  }

  /** SIZE 33 EQUALVERIFY HASH160 <hash> EQUAL. */
  lemma SecretCheck(tx: Spend, prog: seq<Instr>, m: Machine, secretHash: Data)
    requires prog == [Op(OP_SIZE), Push(EncodeNum(33)), Op(OP_EQUALVERIFY), Op(OP_HASH160), Push(secretHash), Op(OP_EQUAL)]
    requires m.conds == [true] && |secretHash| == 20
    ensures var st := m.stack;
            Exec(tx, prog, m)
            == if |st| >= 1 && |st[|st| - 1]| == 33
               then Some(m.(stack := st[..|st| - 1] + [Bool(tx.hash160(st[|st| - 1]) == secretHash)]))
               else None
  {
    hide Exec; hide EncodeNum; hide Bool;
    SizeCheck(tx, prog, m);
    if |m.stack| >= 1 { HashCheck(tx, prog[3..], m, secretHash); }
  }

  lemma HashCheck(tx: Spend, prog: seq<Instr>, m: Machine, secretHash: Data)
    requires prog == [Op(OP_HASH160), Push(secretHash), Op(OP_EQUAL)]
    requires false !in m.conds && |secretHash| == 20 && |m.stack| >= 1
    ensures Exec(tx, prog, m) == Some(PushTo(Pop(m, 1), Bool(tx.hash160(Top(m, 0)) == secretHash)))
  {
    hide Exec;
    var m1 := PushTo(Pop(m, 1), tx.hash160(Top(m, 0)));
    Run1(tx, prog, m);
    Run1(tx, prog[1..], m1);
    var m2 := PushTo(m1, secretHash);
    Run1(tx, prog[1..][1..], m2);
    assert prog[1..][1..] == [Op(OP_EQUAL)];
    assert Pop(m2, 2) == Pop(m, 1);
  }

  // ---- The two spend paths -------------------------------------------------

  lemma BoolIs(b: bool)
    ensures CastToBool(Bool(b)) == b
  {
    if b { assert Bool(b)[0] != 0; }
  }

  /** Depositor key and signature, the locktime met, and a true selector on top. */
  predicate RefundPath(tx: Spend, d: Terms, stack: seq<Data>) {
    var n := |stack|;
    && n >= 3 && CastToBool(stack[n - 1]) && LockTimeMet(tx, d.lockTime)
    && tx.hash160(stack[n - 2]) == d.depositor && tx.checkSig(stack[n - 3], stack[n - 2])
  }

  /** Counterparty key and signature, a 33-byte preimage, and a false selector on top. */
  predicate ClaimPath(tx: Spend, d: Terms, stack: seq<Data>) {
    var n := |stack|;
    && n >= 4 && !CastToBool(stack[n - 1])
    && tx.hash160(stack[n - 2]) == d.counterparty && tx.checkSig(stack[n - 3], stack[n - 2])
    && |stack[n - 4]| == 33 && tx.hash160(stack[n - 4]) == d.secretHash
  }

  lemma MeaningsAppend(a: seq<Chunk>, b: seq<Chunk>)
    ensures Meanings(a + b) == Meanings(a) + Meanings(b)
  {
    forall i | 0 <= i < |a + b| ensures Meanings(a + b)[i] == (Meanings(a) + Meanings(b))[i] {
      assert Meanings(a + b)[i] == Meaning((a + b)[i]);
    }
  }

  /** The program of the deposit script, nested as it runs. */
  function DepositProgram(d: Terms): seq<Instr> {
    [Op(OP_IF)] + (Meanings(RefundChunks(d)) + ([Op(OP_ELSE)] + (Meanings(ClaimChunks(d)) + [Op(OP_ENDIF)])))
  }

  lemma DepositParses(d: Terms)
    requires Proper(d)
    ensures Parse(RedeemScript(d)) == Some(DepositProgram(d))
  {
    DepositMeaning(d);
    hide DepositProgram; hide Meanings; hide Parse; hide Assemble;
    ParseAssembled(DepositChunks(d));
  }

  lemma DepositMeaning(d: Terms)
    ensures Meanings(DepositChunks(d)) == DepositProgram(d)
  {
    hide RefundChunks; hide ClaimChunks;
    var f, g := RefundChunks(d), ClaimChunks(d);
    MeaningsAppend([Code(OP_IF)] + f + [Code(OP_ELSE)] + g, [Code(OP_ENDIF)]);
    MeaningsAppend([Code(OP_IF)] + f + [Code(OP_ELSE)], g);
    MeaningsAppend([Code(OP_IF)] + f, [Code(OP_ELSE)]);
    MeaningsAppend([Code(OP_IF)], f);
    OneMeaning(OP_IF);
    OneMeaning(OP_ELSE);
    OneMeaning(OP_ENDIF);
    hide Meanings;
  }

  lemma OneMeaning(op: Byte)
    ensures Meanings([Code(op)]) == [Op(op)]
  {
    assert Meanings([Code(op)])[0] == Meaning([Code(op)][0]);
  }

  lemma Skippable(cs: seq<Chunk>)
    requires forall i | 0 <= i < |cs| ::
               match cs[i] case Code(op) => op !in {OP_IF, OP_ELSE, OP_ENDIF}
                           case Text(b) => |b| <= MAX_ELEMENT
                           case Num(n) => -0x1_0000_0000 < n < 0x1_0000_0000
    ensures Harmless(Meanings(cs))
  {
    forall i | 0 <= i < |cs|
      ensures var prog := Meanings(cs);
              if prog[i].Push? then |prog[i].data| <= MAX_ELEMENT else prog[i].code !in {OP_IF, OP_ELSE, OP_ENDIF}
    {
      assert Meanings(cs)[i] == Meaning(cs[i]);
      if cs[i].Num? { NumLength(cs[i].n); }
    }
  }

  lemma SelectorStep(tx: Spend, rest: seq<Instr>, stack: seq<Data>)
    requires |stack| >= 1
    ensures Exec(tx, [Op(OP_IF)] + rest, Machine(stack, []))
            == Exec(tx, rest, Machine(stack[..|stack| - 1], [CastToBool(stack[|stack| - 1])]))
  {
    hide Exec; hide CastToBool;
    assert [] + [CastToBool(stack[|stack| - 1])] == [CastToBool(stack[|stack| - 1])];
    Run1(tx, [Op(OP_IF)] + rest, Machine(stack, []));
    assert ([Op(OP_IF)] + rest)[1..] == rest;
  }

  lemma EndStep(tx: Spend, m: Machine)
    requires |m.conds| == 1
    ensures Exec(tx, [Op(OP_ENDIF)], m) == Some(m.(conds := []))
  {
    hide Exec;
    Run1(tx, [Op(OP_ENDIF)], m);
  }

  /** The taken first branch runs, the second is skipped. */
  lemma FirstBranchRuns(tx: Spend, f: seq<Instr>, g: seq<Instr>, m: Machine)
    requires m.conds == [true]
    requires var r := Exec(tx, f, m); r.Some? ==> r.value.conds == [true]
    requires Harmless(g)
    ensures Exec(tx, f + ([Op(OP_ELSE)] + (g + [Op(OP_ENDIF)])), m)
            == (match Exec(tx, f, m) case None => None case Some(r) => Some(r.(conds := [])))
  {
    hide Exec;
    ExecAppend(tx, f, [Op(OP_ELSE)] + (g + [Op(OP_ENDIF)]), m);
    var r := Exec(tx, f, m);
    if r.Some? {
      var skipped := r.value.(conds := [false]);
      Flip(tx, [Op(OP_ELSE)], g + [Op(OP_ENDIF)], r.value);
      ExecAppend(tx, g, [Op(OP_ENDIF)], skipped);
      ExecSkips(tx, g, skipped);
      EndStep(tx, skipped);
    }
  }

  /** The first branch is skipped, the second runs. */
  lemma SecondBranchRuns(tx: Spend, f: seq<Instr>, g: seq<Instr>, m: Machine)
    requires m.conds == [true]
    requires var r := Exec(tx, g, m); r.Some? ==> r.value.conds == [true]
    requires Harmless(f)
    ensures Exec(tx, f + ([Op(OP_ELSE)] + (g + [Op(OP_ENDIF)])), m.(conds := [false]))
            == (match Exec(tx, g, m) case None => None case Some(r) => Some(r.(conds := [])))
  {
    hide Exec;
    var start := m.(conds := [false]);
    ExecAppend(tx, f, [Op(OP_ELSE)] + (g + [Op(OP_ENDIF)]), start);
    ExecSkips(tx, f, start);
    Flip(tx, [Op(OP_ELSE)], g + [Op(OP_ENDIF)], start);
    ExecAppend(tx, g, [Op(OP_ENDIF)], m);
    var r := Exec(tx, g, m);
    if r.Some? { EndStep(tx, r.value); }
  }

  lemma BranchesHarmless(d: Terms)
    requires Proper(d)
    ensures Harmless(Meanings(RefundChunks(d))) && Harmless(Meanings(ClaimChunks(d)))
  {
    hide Harmless; hide Meanings;
    Skippable(RefundChunks(d));
    Skippable(ClaimChunks(d));
  }

  lemma BranchesKeepFlag(tx: Spend, d: Terms, m: Machine)
    requires Proper(d) && m.conds == [true]
    ensures var r := Exec(tx, Meanings(RefundChunks(d)), m); r.Some? ==> r.value.conds == [true]
    ensures var r := Exec(tx, Meanings(ClaimChunks(d)), m); r.Some? ==> r.value.conds == [true]
  {
    hide Exec; hide Meanings; hide RefundChunks; hide ClaimChunks;
    RefundBranch(tx, d, m);
    ClaimBranch(tx, d, m);
  }

  /** The whole script on a stack with a selector: the taken branch alone acts. */
  lemma DepositRuns(tx: Spend, d: Terms, stack: seq<Data>)
    requires Proper(d) && |stack| >= 1
    ensures var below := Machine(stack[..|stack| - 1], [true]);
            var r := if CastToBool(stack[|stack| - 1]) then Exec(tx, Meanings(RefundChunks(d)), below)
                     else Exec(tx, Meanings(ClaimChunks(d)), below);
            Eval(tx, RedeemScript(d), stack) == (if r.None? then None else Some(r.value.stack))
  {
    var f, g := Meanings(RefundChunks(d)), Meanings(ClaimChunks(d));
    var below := Machine(stack[..|stack| - 1], [true]);
    DepositParses(d);
    BranchesKeepFlag(tx, d, below);
    BranchesHarmless(d);
    hide Exec; hide Meanings; hide RefundChunks; hide ClaimChunks; hide CastToBool; hide Parse; hide Harmless;
    SelectorStep(tx, f + ([Op(OP_ELSE)] + (g + [Op(OP_ENDIF)])), stack);
    if CastToBool(stack[|stack| - 1]) { FirstBranchRuns(tx, f, g, below); } else { SecondBranchRuns(tx, f, g, below); }
  }

  lemma Flip(tx: Spend, else_: seq<Instr>, rest: seq<Instr>, m: Machine)
    requires else_ == [Op(OP_ELSE)] && |m.conds| == 1
    ensures Exec(tx, else_ + rest, m) == Exec(tx, rest, m.(conds := [!m.conds[0]]))
  {
    hide Exec;
    assert m.conds[..|m.conds| - 1] + [!m.conds[0]] == [!m.conds[0]];
    Run1(tx, else_ + rest, m);
    assert (else_ + rest)[1..] == rest;
  }

  /** The deposit script accepts a stack exactly along the refund or the claim path. */
  lemma TwoSpendPaths(tx: Spend, d: Terms, stack: seq<Data>)
    requires Proper(d)
    ensures Accepts(tx, RedeemScript(d), stack) <==> RefundPath(tx, d, stack) || ClaimPath(tx, d, stack)
  {
    hide Exec; hide Meanings; hide RefundChunks; hide ClaimChunks; hide CastToBool; hide Bool;
    if |stack| == 0 {
      EmptyFails(tx, d);
    } else {
      var below := Machine(stack[..|stack| - 1], [true]);
      DepositRuns(tx, d, stack);
      hide Eval;
      BoolIs(true);
      BoolIs(false);
      if CastToBool(stack[|stack| - 1]) { RefundBranch(tx, d, below); } else { ClaimBranch(tx, d, below); }
    }
  }

  lemma EmptyFails(tx: Spend, d: Terms)
    requires Proper(d)
    ensures Eval(tx, RedeemScript(d), []).None?
  {
    DepositParses(d);
    var prog := Parse(RedeemScript(d)).value;
    assert prog[0] == Op(OP_IF);
    Run1(tx, prog, Machine([], []));
  }

  // ---- Spending the deposit output -----------------------------------------

  function P2SHScript(scriptHash: Data): Data {
    Assemble([Code(OP_HASH160), Text(scriptHash), Code(OP_EQUAL)])
  }

  function RefundScriptSig(sig: Data, key: Data, inner: Data): Data {
    Assemble([Text(sig), Text(key), Num(1), Text(inner)])
  }

  function PaymentScriptSig(secret: Data, sig: Data, key: Data, inner: Data): Data {
    Assemble([Text(secret), Text(sig), Text(key), Num(0), Text(inner)])
  }

  lemma EncodeSmall()
    ensures Encode(Num(0)) == [OP_0] && Encode(Num(1)) == [OP_1]
  {
  }

  method BuildRefundScriptSig(sig: Data, key: Data, inner: Data) returns (s: Data)
    ensures s == RefundScriptSig(sig, key, inner)
  {
    hide PushData; hide Assemble; hide Encode; hide PushNum;
    EncodeSmall();
    EncodeIs();
    assert Assemble([]) == [] by { AssembleNothing(); }
    s := PushData(sig);
    s := s + PushData(key);
    ghost var cs := Grow([], [], [Text(sig), Text(key)]);
    assert Assemble(cs) == s;
    s := s + [OP_1];
    s := s + PushData(inner);
    cs := Grow(cs, Assemble(cs), [Num(1), Text(inner)]);
    assert cs == [Text(sig), Text(key), Num(1), Text(inner)];
  }

  method BuildPaymentScriptSig(secret: Data, sig: Data, key: Data, inner: Data) returns (s: Data)
    ensures s == PaymentScriptSig(secret, sig, key, inner)
  {
    hide PushData; hide Assemble; hide Encode; hide PushNum;
    EncodeSmall();
    EncodeIs();
    assert Assemble([]) == [] by { AssembleNothing(); }
    s := PushData(secret);
    ghost var cs := Grow([], [], [Text(secret)]);
    assert Assemble(cs) == s;
    s := s + PushData(sig);
    s := s + PushData(key);
    cs := Grow(cs, Assemble(cs), [Text(sig), Text(key)]);
    assert Assemble(cs) == s;
    s := s + [OP_0];
    s := s + PushData(inner);
    cs := Grow(cs, Assemble(cs), [Num(0), Text(inner)]);
    assert cs == [Text(secret), Text(sig), Text(key), Num(0), Text(inner)];
  }

  /** A program of pushes leaves the pushed strings. */
  function Pushed(prog: seq<Instr>): seq<Data>
    requires forall i | 0 <= i < |prog| :: prog[i].Push?
  {
    if prog == [] then [] else [prog[0].data] + Pushed(prog[1..])
  }

  lemma {:induction false} ExecPushes(tx: Spend, prog: seq<Instr>, m: Machine)
    requires false !in m.conds
    requires forall i | 0 <= i < |prog| :: prog[i].Push? && |prog[i].data| <= MAX_ELEMENT
    ensures Exec(tx, prog, m) == Some(m.(stack := m.stack + Pushed(prog)))
  {
    if prog == [] {
      assert m.stack + [] == m.stack;
    } else {
      var m1 := PushTo(m, prog[0].data);
      ExecPushes(tx, prog[1..], m1);
      assert m1.stack + Pushed(prog[1..]) == m.stack + Pushed(prog);
    }
  }

  lemma TemplateParses(scriptHash: Data)
    requires |scriptHash| == 20
    ensures Parse(P2SHScript(scriptHash)) == Some([Op(OP_HASH160), Push(scriptHash), Op(OP_EQUAL)])
  {
    var cs := [Code(OP_HASH160), Text(scriptHash), Code(OP_EQUAL)];
    ParseAssembled(cs);
    hide Parse; hide Assemble;
    var prog := Meanings(cs);
    assert prog[0] == Meaning(cs[0]) && prog[1] == Meaning(cs[1]) && prog[2] == Meaning(cs[2]);
    assert prog == [Op(OP_HASH160), Push(scriptHash), Op(OP_EQUAL)];
  }

  /** The hash template accepts a stack exactly if its top hashes right. */
  lemma TemplateAccepts(tx: Spend, scriptHash: Data, stack: seq<Data>)
    requires |scriptHash| == 20 && |stack| >= 1
    ensures Accepts(tx, P2SHScript(scriptHash), stack) <==> tx.hash160(stack[|stack| - 1]) == scriptHash
  {
    TemplateParses(scriptHash);
    hide Exec; hide Parse; hide P2SHScript; hide CastToBool; hide Bool;
    var m := Machine(stack, []);
    HashCheck(tx, [Op(OP_HASH160), Push(scriptHash), Op(OP_EQUAL)], m, scriptHash);
    BoolIs(tx.hash160(Top(m, 0)) == scriptHash);
  }

  lemma {:induction false} AssembledLength(cs: seq<Chunk>, k: nat)
    requires forall i | 0 <= i < |cs| :: |Encode(cs[i])| <= k
    ensures |Assemble(cs)| <= k * |cs|
  {
    hide Encode;
    if cs != [] {
      AssembledLength(cs[1..], k);
      assert k * |cs| == k + k * (|cs| - 1);
    }
  }

  /** The redeem script fits a push. */
  lemma RedeemScriptFits(d: Terms)
    requires Proper(d)
    ensures |RedeemScript(d)| <= 22 * 21
  {
    var cs := DepositChunks(d);
    forall i | 0 <= i < |cs| ensures |Encode(cs[i])| <= 21 {
      if cs[i].Num? {
        NumLength(cs[i].n);
        assert cs[i].n == d.lockTime || cs[i].n == 33;
      }
    }
    AssembledLength(cs, 21);
  }

  lemma OnlyPushes(cs: seq<Chunk>)
    requires forall i | 0 <= i < |cs| :: !cs[i].Code? && Encodable(cs[i])
    requires forall i | 0 <= i < |cs| :: cs[i].Text? ==> |cs[i].b| <= MAX_ELEMENT
    ensures forall i | 0 <= i < |Meanings(cs)| :: Meanings(cs)[i].Push? && |Meanings(cs)[i].data| <= MAX_ELEMENT
  {
    hide EncodeNum;
    forall i | 0 <= i < |cs| ensures Meanings(cs)[i].Push? && |Meanings(cs)[i].data| <= MAX_ELEMENT {
      assert Meanings(cs)[i] == Meaning(cs[i]);
      if cs[i].Num? { NumLength(cs[i].n); }
    }
  }

  lemma PushesEval(tx: Spend, cs: seq<Chunk>)
    requires forall i | 0 <= i < |cs| :: !cs[i].Code? && Encodable(cs[i])
    requires forall i | 0 <= i < |cs| :: cs[i].Text? ==> |cs[i].b| <= MAX_ELEMENT
    ensures forall i | 0 <= i < |Meanings(cs)| :: Meanings(cs)[i].Push?
    ensures PushOnly(Assemble(cs)) && Eval(tx, Assemble(cs), []) == Some(Pushed(Meanings(cs)))
  {
    hide Parse; hide Exec; hide Assemble; hide Meanings; hide Encodable; hide Pushed;
    ParseAssembled(cs);
    OnlyPushes(cs);
    ExecPushes(tx, Meanings(cs), Machine([], []));
    assert [] + Pushed(Meanings(cs)) == Pushed(Meanings(cs));
  }

  /** A signature script of pushes, checked against the hash of its last push. */
  lemma PushesSpend(tx: Spend, cs: seq<Chunk>, args: seq<Data>, inner: Data)
    requires |cs| >= 1 && forall i | 0 <= i < |cs| :: !cs[i].Code? && Encodable(cs[i])
    requires forall i | 0 <= i < |cs| :: cs[i].Text? ==> |cs[i].b| <= MAX_ELEMENT
    requires forall i | 0 <= i < |Meanings(cs)| :: Meanings(cs)[i].Push?
    requires Pushed(Meanings(cs)) == args + [inner]
    requires |tx.hash160(inner)| == 20
    ensures SpendsP2SH(tx, Assemble(cs), P2SHScript(tx.hash160(inner))) <==> Accepts(tx, inner, args)
  {
    hide Accepts; hide P2SHScript; hide Eval; hide PushOnly; hide Assemble; hide Meanings; hide Pushed; hide Encodable;
    PushesEval(tx, cs);
    TemplateAccepts(tx, tx.hash160(inner), args + [inner]);
    assert (args + [inner])[..|args|] == args;
  }

  lemma FourPushed(a: Chunk, b: Chunk, c: Chunk, e: Chunk)
    requires !a.Code? && !b.Code? && !c.Code? && !e.Code?
    ensures var prog := Meanings([a, b, c, e]);
            (forall i | 0 <= i < 4 :: prog[i].Push?)
            && Pushed(prog) == [Meaning(a).data, Meaning(b).data, Meaning(c).data] + [Meaning(e).data]
  {
    hide EncodeNum;
    var cs := [a, b, c, e];
    var prog := Meanings(cs);
    assert prog[0] == Meaning(cs[0]) && prog[1] == Meaning(cs[1]) && prog[2] == Meaning(cs[2]) && prog[3] == Meaning(cs[3]);
    hide Meanings; hide Meaning;
    var p1, p2, p3 := prog[1..], prog[2..], prog[3..];
    assert p1[1..] == p2 && p2[1..] == p3 && p3[1..] == [];
    assert Pushed(p3) == [p3[0].data];
    assert Pushed(p2) == [p2[0].data] + Pushed(p3);
    assert Pushed(p1) == [p1[0].data] + Pushed(p2);
    assert Pushed(prog) == [prog[0].data] + Pushed(p1);
  }

  /** The refund spend (sequence one below final, the transaction's locktime the deposit's own)
      is valid exactly if the depositor's signature is. */
  lemma RefundSpends(tx: Spend, d: Terms, sig: Data, key: Data)
    requires Proper(d) && tx.hash160(key) == d.depositor && |tx.hash160(RedeemScript(d))| == 20
    requires tx.sequence == 0xfffffffe && tx.lockTime == d.lockTime
    requires |sig| <= MAX_ELEMENT && |key| <= MAX_ELEMENT
    ensures var inner := RedeemScript(d);
            SpendsP2SH(tx, RefundScriptSig(sig, key, inner), P2SHScript(tx.hash160(inner))) <==> tx.checkSig(sig, key)
  {
    hide Accepts; hide P2SHScript; hide SpendsP2SH; hide RedeemScript; hide Assemble; hide EncodeNum;
    var inner := RedeemScript(d);
    RedeemScriptFits(d);
    SmallNum(1);
    FourPushed(Text(sig), Text(key), Num(1), Text(inner));
    PushesSpend(tx, [Text(sig), Text(key), Num(1), Text(inner)], [sig, key, [1]], inner);
    TwoSpendPaths(tx, d, [sig, key, [1]]);
    assert CastToBool([1]) by { assert [1][0] != 0; }
  }

  lemma FivePushed(z: Data, a: Chunk, b: Chunk, c: Chunk, e: Chunk)
    requires !a.Code? && !b.Code? && !c.Code? && !e.Code?
    ensures var prog := Meanings([Text(z), a, b, c, e]);
            (forall i | 0 <= i < 5 :: prog[i].Push?)
            && Pushed(prog) == [z, Meaning(a).data, Meaning(b).data, Meaning(c).data] + [Meaning(e).data]
  {
    hide EncodeNum;
    FourPushed(a, b, c, e);
    var cs := [Text(z), a, b, c, e];
    assert cs[1..] == [a, b, c, e];
    var prog := Meanings(cs);
    assert prog == [Push(z)] + Meanings([a, b, c, e]);
    assert prog[1..] == Meanings([a, b, c, e]);
  }

  /** The claim spend (final sequence, no locktime) that reveals a 33-byte preimage is valid
      exactly if the counterparty's signature is. */
  lemma ClaimSpends(tx: Spend, d: Terms, secret: Data, sig: Data, key: Data)
    requires Proper(d) && tx.hash160(key) == d.counterparty && |tx.hash160(RedeemScript(d))| == 20
    requires |secret| == 33 && tx.hash160(secret) == d.secretHash
    requires tx.sequence == SEQUENCE_FINAL && tx.lockTime == 0
    requires |sig| <= MAX_ELEMENT && |key| <= MAX_ELEMENT
    ensures var inner := RedeemScript(d);
            SpendsP2SH(tx, PaymentScriptSig(secret, sig, key, inner), P2SHScript(tx.hash160(inner)))
            <==> tx.checkSig(sig, key)
  {
    hide Accepts; hide P2SHScript; hide SpendsP2SH; hide RedeemScript; hide Assemble; hide EncodeNum;
    var inner := RedeemScript(d);
    RedeemScriptFits(d);
    SmallNum(0);
    FivePushed(secret, Text(sig), Text(key), Num(0), Text(inner));
    PushesSpend(tx, [Text(secret), Text(sig), Text(key), Num(0), Text(inner)], [secret, sig, key, []], inner);
    TwoSpendPaths(tx, d, [secret, sig, key, []]);
  }

  /** Whatever signature script spends the output either reveals another script with the same
      hash, or leaves a stack that takes one of the two paths. */
  lemma EverySpendTakesAPath(tx: Spend, d: Terms, scriptSig: Data)
    requires Proper(d) && |tx.hash160(RedeemScript(d))| == 20
    requires SpendsP2SH(tx, scriptSig, P2SHScript(tx.hash160(RedeemScript(d))))
    ensures var st := Eval(tx, scriptSig, []).value;
            var n := |st|;
            && tx.hash160(st[n - 1]) == tx.hash160(RedeemScript(d))
            && (st[n - 1] == RedeemScript(d) ==> RefundPath(tx, d, st[..n - 1]) || ClaimPath(tx, d, st[..n - 1]))
  {
    hide Accepts; hide P2SHScript; hide RedeemScript; hide Parse; hide Exec; hide RefundPath; hide ClaimPath;
    var st := Eval(tx, scriptSig, []).value;
    TemplateAccepts(tx, tx.hash160(RedeemScript(d)), st);
    TwoSpendPaths(tx, d, st[..|st| - 1]);
  }
}
