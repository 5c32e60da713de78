/** Bitcoin Script as far as the swap's scripts use it: the specification the builders meet.

    Hashing and signature checking are parameters.  Pay-to-script-hash follows the
    "Specification" section of BIP 16, CHECKLOCKTIMEVERIFY the "Detailed Specification"
    of BIP 65. */
module Script {
  import opened Wrappers
  import opened Bytes

  const OP_0: Byte := 0x00
  const OP_PUSHDATA1: Byte := 0x4c
  const OP_PUSHDATA2: Byte := 0x4d
  const OP_PUSHDATA4: Byte := 0x4e
  const OP_1NEGATE: Byte := 0x4f
  const OP_1: Byte := 0x51
  const OP_16: Byte := 0x60
  const OP_IF: Byte := 0x63
  const OP_ELSE: Byte := 0x67
  const OP_ENDIF: Byte := 0x68
  const OP_DROP: Byte := 0x75
  const OP_DUP: Byte := 0x76
  const OP_SIZE: Byte := 0x82
  const OP_EQUAL: Byte := 0x87
  const OP_EQUALVERIFY: Byte := 0x88
  const OP_HASH160: Byte := 0xa9
  const OP_CHECKSIG: Byte := 0xac
  const OP_CHECKSIGVERIFY: Byte := 0xad
  const OP_CLTV: Byte := 0xb1

  const MAX_ELEMENT: nat := 520
  const LOCKTIME_THRESHOLD: nat := 500_000_000
  const SEQUENCE_FINAL: nat := 0xffffffff

  // ---- Script numbers ------------------------------------------------------

  /** The shortest signed little-endian form of n. */
  function EncodeNum(n: int): Data {
    if n == 0 then [] else
    var v := Digits(if n < 0 then -n else n, 256);
    var last := v[|v| - 1];
    if last >= 0x80 then v + [if n < 0 then 0x80 else 0x00]
    else if n < 0 then v[|v| - 1 := last + 0x80]
    else v
  }

  function DecodeNum(b: Data): int {
    if b == [] then 0 else
    var last := b[|b| - 1];
    var v := Value(b[|b| - 1 := last % 0x80], 256);
    if last >= 0x80 then -v else v
  }

  lemma DecodeEncodeNum(n: int)
    ensures DecodeNum(EncodeNum(n)) == n
  {
    hide Value; hide Digits;
    if n != 0 {
      var m := if n < 0 then -n else n;
      var v := Digits(m, 256);
      var b := EncodeNum(n);
      ValueOfDigits(m, 256);
      if v[|v| - 1] >= 0x80 {
        assert b[|b| - 1 := 0] == v + [0];
        TrailingZero(v, 256);
      } else {
        assert b[|b| - 1 := v[|v| - 1]] == v;
      }
    }
  }

  // ---- Parsing -------------------------------------------------------------

  datatype Instr = Push(data: Data) | Op(code: Byte)

  /** The instruction at the front and what follows it; None when its push is cut short. */
  function ParseOne(s: Data): Option<(Instr, Data)>
    requires s != []
  {
    var op := s[0];
    if OP_1 <= op <= OP_16 then Some((Push([op - OP_1 + 1]), s[1..]))
    else if op == OP_1NEGATE then Some((Push([0x81]), s[1..]))
    else if op > OP_PUSHDATA4 then Some((Op(op), s[1..]))
    else
      var width := if op < OP_PUSHDATA1 then 0 else if op == OP_PUSHDATA1 then 1 else if op == OP_PUSHDATA2 then 2 else 4;
      if |s| < 1 + width then None else
      var n := if width == 0 then op else Value(s[1..1 + width], 256);
      if n < 0 || |s| < 1 + width + n then None else
      Some((Push(s[1 + width..1 + width + n]), s[1 + width + n..]))
  }

  function Parse(s: Data): Option<seq<Instr>>
    decreases |s|
  {
    if s == [] then Some([]) else
    match ParseOne(s)
    case None => None
    case Some(p) =>
      if |p.1| >= |s| then None else
      match Parse(p.1)
      case None => None
      case Some(rest) => Some([p.0] + rest)
  }

  // ---- Execution -----------------------------------------------------------

  /** The spending transaction as a script sees it. */
  datatype Spend = Spend(
    hash160: Data -> Data,
    checkSig: (Data, Data) -> bool,   // signature, public key
    lockTime: nat,
    sequence: nat)

  datatype Machine = Machine(stack: seq<Data>, conds: seq<bool>)

  predicate CastToBool(b: Data) {
    exists i | 0 <= i < |b| :: b[i] != 0 && !(i == |b| - 1 && b[i] == 0x80)
  }

  function Bool(b: bool): Data {
    if b then [1] else []
  }

  predicate LockTimeMet(tx: Spend, n: int) {
    && 0 <= n
    && (n < LOCKTIME_THRESHOLD <==> tx.lockTime < LOCKTIME_THRESHOLD)
    && n <= tx.lockTime
    && tx.sequence != SEQUENCE_FINAL
  }

  function Top(m: Machine, k: nat): Data
    requires k < |m.stack|
  {
    m.stack[|m.stack| - 1 - k]
  }

  function Pop(m: Machine, k: nat): Machine
    requires k <= |m.stack|
  {
    m.(stack := m.stack[..|m.stack| - k])
  }

  function PushTo(m: Machine, b: Data): Machine {
    m.(stack := m.stack + [b])
  }

  /** One operation on the stack, outside any skipped branch. */
  function Operate(tx: Spend, code: Byte, m: Machine): Option<Machine> {
    if code == OP_DROP then
      if |m.stack| < 1 then None else Some(Pop(m, 1))
    else if code == OP_DUP then
      if |m.stack| < 1 then None else Some(PushTo(m, Top(m, 0)))
    else if code == OP_SIZE then
      if |m.stack| < 1 then None else Some(PushTo(m, EncodeNum(|Top(m, 0)|)))
    else if code == OP_HASH160 then
      if |m.stack| < 1 then None else Some(PushTo(Pop(m, 1), tx.hash160(Top(m, 0))))
    else if code == OP_EQUAL then
      if |m.stack| < 2 then None else Some(PushTo(Pop(m, 2), Bool(Top(m, 0) == Top(m, 1))))
    else if code == OP_EQUALVERIFY then
      if |m.stack| < 2 || Top(m, 0) != Top(m, 1) then None else Some(Pop(m, 2))
    else if code == OP_CHECKSIG then
      if |m.stack| < 2 then None else Some(PushTo(Pop(m, 2), Bool(tx.checkSig(Top(m, 1), Top(m, 0)))))
    else if code == OP_CHECKSIGVERIFY then
      if |m.stack| < 2 || !tx.checkSig(Top(m, 1), Top(m, 0)) then None else Some(Pop(m, 2))
    else if code == OP_CLTV then
      if |m.stack| < 1 || |Top(m, 0)| > 5 || !LockTimeMet(tx, DecodeNum(Top(m, 0))) then None else Some(m)
    else None
  }

  function Step(tx: Spend, i: Instr, m: Machine): Option<Machine> {
    var live := false !in m.conds;
    match i
    case Push(b) => if |b| > MAX_ELEMENT then None else if live then Some(PushTo(m, b)) else Some(m)
    case Op(code) =>
      if code == OP_IF then
        if !live then Some(m.(conds := m.conds + [false]))
        else if |m.stack| < 1 then None
        else Some(Pop(m, 1).(conds := m.conds + [CastToBool(Top(m, 0))]))
      else if code == OP_ELSE then
        if m.conds == [] then None
        else Some(m.(conds := m.conds[..|m.conds| - 1] + [!m.conds[|m.conds| - 1]]))
      else if code == OP_ENDIF then
        if m.conds == [] then None else Some(m.(conds := m.conds[..|m.conds| - 1]))
      else if live then Operate(tx, code, m)
      else Some(m)
  }

  function Exec(tx: Spend, prog: seq<Instr>, m: Machine): Option<Machine> {
    if prog == [] then Some(m) else
    match Step(tx, prog[0], m)
    case None => None
    case Some(m1) => Exec(tx, prog[1..], m1)
  }

  /** The stack a script leaves, when it runs to its end. */
  function Eval(tx: Spend, script: Data, stack: seq<Data>): Option<seq<Data>> {
    match Parse(script)
    case None => None
    case Some(prog) =>
      match Exec(tx, prog, Machine(stack, []))
      case None => None
      case Some(m) => if m.conds == [] then Some(m.stack) else None
  }

  predicate Accepts(tx: Spend, script: Data, stack: seq<Data>) {
    var r := Eval(tx, script, stack);
    r.Some? && |r.value| > 0 && CastToBool(r.value[|r.value| - 1])
  }

  predicate PushOnly(script: Data) {
    var p := Parse(script);
    p.Some? && forall i | 0 <= i < |p.value| :: p.value[i].Push?
  }

  /** Spending a pay-to-script-hash output: the template is checked, then the redeem script runs
      on what the signature script left below it. */
  predicate SpendsP2SH(tx: Spend, scriptSig: Data, scriptPubKey: Data) {
    var r := Eval(tx, scriptSig, []);
    && PushOnly(scriptSig) && r.Some? && |r.value| > 0
    && Accepts(tx, scriptPubKey, r.value)
    && Accepts(tx, r.value[|r.value| - 1], r.value[..|r.value| - 1])
  }

  // ---- Laws of the interpreter ---------------------------------------------

  lemma {:induction false} ExecAppend(tx: Spend, a: seq<Instr>, b: seq<Instr>, m: Machine)
    ensures Exec(tx, a + b, m)
            == (match Exec(tx, a, m) case None => None case Some(m1) => Exec(tx, b, m1))
  {
    if a == [] {
      assert a + b == b;
    } else {
      assert (a + b)[1..] == a[1..] + b;
      match Step(tx, a[0], m) {
        case None =>
        case Some(m1) => ExecAppend(tx, a[1..], b, m1);
      }
    }
  }

  /** Nothing in the program opens, flips or closes a conditional, or is too long to push. */
  predicate Harmless(prog: seq<Instr>) {
    forall i | 0 <= i < |prog| ::
      if prog[i].Push? then |prog[i].data| <= MAX_ELEMENT else prog[i].code !in {OP_IF, OP_ELSE, OP_ENDIF}
  }

  /** A branch that is not taken, with no conditional inside, does nothing. */
  lemma {:induction false} ExecSkips(tx: Spend, prog: seq<Instr>, m: Machine)
    requires false in m.conds && Harmless(prog)
    ensures Exec(tx, prog, m) == Some(m)
  {
    if prog != [] { ExecSkips(tx, prog[1..], m); }
  }
}
