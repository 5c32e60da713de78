/** The three transactions of a swap side: the deposit, its pre-signed refund, the claim.

    Amounts are 64-bit and wrap.  Hashing, signing and signature checking are parameters;
    a funding txid or an outpoint hash is None when its text does not decode. */
module SwapTx {
  import opened Wrappers
  import opened Bytes
  import Script
  import Htlc
  import T = Transaction
  import SecretScan

  const U64 := T.TWO64

  datatype DepositSpec = DepositSpec(
    amount: nat,
    depositorPub: Data,
    counterpartyPub: Data,
    secretHash: Data,
    lockTime: nat,
    txVersion: int)

  datatype Funding = Funding(hash: Option<Data>, vout: nat, amount: nat)

  /** fee is the deposit's own, redeemFee is locked in for whoever redeems it. */
  datatype Costs = Costs(fee: nat, redeemFee: nat, dustLimit: nat)

  function TermsOf(hash160: Data -> Data, d: DepositSpec): Htlc.Terms {
    Htlc.Terms(hash160(d.depositorPub), hash160(d.counterpartyPub), d.secretHash, d.lockTime)
  }

  function RedeemScript(hash160: Data -> Data, d: DepositSpec): Data {
    Htlc.RedeemScript(TermsOf(hash160, d))
  }

  function P2SHScript(hash160: Data -> Data, d: DepositSpec): Data {
    Htlc.P2SHScript(hash160(RedeemScript(hash160, d)))
  }

  function P2PKHScript(addr: Data): Data {
    [Script.OP_DUP, Script.OP_HASH160, 20] + addr + [Script.OP_EQUALVERIFY, Script.OP_CHECKSIG]
  }

  // ---- The deposit ---------------------------------------------------------

  function Total(funding: seq<Funding>): nat {
    if funding == [] then 0 else Total(funding[..|funding| - 1]) + funding[|funding| - 1].amount
  }

  function OutTotal(outs: seq<T.TxOut>): nat {
    if outs == [] then 0 else OutTotal(outs[..|outs| - 1]) + outs[|outs| - 1].value
  }

  function Need(d: DepositSpec, c: Costs): nat {
    d.amount + c.fee + c.redeemFee
  }

  function Change(d: DepositSpec, funding: seq<Funding>, c: Costs): nat {
    (Total(funding) - Need(d, c)) % U64
  }

  predicate KeepsChange(change: nat, dustLimit: nat) {
    change > 0 && (dustLimit == 0 || change >= dustLimit)
  }

  function SpendingAll(funding: seq<Funding>): (ins: seq<T.TxIn>)
    requires forall i | 0 <= i < |funding| :: funding[i].hash.Some?
    ensures |ins| == |funding|
    ensures forall i | 0 <= i < |ins| ::
              ins[i] == T.TxIn(funding[i].hash.value, funding[i].vout, [], Script.SEQUENCE_FINAL, [], 0)
  {
    seq(|funding|, i requires 0 <= i < |funding| =>
      T.TxIn(funding[i].hash.value, funding[i].vout, [], Script.SEQUENCE_FINAL, [], 0))
  }

  datatype BuildError = NoFunding | Insufficient | BadTxid | NoDeposit | FeeTooHigh

  /** An unset version is 1; the wire carries the low 32 bits, signed. */
  function VersionOf(v: int): int {
    T.Signed((if v <= 0 then 1 else v) % T.TWO32)
  }

  function DepositTx(hash160: Data -> Data, d: DepositSpec, nTime: Option<nat>, funding: seq<Funding>, changeAddr: Data,
                     c: Costs): Result<T.Tx, BuildError> {
    if funding == [] then Err(NoFunding)
    else if Total(funding) % U64 < Need(d, c) % U64 then Err(Insufficient)
    else if exists i | 0 <= i < |funding| :: funding[i].hash.None? then Err(BadTxid)
    else
      var change := Change(d, funding, c);
      var htlc := T.TxOut((d.amount + c.redeemFee) % U64, P2SHScript(hash160, d));
      var outs := if KeepsChange(change, c.dustLimit) then [htlc, T.TxOut(change, P2PKHScript(changeAddr))] else [htlc];
      Ok(T.Tx(VersionOf(d.txVersion), 0, SpendingAll(funding), outs, false, nTime.Some?,
              if nTime.Some? then nTime.value else 0))
  }

  lemma WrapStep(total: nat, sum: nat, amount: nat)
    requires total == sum % U64
    ensures (total + amount) % U64 == (sum + amount) % U64
  {
  }

  method SumFunding(funding: seq<Funding>) returns (total: nat)
    ensures total == Total(funding) % U64
  {
    total := 0;
    for i := 0 to |funding|
      invariant total == Total(funding[..i]) % U64
    {
      assert funding[..i + 1][..i] == funding[..i];
      WrapStep(total, Total(funding[..i]), funding[i].amount);
      total := (total + funding[i].amount) % U64;
    }
    assert funding[..|funding|] == funding;
  }

  method BuildDepositTx(hash160: Data -> Data, d: DepositSpec, nTime: Option<nat>, funding: seq<Funding>,
                        changeAddr: Data, c: Costs) returns (r: Result<T.Tx, BuildError>)
    ensures r == DepositTx(hash160, d, nTime, funding, changeAddr, c)
  {
    hide P2SHScript;
    if |funding| == 0 { return Err(NoFunding); }
    var total := SumFunding(funding);
    if total < (d.amount + c.fee + c.redeemFee) % U64 { return Err(Insufficient); }
    var ver := d.txVersion;
    if ver <= 0 { ver := 1; }
    var tx := T.Tx(T.Signed(ver % T.TWO32), 0, [], [], false, false, 0);
    if nTime.Some? { tx := tx.(withTime := true, txTime := nTime.value); }
    var inputs := SpendInputs(funding);
    if inputs.None? { return Err(BadTxid); }
    var htlc := T.TxOut((d.amount + c.redeemFee) % U64, P2SHScript(hash160, d));
    tx := tx.(inputs := inputs.value, outputs := [htlc]);
    var change := (total - d.amount - c.fee - c.redeemFee) % U64;
    ChangeWraps(total, Total(funding), Need(d, c));
    if change > 0 && (c.dustLimit == 0 || change >= c.dustLimit) {
      tx := tx.(outputs := [htlc, T.TxOut(change, P2PKHScript(changeAddr))]);
    }
    return Ok(tx);
  }

  method SpendInputs(funding: seq<Funding>) returns (r: Option<seq<T.TxIn>>)
    ensures r.None? <==> exists i | 0 <= i < |funding| :: funding[i].hash.None?
    ensures r.Some? ==> r.value == SpendingAll(funding)
  {
    var inputs := [];
    for i := 0 to |funding|
      invariant forall k | 0 <= k < i :: funding[k].hash.Some?
      invariant inputs == SpendingAll(funding[..i])
    {
      if funding[i].hash.None? { return None; }
      inputs := inputs + [T.TxIn(funding[i].hash.value, funding[i].vout, [], Script.SEQUENCE_FINAL, [], 0)];
    }
    assert funding[..|funding|] == funding;
    return Some(inputs);
  }

  lemma ChangeWraps(total: nat, sum: nat, need: nat)
    requires total == sum % U64
    ensures (total - need) % U64 == (sum - need) % U64
  {
  }

  /** What the transaction gives the miner on top of its fee: change too small to keep. */
  function Dropped(d: DepositSpec, funding: seq<Funding>, c: Costs): (v: nat)
    ensures v == 0 || v < c.dustLimit
  {
    var change := Change(d, funding, c);
    if KeepsChange(change, c.dustLimit) then 0 else change
  }

  lemma OutTotals(a: T.TxOut, b: T.TxOut)
    ensures OutTotal([a]) == a.value && OutTotal([a, b]) == a.value + b.value
  {
    assert [a, b][..1] == [a] && [a][..0] == [];
    assert OutTotal([a]) == OutTotal([]) + a.value;
  }

  /** The locked output carries the amount and the redeem fee, and no value is lost, exactly
      when the 64-bit sums do not wrap. */
  lemma DepositKeepsValue(hash160: Data -> Data, d: DepositSpec, nTime: Option<nat>, funding: seq<Funding>,
                          changeAddr: Data, c: Costs)
    requires DepositTx(hash160, d, nTime, funding, changeAddr, c).Ok?
    ensures var tx := DepositTx(hash160, d, nTime, funding, changeAddr, c).value;
            && 1 <= |tx.outputs| <= 2
            && (tx.outputs[0].value == d.amount + c.redeemFee
                && Total(funding) == OutTotal(tx.outputs) + c.fee + Dropped(d, funding, c)
                <==> d.amount + c.redeemFee < U64 && 0 <= Total(funding) - Need(d, c) < U64)
  {
    hide P2SHScript; hide Total; hide OutTotal;
    var tx := DepositTx(hash160, d, nTime, funding, changeAddr, c).value;
    var spare := Total(funding) - Need(d, c);
    OutTotals(tx.outputs[0], if |tx.outputs| == 2 then tx.outputs[1] else tx.outputs[0]);
    assert tx.outputs[0].value == d.amount + c.redeemFee <==> d.amount + c.redeemFee < U64;
    assert Change(d, funding, c) == spare <==> 0 <= spare < U64;
    if |tx.outputs| == 2 {
      assert tx.outputs == [tx.outputs[0], tx.outputs[1]];
    } else {
      assert tx.outputs == [tx.outputs[0]];
    }
  }

  /** The deposit spends the funding outputs, all of them in order and no other, each final. */
  lemma DepositSpendsFunding(hash160: Data -> Data, d: DepositSpec, nTime: Option<nat>, funding: seq<Funding>,
                             changeAddr: Data, c: Costs)
    ensures var r := DepositTx(hash160, d, nTime, funding, changeAddr, c);
            r.Ok? <==> funding != [] && Total(funding) % U64 >= Need(d, c) % U64
                       && forall i | 0 <= i < |funding| :: funding[i].hash.Some?
    ensures var r := DepositTx(hash160, d, nTime, funding, changeAddr, c);
            r.Ok? ==> |r.value.inputs| == |funding| && r.value.lockTime == 0
                      && forall i | 0 <= i < |funding| ::
                           Some(r.value.inputs[i].hash) == funding[i].hash && r.value.inputs[i].index == funding[i].vout
                           && r.value.inputs[i].sequence == Script.SEQUENCE_FINAL
  {
    hide P2SHScript; hide Total;
  }

  // ---- Signed and mined ----------------------------------------------------

  /** The wallet's signing fills in scripts and witnesses and changes nothing else. */
  predicate Signs(tx: T.Tx, signed: T.Tx) {
    && |signed.inputs| == |tx.inputs|
    && signed == tx.(inputs := signed.inputs, segWit := signed.segWit)
    && forall i | 0 <= i < |tx.inputs| ::
         signed.inputs[i].hash == tx.inputs[i].hash && signed.inputs[i].index == tx.inputs[i].index
  }

  /** The txid is read off the bytes as they are, in display order. */
  function TxIDFromBytes(hash256: Data -> Data, raw: Data): Data {
    Reversed(hash256(raw))
  }

  /** What an outpoint names on the network: the hash without witnesses. */
  function NetworkHash(hash256: Data -> Data, tx: T.Tx): Data {
    hash256(T.Serialized(tx.(segWit := false)))
  }

  lemma {:induction false} ReversedTwice(s: Data)
    ensures Reversed(Reversed(s)) == s
  {
    forall i | 0 <= i < |s| ensures Reversed(Reversed(s))[i] == s[i] {
      assert Reversed(s)[|s| - 1 - i] == s[i];
    }
  }

  predicate SpendsOutput(tx: T.Tx, hash: Data, index: nat) {
    exists i :: 0 <= i < |tx.inputs| && tx.inputs[i].hash == hash && tx.inputs[i].index == index
  }

  /** No output is spent by two transactions of the chain. */
  ghost predicate NoDoubleSpend(chain: seq<T.Tx>) {
    forall i, j, hash, index | 0 <= i < |chain| && 0 <= j < |chain| ::
      SpendsOutput(chain[i], hash, index) && SpendsOutput(chain[j], hash, index) ==> i == j
  }

  /** Deposits built from the same recorded funding, whatever else has changed between the builds,
      spend the same outputs: the chain takes at most one of them. */
  lemma OneDepositIsMined(hash160: Data -> Data, funding: seq<Funding>,
                          d: DepositSpec, nTime: Option<nat>, changeAddr: Data, c: Costs,
                          d': DepositSpec, nTime': Option<nat>, changeAddr': Data, c': Costs,
                          chain: seq<T.Tx>, i: nat, j: nat)
    requires DepositTx(hash160, d, nTime, funding, changeAddr, c).Ok?
    requires DepositTx(hash160, d', nTime', funding, changeAddr', c').Ok?
    requires NoDoubleSpend(chain) && i < |chain| && j < |chain|
    requires Signs(DepositTx(hash160, d, nTime, funding, changeAddr, c).value, chain[i])
    requires Signs(DepositTx(hash160, d', nTime', funding, changeAddr', c').value, chain[j])
    ensures i == j
  {
    hide P2SHScript; hide P2PKHScript; hide Total;
    var hash, index := funding[0].hash.value, funding[0].vout;
    assert chain[i].inputs[0].hash == hash && chain[i].inputs[0].index == index;
    assert chain[j].inputs[0].hash == hash && chain[j].inputs[0].index == index;
    assert SpendsOutput(chain[i], hash, index) && SpendsOutput(chain[j], hash, index);
  }

  // ---- Spending it ---------------------------------------------------------

  /** A transaction with one input and one output, before and after it is signed. */
  function OneToOne(version: int, lockTime: nat, nTime: Option<nat>, hash: Data, vout: nat, scriptSig: Data, sequence: nat,
                    value: nat, dest: Data): T.Tx {
    T.Tx(version, lockTime, [T.TxIn(hash, vout, scriptSig, sequence, [], 0)], [T.TxOut(value, dest)], false, nTime.Some?,
         if nTime.Some? then nTime.value else 0)
  }

  const REFUND_SEQUENCE: nat := 0xfffffffe

  /** The refund pays the nominal amount: what the deposit holds above it is the fee. */
  method BuildRefundTx(hash160: Data -> Data, d: DepositSpec, nTime: Option<nat>, locked: nat, deposit: Option<Data>,
                       dest: Data, sign: T.Tx -> Data) returns (r: Result<T.Tx, BuildError>)
    ensures locked == 0 ==> r == Err(NoDeposit)
    ensures locked != 0 && deposit.None? ==> r == Err(BadTxid)
    ensures locked != 0 && deposit.Some? ==> r == Ok(RefundTx(hash160, d, nTime, deposit.value, dest, sign))
  {
    if locked == 0 { return Err(NoDeposit); }
    if deposit.None? { return Err(BadTxid); }
    var tx := OneToOne(VersionOf(d.txVersion), d.lockTime, nTime, deposit.value, 0, [], REFUND_SEQUENCE, d.amount, dest);
    var sig := sign(tx);
    var inner := RedeemScript(hash160, d);
    var scriptSig := Htlc.BuildRefundScriptSig(sig, d.depositorPub, inner);
    return Ok(tx.(inputs := [tx.inputs[0].(scriptSig := scriptSig)]));
  }

  function RefundUnsigned(d: DepositSpec, nTime: Option<nat>, deposit: Data, dest: Data): T.Tx {
    OneToOne(VersionOf(d.txVersion), d.lockTime, nTime, deposit, 0, [], REFUND_SEQUENCE, d.amount, dest)
  }

  function RefundTx(hash160: Data -> Data, d: DepositSpec, nTime: Option<nat>, deposit: Data, dest: Data,
                    sign: T.Tx -> Data): T.Tx {
    var tx := RefundUnsigned(d, nTime, deposit, dest);
    var scriptSig := Htlc.RefundScriptSig(sign(tx), d.depositorPub, RedeemScript(hash160, d));
    tx.(inputs := [tx.inputs[0].(scriptSig := scriptSig)])
  }

  /** A transaction as the script of its first input sees it. */
  function SpendView(hash160: Data -> Data, checkSig: (Data, Data) -> bool, tx: T.Tx): Script.Spend
    requires tx.inputs != []
  {
    Script.Spend(hash160, checkSig, tx.lockTime, tx.inputs[0].sequence)
  }

  /** The terms are a script's: 20-byte hashes, a block-height locktime, keys short enough to push. */
  predicate Sound(hash160: Data -> Data, d: DepositSpec) {
    && Htlc.Proper(TermsOf(hash160, d)) && |hash160(RedeemScript(hash160, d))| == 20
    && |d.depositorPub| == 33 && |d.counterpartyPub| == 33
  }

  /** The refund built from the signed bytes of the deposit pays the order's amount out of output 0
      and leaves the redeem fee to the miner; its script is valid exactly if its signature is.  It
      names the deposit the network knows exactly if the bytes hash as they do without witnesses, as
      those of a deposit from P2PKH coins do. */
  lemma RefundRecoversDeposit(hash160: Data -> Data, hash256: Data -> Data, checkSig: (Data, Data) -> bool, d: DepositSpec,
                              nTime: Option<nat>, funding: seq<Funding>, changeAddr: Data, c: Costs, signed: T.Tx,
                              dest: Data, sign: T.Tx -> Data)
    requires Sound(hash160, d) && DepositTx(hash160, d, nTime, funding, changeAddr, c).Ok?
    requires Signs(DepositTx(hash160, d, nTime, funding, changeAddr, c).value, signed)
    requires var hash := Reversed(TxIDFromBytes(hash256, T.Serialized(signed)));
             |sign(RefundUnsigned(d, nTime, hash, dest))| <= Script.MAX_ELEMENT
    ensures var hash := Reversed(TxIDFromBytes(hash256, T.Serialized(signed)));
            var refund := RefundTx(hash160, d, nTime, hash, dest, sign);
            var view := SpendView(hash160, checkSig, refund);
            && (SpendsOutput(refund, NetworkHash(hash256, signed), 0)
                <==> hash256(T.Serialized(signed)) == hash256(T.Serialized(signed.(segWit := false))))
            && (!signed.segWit ==> SpendsOutput(refund, NetworkHash(hash256, signed), 0))
            && (Script.SpendsP2SH(view, refund.inputs[0].scriptSig, signed.outputs[0].scriptPubKey)
                <==> checkSig(sign(RefundUnsigned(d, nTime, hash, dest)), d.depositorPub))
            && (signed.outputs[0].value == OutTotal(refund.outputs) + c.redeemFee <==> d.amount + c.redeemFee < U64)
  {
    hide Script.SpendsP2SH; hide Htlc.RedeemScript; hide Htlc.P2SHScript; hide Htlc.RefundScriptSig; hide Total;
    hide T.Serialized; hide Reversed; hide P2PKHScript;
    ReversedTwice(hash256(T.Serialized(signed)));
    var hash := Reversed(TxIDFromBytes(hash256, T.Serialized(signed)));
    assert hash == hash256(T.Serialized(signed));
    var refund := RefundTx(hash160, d, nTime, hash, dest, sign);
    assert refund.inputs[0].hash == hash && refund.inputs[0].index == 0;
    assert !signed.segWit ==> signed.(segWit := false) == signed;
    var view := SpendView(hash160, checkSig, refund);
    OutTotals(refund.outputs[0], refund.outputs[0]);
    assert refund.outputs == [refund.outputs[0]];
    Htlc.RefundSpends(view, TermsOf(hash160, d), sign(RefundUnsigned(d, nTime, hash, dest)), d.depositorPub);
  }

  // ---- The claim -----------------------------------------------------------

  /** The nominal amount, or everything above the fee when the deposit holds strictly more than both. */
  function Payout(amount: nat, locked: nat, fee: nat): nat {
    if locked > (amount + fee) % U64 then (locked - fee) % U64 else amount
  }

  function ClaimUnsigned(d: DepositSpec, nTime: Option<nat>, deposit: Data, vout: nat, locked: nat, fee: nat, dest: Data): T.Tx {
    OneToOne(VersionOf(d.txVersion), 0, nTime, deposit, vout, [], Script.SEQUENCE_FINAL,
             Payout(d.amount, locked, fee), dest)
  }

  function ClaimTx(hash160: Data -> Data, d: DepositSpec, nTime: Option<nat>, deposit: Data, vout: nat, locked: nat, fee: nat,
                   dest: Data, secret: Data, sign: T.Tx -> Data): T.Tx {
    var tx := ClaimUnsigned(d, nTime, deposit, vout, locked, fee, dest);
    var scriptSig := Htlc.PaymentScriptSig(secret, sign(tx), d.counterpartyPub, RedeemScript(hash160, d));
    tx.(inputs := [tx.inputs[0].(scriptSig := scriptSig)])
  }

  /** From the point where the deposit is known to be unspent. */
  method RedeemCounterparty(hash160: Data -> Data, d: DepositSpec, nTime: Option<nat>, deposit: Option<Data>, vout: nat,
                            locked: nat, fee: nat, dest: Data, secret: Data, sign: T.Tx -> Data)
    returns (r: Result<T.Tx, BuildError>)
    ensures locked == 0 ==> r == Err(NoDeposit)
    ensures locked != 0 && fee >= locked ==> r == Err(FeeTooHigh)
    ensures locked != 0 && fee < locked && deposit.None? ==> r == Err(BadTxid)
    ensures locked != 0 && fee < locked && deposit.Some?
            ==> r == Ok(ClaimTx(hash160, d, nTime, deposit.value, vout, locked, fee, dest, secret, sign))
  {
    if locked == 0 { return Err(NoDeposit); }
    if fee >= locked { return Err(FeeTooHigh); }
    if deposit.None? { return Err(BadTxid); }
    var payout := d.amount;
    if locked > (d.amount + fee) % U64 { payout := (locked - fee) % U64; }
    var tx := OneToOne(VersionOf(d.txVersion), 0, nTime, deposit.value, vout, [], Script.SEQUENCE_FINAL, payout, dest);
    var sig := sign(tx);
    var inner := RedeemScript(hash160, d);
    var scriptSig := Htlc.BuildPaymentScriptSig(secret, sig, d.counterpartyPub, inner);
    return Ok(tx.(inputs := [tx.inputs[0].(scriptSig := scriptSig)]));
  }

  /** The claim never pays less than the order, and spends no more than the deposit holds
      exactly when the deposit holds the order's amount. */
  lemma ClaimPaysTheOrder(amount: nat, locked: nat, fee: nat)
    requires amount + fee < U64 && fee < locked < U64
    ensures Payout(amount, locked, fee) >= amount
    ensures Payout(amount, locked, fee) <= locked <==> amount <= locked
    ensures Payout(amount, locked, fee) > amount ==> Payout(amount, locked, fee) + fee == locked
  {
  }

  /** The claim of a deposit built to the same terms is valid exactly if its signature is,
      and its bytes give the secret to whoever reads them. */
  lemma ClaimTakesDeposit(hash160: Data -> Data, checkSig: (Data, Data) -> bool, d: DepositSpec, nTime: Option<nat>,
                          depTxID: Data, vout: nat, locked: nat, fee: nat, dest: Data, secret: Data, sign: T.Tx -> Data)
    requires Sound(hash160, d) && |secret| == 33 && hash160(secret) == d.secretHash
    requires |sign(ClaimUnsigned(d, nTime, Reversed(depTxID), vout, locked, fee, dest))| <= Script.MAX_ELEMENT
    requires |depTxID| == 32
    requires vout < T.TWO32 && locked < U64 && d.amount < U64 && |dest| < T.TWO63
    requires nTime.Some? ==> nTime.value < T.TWO32
    ensures var hash := Reversed(depTxID);
            var claim := ClaimTx(hash160, d, nTime, hash, vout, locked, fee, dest, secret, sign);
            && (Script.SpendsP2SH(SpendView(hash160, checkSig, claim), claim.inputs[0].scriptSig, P2SHScript(hash160, d))
                <==> checkSig(sign(ClaimUnsigned(d, nTime, hash, vout, locked, fee, dest)), d.counterpartyPub))
            && SecretScan.SecretIn(hash160, d.secretHash, T.Serialized(claim), claim.withTime, depTxID, vout) == Some(secret)
  {
    hide Script.SpendsP2SH; hide Htlc.RedeemScript; hide Htlc.P2SHScript; hide Htlc.PaymentScriptSig; hide T.Serialized;
    hide SecretScan.SecretIn;
    var hash := Reversed(depTxID);
    var sig := sign(ClaimUnsigned(d, nTime, hash, vout, locked, fee, dest));
    var claim := ClaimTx(hash160, d, nTime, hash, vout, locked, fee, dest, secret, sign);
    var inner := RedeemScript(hash160, d);
    Htlc.ClaimSpends(SpendView(hash160, checkSig, claim), TermsOf(hash160, d), secret, sig, d.counterpartyPub);
    Htlc.RedeemScriptFits(TermsOf(hash160, d));
    PaymentIsShort(secret, sig, d.counterpartyPub, inner);
    SecretScan.ClaimYieldsSecret(hash160, claim, depTxID, secret, sig, d.counterpartyPub, inner);
  }

  lemma PaymentIsShort(secret: Data, sig: Data, key: Data, inner: Data)
    requires |secret| == 33 && |sig| <= Script.MAX_ELEMENT && |key| == 33 && |inner| <= Script.MAX_ELEMENT
    ensures |Htlc.PaymentScriptSig(secret, sig, key, inner)| < T.TWO63
  {
    hide Htlc.Encode; hide Htlc.Assemble; hide Htlc.PushData; hide Htlc.PushNum;
    PushLength(secret);
    PushLength(sig);
    PushLength(key);
    PushLength(inner);
    ZeroLength();
    Htlc.AssembledLength([Htlc.Text(secret), Htlc.Text(sig), Htlc.Text(key), Htlc.Num(0), Htlc.Text(inner)], 525);
  }

  lemma ZeroLength()
    ensures |Htlc.Encode(Htlc.Num(0))| <= 525
  {
  }

  lemma PushLength(b: Data)
    requires |b| <= Script.MAX_ELEMENT
    ensures |Htlc.Encode(Htlc.Text(b))| <= 525
  {
    hide LeBytes;
  }
}
