/** Admission of coins, and what it guarantees about the locktimes of a swap. */
module LockTimes {
  import opened Wrappers

  const MIN_LOCKTIME_BLOCKS: int := 6
  const MAX_DRIFT_BLOCKS: int := 4
  const MAKER_TARGET: int := 7200
  const TAKER_TARGET: int := 1800
  const SLOW_TAKER_TARGET: int := 3600
  const SLOW_BLOCK_TIME: int := 600
  const DRIFT_SECONDS: int := 900
  const THRESHOLD: int := 500_000_000

  datatype CoinConf = CoinConf(ip: string, port: int, coin: nat, blockTime: int, confirmations: int, txMethod: string)

  datatype Refusal = Negative | NotConnected | MakerLockTime | TakerLockTime | TooManyConfirmations | Unsupported

  const SUPPORTED: set<string> := {"BTC", "SYS", "LTC", "DGB", "BCH", "BTG", "DEVAULT"}

  function Max(a: int, b: int): int {
    if a >= b then a else b
  }

  /** The gates in their order; None admits. */
  function Admit(c: CoinConf): Option<Refusal> {
    if c.blockTime < 0 || c.confirmations < 0 then Some(Negative)
    else if c.ip == "" || c.port == 0 || c.coin == 0 || c.blockTime == 0 then Some(NotConnected)
    else if c.blockTime * MIN_LOCKTIME_BLOCKS > MAKER_TARGET then Some(MakerLockTime)
    else if c.blockTime < SLOW_BLOCK_TIME && c.blockTime * MIN_LOCKTIME_BLOCKS > TAKER_TARGET then Some(TakerLockTime)
    else if c.blockTime >= SLOW_BLOCK_TIME && c.blockTime * MIN_LOCKTIME_BLOCKS > SLOW_TAKER_TARGET then Some(TakerLockTime)
    else if c.confirmations > Max(DRIFT_SECONDS / c.blockTime, MAX_DRIFT_BLOCKS) then Some(TooManyConfirmations)
    else if c.txMethod !in SUPPORTED then Some(Unsupported)
    else None
  }

  /** The configurations that pass, by ticker. */
  method Admitted(confs: map<string, CoinConf>) returns (out: map<string, CoinConf>)
    ensures forall t :: t in out <==> t in confs && Admit(confs[t]).None?
    ensures forall t | t in out :: out[t] == confs[t]
  {
    out := map[];
    var todo := confs.Keys;
    while todo != {}
      invariant todo <= confs.Keys
      invariant forall t :: t in out <==> t in confs && t !in todo && Admit(confs[t]).None?
      invariant forall t | t in out :: out[t] == confs[t]
      decreases |todo|
    {
      var t :| t in todo;
      if Admit(confs[t]).None? { out := out[t := confs[t]]; }
      todo := todo - {t};
    }
  }

  /** Blocks a deposit is locked for: the target, at least six blocks. */
  function LockBlocks(blockTime: int, maker: bool): int
    requires blockTime > 0
  {
    var target := if maker then MAKER_TARGET else if blockTime >= SLOW_BLOCK_TIME then SLOW_TAKER_TARGET else TAKER_TARGET;
    Max(target / blockTime, MIN_LOCKTIME_BLOCKS)
  }

  /** The locktime for a tip; zero when the wallet cannot say. */
  function ComputeLockTime(tip: Option<int>, blockTime: int, maker: bool): int
    requires blockTime > 0
  {
    if tip.None? || tip.value < 1 then 0 else tip.value + LockBlocks(blockTime, maker)
  }

  function AcceptableDrift(ours: int, theirs: int, blockTime: int): bool {
    if ours == 0 || ours >= THRESHOLD || theirs >= THRESHOLD then false
    else (ours - theirs) * blockTime <= Max(DRIFT_SECONDS, MAX_DRIFT_BLOCKS * blockTime)
  }

  // ---- What admission means ------------------------------------------------

  /** The gates leave block times of at most five minutes, or exactly ten. */
  lemma AdmittedBlockTimes(c: CoinConf)
    requires Admit(c).None?
    ensures 1 <= c.blockTime <= 300 || c.blockTime == 600
  {
  }

  lemma Quotient(n: int, d: int)
    requires d > 0
    ensures n - d < (n / d) * d <= n
  {
    assert n == d * (n / d) + n % d;
  }

  lemma Drift(ours: int, theirs: int, blockTime: int)
    requires AcceptableDrift(ours, theirs, blockTime) && blockTime > 0
    ensures ours - theirs <= Max(DRIFT_SECONDS / blockTime, MAX_DRIFT_BLOCKS)
  {
    Quotient(DRIFT_SECONDS, blockTime);
    var k := Max(DRIFT_SECONDS / blockTime, MAX_DRIFT_BLOCKS);
    Mul(k, DRIFT_SECONDS / blockTime, blockTime);
    Mul(k, MAX_DRIFT_BLOCKS, blockTime);
    assert (k + 1) * blockTime == k * blockTime + blockTime;
    if ours - theirs >= k + 1 { Mul(ours - theirs, k + 1, blockTime); }
  }

  lemma Mul(a: int, b: int, c: int)
    requires a >= b && c >= 0
    ensures a * c >= b * c
  {
    assert (a - b) * c >= 0;
  }

  /** An admitted coin's maker deposit that the taker accepts stays locked for at least 4800
      seconds of blocks, on the taker's own view of the chain. */
  lemma MakerDepositLeft(c: CoinConf, tip: int, theirs: int)
    requires Admit(c).None? && tip >= 1
    requires AcceptableDrift(ComputeLockTime(Some(tip), c.blockTime, true), theirs, c.blockTime)
    ensures (theirs - tip) * c.blockTime >= 4800
  {
    var bt := c.blockTime;
    AdmittedBlockTimes(c);
    var blocks := LockBlocks(bt, true);
    Quotient(MAKER_TARGET, bt);
    Mul(blocks, MAKER_TARGET / bt, bt);
    assert (theirs - tip) * bt == blocks * bt - (tip + blocks - theirs) * bt;
    if bt == 600 { assert MAKER_TARGET / 600 == 12; }
  }

  /** A taker's own deposit on any admitted coin is locked for at most 3600 seconds of blocks. */
  lemma TakerLockAtMost(c: CoinConf)
    requires Admit(c).None?
    ensures LockBlocks(c.blockTime, false) * c.blockTime <= 3600
  {
    var bt := c.blockTime;
    AdmittedBlockTimes(c);
    Quotient(TAKER_TARGET, bt);
    if bt == 600 { assert SLOW_TAKER_TARGET / 600 == 6; }
  }

  /** For every pair of admitted coins the maker's lock outlasts the taker's by at least 1200
      seconds when the taker accepts the maker's deposit. */
  lemma TakerIsSafe(makerCoin: CoinConf, takerCoin: CoinConf, makerTip: int, theirs: int)
    requires Admit(makerCoin).None? && Admit(takerCoin).None? && makerTip >= 1
    requires AcceptableDrift(ComputeLockTime(Some(makerTip), makerCoin.blockTime, true), theirs, makerCoin.blockTime)
    ensures (theirs - makerTip) * makerCoin.blockTime
            >= LockBlocks(takerCoin.blockTime, false) * takerCoin.blockTime + 1200
  {
    hide AcceptableDrift; hide LockBlocks; hide Admit;
    MakerDepositLeft(makerCoin, makerTip, theirs);
    TakerLockAtMost(takerCoin);
  }

  /** The bound is met with equality on ten-minute chains: it cannot be improved. */
  lemma MarginIsTight(c: CoinConf, tip: int)
    requires Admit(c).None? && c.blockTime == 600 && 1 <= tip < THRESHOLD - 12
    ensures AcceptableDrift(ComputeLockTime(Some(tip), 600, true), tip + 8, 600)
    ensures (tip + 8 - tip) * 600 == LockBlocks(600, false) * 600 + 1200
  {
    assert MAKER_TARGET / 600 == 12 && SLOW_TAKER_TARGET / 600 == 6;
  }

  /** A taker deposit the maker accepts is locked at least two blocks above the maker's tip. */
  lemma TakerDepositAhead(c: CoinConf, tip: int, theirs: int)
    requires Admit(c).None? && tip >= 1
    requires AcceptableDrift(ComputeLockTime(Some(tip), c.blockTime, false), theirs, c.blockTime)
    ensures theirs >= tip + 2
  {
    var bt := c.blockTime;
    AdmittedBlockTimes(c);
    Drift(ComputeLockTime(Some(tip), bt, false), theirs, bt);
    DoubleQuotient(bt);
  }

  /** Twice the drift fits the taker's target, up to a block. */
  lemma DoubleQuotient(bt: int)
    requires 1 <= bt <= 300 || bt == 600
    ensures LockBlocks(bt, false) - Max(DRIFT_SECONDS / bt, MAX_DRIFT_BLOCKS) >= 2
  {
    Quotient(TAKER_TARGET, bt);
    Quotient(DRIFT_SECONDS, bt);
    var a, b := TAKER_TARGET / bt, DRIFT_SECONDS / bt;
    if bt <= 300 && 2 * b > a { assert (2 * b - a) * bt >= bt by { Mul(2 * b - a, 1, bt); } }
  }

  /** An honest counterparty at most four blocks behind is always accepted. */
  lemma HonestIsAccepted(c: CoinConf, ourTip: int, theirTip: int, maker: bool)
    requires Admit(c).None? && ourTip >= 1 && ourTip - theirTip <= 4
    requires Max(ourTip, theirTip) + LockBlocks(c.blockTime, maker) < THRESHOLD
    ensures AcceptableDrift(ComputeLockTime(Some(ourTip), c.blockTime, maker),
                            theirTip + LockBlocks(c.blockTime, maker), c.blockTime)
  {
    hide LockBlocks;
    Mul(4, ourTip - theirTip, c.blockTime);
    BlocksPositive(c.blockTime, maker);
  }

  lemma BlocksPositive(bt: int, maker: bool)
    requires bt > 0
    ensures LockBlocks(bt, maker) >= 6
  {
  }
}
