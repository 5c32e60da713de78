/** Hunting a confirmed spender page by page: over any sequence of rounds the pages add up to one
    linear scan.

    The chain does not reorganise: a height always holds the same block. */
module Rescan {
  import opened Wrappers
  import opened Bytes
  import HexText
  import SecretScan

  const PAGE_BUDGET: nat := 3
  const PAGE_BUDGET_CAP: nat := 12
  const WINDOW_BLOCKS: nat := 144

  /** Double the chain's growth per minute on fast chains, within the cap. */
  function PageBudgetFor(blockTime: int): nat {
    if 0 < blockTime <= 20 then (if 120 / blockTime + 1 < PAGE_BUDGET_CAP then 120 / blockTime + 1 else PAGE_BUDGET_CAP)
    else PAGE_BUDGET
  }

  /** One round a minute keeps ahead of the chain exactly from six-second blocks up, and ahead of
      double its growth between eleven and twenty seconds or beyond forty. */
  lemma BudgetOutpacesChain(blockTime: int)
    requires blockTime > 0
    ensures 3 <= PageBudgetFor(blockTime) <= 12
    ensures PageBudgetFor(blockTime) * blockTime > 60 <==> blockTime >= 6
    ensures PageBudgetFor(blockTime) * blockTime > 120 <==> 10 < blockTime <= 20 || blockTime > 40
  {
    if blockTime <= 20 { Enumerate(blockTime); }
  }

  lemma Enumerate(b: int)
    requires 0 < b <= 20
    ensures var p := if 120 / b + 1 < 12 then 120 / b + 1 else 12; (p * b > 60 <==> b >= 6) && (p * b > 120 <==> b > 10)
  {
    if b <= 10 {
      assert 120 / b >= 12 by { Divides120(b); }
    } else {
      assert 120 == b * (120 / b) + 120 % b;
      assert (120 / b + 1) * b == b * (120 / b) + b;
    }
  }

  lemma Divides120(b: int)
    requires 0 < b <= 10
    ensures 120 / b >= 12
  {
    assert 120 == b * (120 / b) + 120 % b;
  }

  datatype Input = Input(txid: string, vout: nat)

  /** A confirmed transaction and its bytes. */
  datatype ChainTx = ChainTx(txid: string, vins: seq<Input>, raw: Data)

  datatype Query = Query(depTxID: string, depVout: nat, excludeTxID: string, hash160: Data -> Data, hx: Data, hasTime: bool)

  /** The transaction's bytes give the secret for our outpoint. */
  predicate Reveals(q: Query, tx: ChainTx) {
    match HexText.HexDecode(q.depTxID)
    case None => false
    case Some(b) => SecretScan.SecretIn(q.hash160, q.hx, tx.raw, q.hasTime, b, q.depVout).Some?
  }

  predicate Matches(q: Query, tx: ChainTx) {
    Input(q.depTxID, q.depVout) in tx.vins
  }

  /** Spends our outpoint, is not our own refund, and reveals the secret. */
  predicate IsSpender(q: Query, tx: ChainTx) {
    !(q.excludeTxID != "" && tx.txid == q.excludeTxID) && Matches(q, tx) && Reveals(q, tx)
  }

  type Chain = nat -> seq<ChainTx>

  // ---- The linear scan -----------------------------------------------------

  function FirstIn(q: Query, txs: seq<ChainTx>): Option<string> {
    if txs == [] then None
    else if IsSpender(q, txs[0]) then Some(txs[0].txid)
    else FirstIn(q, txs[1..])
  }

  /** The spender a single scan of the heights [from, to) finds first, and its height. */
  function FirstSpender(q: Query, chain: Chain, from: nat, to: nat): Option<(nat, string)>
    decreases to - from
  {
    if from >= to then None
    else if FirstIn(q, chain(from)).Some? then Some((from, FirstIn(q, chain(from)).value))
    else FirstSpender(q, chain, from + 1, to)
  }

  lemma {:induction false} ScanSplits(q: Query, chain: Chain, a: nat, b: nat, c: nat)
    requires a <= b <= c
    ensures FirstSpender(q, chain, a, c)
            == if FirstSpender(q, chain, a, b).Some? then FirstSpender(q, chain, a, b) else FirstSpender(q, chain, b, c)
    decreases b - a
  {
    if a < b { ScanSplits(q, chain, a + 1, b, c); }
  }

  // ---- One page ------------------------------------------------------------

  /** What the wallet answers in a round: its tip, the pages it can serve, the bytes it can fetch,
      and the seed it derives. */
  datatype Answers = Answers(
    tip: Option<nat>,
    pageOk: nat -> bool,
    fetchOk: string -> bool,
    seed: nat)

  datatype PageResult = Clean | Found(txid: string) | Stuck

  function Page(q: Query, txs: seq<ChainTx>, fetchOk: string -> bool): PageResult {
    if txs == [] then Clean
    else if (q.excludeTxID != "" && txs[0].txid == q.excludeTxID) || !Matches(q, txs[0]) then Page(q, txs[1..], fetchOk)
    else if !fetchOk(txs[0].txid) then Stuck
    else if Reveals(q, txs[0]) then Found(txs[0].txid)
    else Page(q, txs[1..], fetchOk)
  }

  lemma {:induction false} PageIsExact(q: Query, txs: seq<ChainTx>, fetchOk: string -> bool)
    ensures var r := Page(q, txs, fetchOk);
            && (r.Clean? ==> FirstIn(q, txs).None?)
            && (r.Found? ==> FirstIn(q, txs) == Some(r.txid))
    ensures (forall t | t in txs :: fetchOk(t.txid)) ==> !Page(q, txs, fetchOk).Stuck?
  {
    if txs != [] { PageIsExact(q, txs[1..], fetchOk); }
  }

  // ---- One round -----------------------------------------------------------

  datatype Outcome = Outcome(spender: Option<string>, nextCursor: nat, advanced: bool, failed: bool)

  /** The pages from h up to (not including) end, starting from the cursor `start`. */
  function Walk(q: Query, chain: Chain, w: Answers, start: nat, h: nat, end: nat): Outcome
    requires h >= start
    decreases end - h
  {
    if h >= end then Outcome(None, h, h != start, false)
    else if !w.pageOk(h) then Outcome(None, h, h != start, true)
    else
      match Page(q, chain(h), w.fetchOk)
      case Stuck => Outcome(None, h, h != start, true)
      case Found(txid) => Outcome(Some(txid), h + 1, true, false)
      case Clean => Walk(q, chain, w, start, h + 1, end)
  }

  function Min(a: nat, b: nat): nat {
    if a <= b then a else b
  }

  function Budget(budget: int): nat {
    if budget < 1 then PAGE_BUDGET else budget
  }

  /** A round from the stored cursor, zero meaning "not seeded yet". */
  function Start(cursor: nat, w: Answers): nat {
    if cursor == 0 then w.seed else cursor
  }

  function Round(q: Query, chain: Chain, w: Answers, cursor: nat, budget: int): Outcome {
    if w.tip.None? || w.tip.value < 1 then Outcome(None, cursor, false, w.tip.None?)
    else
      var start := Start(cursor, w);
      Walk(q, chain, w, start, start, Min(w.tip.value + 1, start + Budget(budget)))
  }

  /** Confirmed depth below the tip, else a window of recent blocks, never below zero. */
  function SeedRescanStart(confirmations: Option<nat>, tip: nat): nat {
    var depth := if confirmations.Some? then confirmations.value else WINDOW_BLOCKS;
    if tip > depth then tip - depth else 0
  }

  method RunRescanPages(q: Query, chain: Chain, w: Answers, cursor: nat, budget: int) returns (r: Outcome)
    ensures r == Round(q, chain, w, cursor, budget)
  {
    hide Page;
    if w.tip.None? || w.tip.value < 1 { return Outcome(None, cursor, false, w.tip.None?); }
    var start := if cursor == 0 then w.seed else cursor;
    var pages := if budget < 1 then PAGE_BUDGET else budget;
    var next, h := start, start;
    ghost var end := Min(w.tip.value + 1, start + pages);
    while h <= w.tip.value && h < start + pages
      invariant start <= h && next == h && (h <= end || h == start)
      invariant Walk(q, chain, w, start, start, end) == Walk(q, chain, w, start, h, end)
      decreases start + pages - h
    {
      if !w.pageOk(h) { return Outcome(None, next, next != start, true); }
      var page := ScanPage(q, chain(h), w.fetchOk);
      match page {
        case Stuck => return Outcome(None, next, next != start, true);
        case Found(txid) => return Outcome(Some(txid), h + 1, true, false);
        case Clean =>
      }
      next, h := h + 1, h + 1;
    }
    return Outcome(None, next, next != start, false);
  }

  /** The transactions of one block, input by input. */
  method ScanPage(q: Query, txs: seq<ChainTx>, fetchOk: string -> bool) returns (r: PageResult)
    ensures r == Page(q, txs, fetchOk)
  {
    hide Reveals;
    assert txs[0..] == txs;
    for i := 0 to |txs|
      invariant Page(q, txs, fetchOk) == Page(q, txs[i..], fetchOk)
    {
      assert txs[i..][1..] == txs[i + 1..];
      var tx := txs[i];
      if q.excludeTxID != "" && tx.txid == q.excludeTxID { continue; }
      var matched := false;
      for k := 0 to |tx.vins|
        invariant !matched && Input(q.depTxID, q.depVout) !in tx.vins[..k]
      {
        if tx.vins[k].txid == q.depTxID && tx.vins[k].vout == q.depVout {
          matched := true;
          break;
        }
      }
      assert tx.vins[..|tx.vins|] == tx.vins;
      assert matched == Matches(q, tx);
      if !matched { continue; }
      if !fetchOk(tx.txid) { return Stuck; }
      var secret := RevealedBy(q, tx);
      if !secret { continue; }
      return Found(tx.txid);
    }
    return Clean;
  }

  method RevealedBy(q: Query, tx: ChainTx) returns (r: bool)
    ensures r == Reveals(q, tx)
  {
    var b := HexText.HexDecode(q.depTxID);
    if b.None? { return false; }
    var secret := SecretScan.SecretFromPayTx(q.hash160, q.hx, tx.raw, q.hasTime, b.value, q.depVout);
    return secret.Some?;
  }

  /** What a walk leaves behind holds no spender, and what it reports is the first one. */
  lemma {:induction false} WalkIsExact(q: Query, chain: Chain, w: Answers, start: nat, h: nat, end: nat)
    requires h >= start
    ensures var r := Walk(q, chain, w, start, h, end);
            && r.nextCursor >= h && (h <= end ==> r.nextCursor <= end)
            && (r.spender.None? ==> FirstSpender(q, chain, h, r.nextCursor).None?)
            && (r.spender.Some? ==>
                  r.nextCursor > h
                  && FirstSpender(q, chain, h, r.nextCursor) == Some((r.nextCursor - 1, r.spender.value)))
            && (r.advanced <==> r.nextCursor > start)
    decreases end - h
  {
    hide Page; hide FirstIn;
    if h < end && w.pageOk(h) {
      PageIsExact(q, chain(h), w.fetchOk);
      if Page(q, chain(h), w.fetchOk).Clean? { WalkIsExact(q, chain, w, start, h + 1, end); }
    }
  }

  // ---- Many rounds ---------------------------------------------------------

  /** The session's cursor, moved only by a round that advanced. */
  class Hunt {
    var scanCursor: nat

    constructor ()
      ensures scanCursor == 0
    {
      scanCursor := 0;
    }

    /** The round's cursor is kept before its spender is handed on, and the spender only if the
        mempool was readable in the same round and the session takes it. */
    method NextRound(q: Query, chain: Chain, t: Turn) returns (delivered: Option<string>)
      modifies this
      ensures var r := Round(q, chain, t.w, old(scanCursor), t.budget);
              && scanCursor == After(old(scanCursor), r)
              && delivered == if t.readable && t.open then r.spender else None
    {
      var r := RunRescanPages(q, chain, t.w, scanCursor, t.budget);
      if r.advanced { scanCursor := r.nextCursor; }
      if !t.readable { return None; }
      return if t.open then r.spender else None;
    }
  }

  function After(cursor: nat, r: Outcome): nat {
    if r.advanced then r.nextCursor else cursor
  }

  /** One round's page budget and wallet answers; whether the mempool could be read in it, and
      whether the session takes a spender (SwapTheorems.TakesSpender: it has not claimed and no
      worker is out). */
  datatype Turn = Turn(w: Answers, budget: int, readable: bool, open: bool)

  /** The cursor before the i-th round. */
  function Cursor(q: Query, chain: Chain, ts: seq<Turn>, i: nat): nat
    requires i <= |ts|
  {
    if i == 0 then 0
    else
      var c := Cursor(q, chain, ts, i - 1);
      After(c, Round(q, chain, ts[i - 1].w, c, ts[i - 1].budget))
  }

  function Result(q: Query, chain: Chain, ts: seq<Turn>, i: nat): Outcome
    requires i < |ts|
  {
    Round(q, chain, ts[i].w, Cursor(q, chain, ts, i), ts[i].budget)
  }

  /** Where scanning began: the seed of the first round that advanced, within the first i. */
  function Seed(q: Query, chain: Chain, ts: seq<Turn>, i: nat): nat
    requires i <= |ts|
  {
    if i == 0 then 0
    else if Cursor(q, chain, ts, i - 1) != 0 then Seed(q, chain, ts, i - 1)
    else ts[i - 1].w.seed
  }

  /** No round among the first i reported a spender. */
  predicate Quiet(q: Query, chain: Chain, ts: seq<Turn>, i: nat)
    requires i <= |ts|
  {
    forall k | 0 <= k < i :: Result(q, chain, ts, k).spender.None?
  }

  lemma RoundIsExact(q: Query, chain: Chain, w: Answers, cursor: nat, budget: int)
    ensures var r := Round(q, chain, w, cursor, budget); var start := Start(cursor, w);
            && (r.advanced ==> r.nextCursor > start)
            && (r.advanced && r.spender.None? ==> FirstSpender(q, chain, start, r.nextCursor).None?)
            && (r.spender.Some? ==>
                  r.advanced
                  && FirstSpender(q, chain, start, r.nextCursor) == Some((r.nextCursor - 1, r.spender.value)))
  {
    if w.tip.Some? && w.tip.value >= 1 {
      var start := Start(cursor, w);
      WalkIsExact(q, chain, w, start, start, Min(w.tip.value + 1, start + Budget(budget)));
    }
  }

  /** Through page failures, budgets and tip growth the cursor never moves back, and every height
      from the seed up to it was scanned and holds no spender. */
  lemma {:induction false} ScannedIsClean(q: Query, chain: Chain, ts: seq<Turn>, i: nat)
    requires i <= |ts| && Quiet(q, chain, ts, i)
    ensures var c := Cursor(q, chain, ts, i);
            && (i > 0 ==> c >= Cursor(q, chain, ts, i - 1))
            && (c > 0 ==> Seed(q, chain, ts, i) < c && FirstSpender(q, chain, Seed(q, chain, ts, i), c).None?)
  {
    if i > 0 {
      ScannedIsClean(q, chain, ts, i - 1);
      var c0 := Cursor(q, chain, ts, i - 1);
      var r := Result(q, chain, ts, i - 1);
      RoundIsExact(q, chain, ts[i - 1].w, c0, ts[i - 1].budget);
      if r.advanced && c0 > 0 {
        ScanSplits(q, chain, Seed(q, chain, ts, i - 1), c0, r.nextCursor);
      }
    }
  }

  /** The first reported spender is the one a single scan from the seed finds. */
  lemma ReportIsTheLinearScan(q: Query, chain: Chain, ts: seq<Turn>, i: nat, to: nat)
    requires i < |ts| && Quiet(q, chain, ts, i) && Result(q, chain, ts, i).spender.Some?
    requires to >= Result(q, chain, ts, i).nextCursor
    ensures var r := Result(q, chain, ts, i);
            FirstSpender(q, chain, Seed(q, chain, ts, i + 1), to) == Some((r.nextCursor - 1, r.spender.value))
  {
    ScannedIsClean(q, chain, ts, i);
    var c := Cursor(q, chain, ts, i);
    var r := Result(q, chain, ts, i);
    RoundIsExact(q, chain, ts[i].w, c, ts[i].budget);
    var seed := Seed(q, chain, ts, i + 1);
    if c > 0 { ScanSplits(q, chain, seed, c, r.nextCursor); }
    ScanSplits(q, chain, seed, r.nextCursor, to);
  }

  /** A round in which the wallet serves every page and every transaction up to the height x. */
  predicate Serves(chain: Chain, w: Answers, x: nat) {
    && w.tip.Some? && w.tip.value >= 1 && w.tip.value >= x
    && (forall h: nat {:trigger w.pageOk(h)} | h <= x :: w.pageOk(h))
    && (forall h: nat, t {:trigger t in chain(h)} | h <= x && t in chain(h) :: w.fetchOk(t.txid))
  }

  lemma {:induction false} WalkServed(q: Query, chain: Chain, w: Answers, start: nat, h: nat, end: nat, x: nat)
    requires h >= start && h <= x && Serves(chain, w, x) && FirstIn(q, chain(x)).Some?
    ensures var r := Walk(q, chain, w, start, h, end);
            r.spender.Some? || r.nextCursor >= end
    decreases end - h
  {
    hide Page; hide FirstIn;
    if h < end {
      PageIsExact(q, chain(h), w.fetchOk);
      if Page(q, chain(h), w.fetchOk).Clean? {
        if h == x { assert false; }
        WalkServed(q, chain, w, start, h + 1, end, x);
      }
    }
  }

  /** With the wallet serving every page, a spender at height x is reported after at most as many
      rounds as the cursor is behind it. */
  lemma {:induction false} SpenderIsReached(q: Query, chain: Chain, ts: seq<Turn>, i: nat, x: nat) returns (k: nat)
    requires i < |ts| && 0 < Cursor(q, chain, ts, i) <= x && FirstIn(q, chain(x)).Some?
    requires |ts| > i + (x - Cursor(q, chain, ts, i))
    requires forall j | i <= j < |ts| :: Serves(chain, ts[j].w, x)
    ensures i <= k <= i + (x - Cursor(q, chain, ts, i)) && Result(q, chain, ts, k).spender.Some?
    decreases x - Cursor(q, chain, ts, i)
  {
    hide FirstIn;
    var c := Cursor(q, chain, ts, i);
    var r := Result(q, chain, ts, i);
    if r.spender.Some? {
      k := i;
    } else {
      var w := ts[i].w;
      var end := Min(w.tip.value + 1, c + Budget(ts[i].budget));
      RoundIsExact(q, chain, w, c, ts[i].budget);
      WalkServed(q, chain, w, c, c, end, x);
      WalkIsExact(q, chain, w, c, c, end);
      if r.nextCursor > x {
        SpenderSeen(q, chain, c, x, r.nextCursor);
        assert false;
      } else {
        k := SpenderIsReached(q, chain, ts, i + 1, x);
      }
    }
  }

  lemma {:induction false} SpenderSeen(q: Query, chain: Chain, from: nat, x: nat, to: nat)
    requires from <= x < to && FirstIn(q, chain(x)).Some?
    ensures FirstSpender(q, chain, from, to).Some?
    decreases x - from
  {
    hide FirstIn;
    if from < x { SpenderSeen(q, chain, from + 1, x, to); }
  }

  // ---- Delivery ------------------------------------------------------------

  /** The round's spender reaches the session. */
  predicate Delivered(q: Query, chain: Chain, ts: seq<Turn>, i: nat)
    requires i < |ts|
  {
    Result(q, chain, ts, i).spender.Some? && ts[i].readable && ts[i].open
  }

  /** Nothing from the height x on spends the outpoint: an output is spent once. */
  ghost predicate LastSpend(q: Query, chain: Chain, x: nat) {
    forall h: nat :: h >= x ==> FirstIn(q, chain(h)).None?
  }

  lemma {:induction false} NothingAbove(q: Query, chain: Chain, x: nat, from: nat, to: nat)
    requires LastSpend(q, chain, x) && from >= x
    ensures FirstSpender(q, chain, from, to).None?
    decreases if from < to then to - from else 0
  {
    hide FirstIn;
    if from < to { NothingAbove(q, chain, x, from + 1, to); }
  }

  /** Rounds after one that reported a spender start above it and report nothing. */
  lemma {:induction false} NeverAgain(q: Query, chain: Chain, ts: seq<Turn>, i: nat, k: nat)
    requires i < k < |ts| && Result(q, chain, ts, i).spender.Some?
    requires LastSpend(q, chain, Result(q, chain, ts, i).nextCursor)
    ensures Cursor(q, chain, ts, k) >= Result(q, chain, ts, i).nextCursor > 0
    ensures Result(q, chain, ts, k).spender.None?
    decreases k
  {
    hide LastSpend; hide FirstSpender;
    var x := Result(q, chain, ts, i).nextCursor;
    RoundIsExact(q, chain, ts[i].w, Cursor(q, chain, ts, i), ts[i].budget);
    if k > i + 1 {
      NeverAgain(q, chain, ts, i, k - 1);
      RoundIsExact(q, chain, ts[k - 1].w, Cursor(q, chain, ts, k - 1), ts[k - 1].budget);
    }
    var r := Result(q, chain, ts, k);
    RoundIsExact(q, chain, ts[k].w, Cursor(q, chain, ts, k), ts[k].budget);
    NothingAbove(q, chain, x, Cursor(q, chain, ts, k), r.nextCursor);
  }

  /** A spender the pages report reaches the session, in that round or ever after, exactly if the
      mempool was readable in that round and the session took it: the cursor has moved on. */
  lemma DeliveryIsExact(q: Query, chain: Chain, ts: seq<Turn>, i: nat)
    requires i < |ts| && Result(q, chain, ts, i).spender.Some?
    requires LastSpend(q, chain, Result(q, chain, ts, i).nextCursor)
    ensures (exists k :: i <= k < |ts| && Delivered(q, chain, ts, k)) <==> ts[i].readable && ts[i].open
  {
    hide LastSpend;
    if ts[i].readable && ts[i].open { assert Delivered(q, chain, ts, i); }
    forall k | i < k < |ts| ensures !Delivered(q, chain, ts, k) { NeverAgain(q, chain, ts, i, k); }
  }

  /** The losing input: one unreadable mempool in the round that finds the spender. */
  lemma UnreadableMempoolLoses(q: Query, tx: ChainTx, later: seq<Turn>)
    requires IsSpender(q, tx)
    ensures var chain: Chain := h => if h == 1 then [tx] else [];
            var w := Answers(Some(1), _ => true, _ => true, 1);
            var ts := [Turn(w, 3, false, true)] + later;
            && Result(q, chain, ts, 0).spender == Some(tx.txid)
            && forall k | 0 <= k < |ts| :: !Delivered(q, chain, ts, k)
  {
    hide IsSpender;
    var chain: Chain := h => if h == 1 then [tx] else [];
    var w := Answers(Some(1), _ => true, _ => true, 1);
    var ts := [Turn(w, 3, false, true)] + later;
    assert FirstIn(q, [tx]) == Some(tx.txid);
    FoundAtOnce(q, tx, w.fetchOk);
    assert Cursor(q, chain, ts, 0) == 0;
    assert Result(q, chain, ts, 0) == Outcome(Some(tx.txid), 2, true, false);
    assert LastSpend(q, chain, 2);
    DeliveryIsExact(q, chain, ts, 0);
  }

  lemma FoundAtOnce(q: Query, tx: ChainTx, fetchOk: string -> bool)
    requires IsSpender(q, tx) && fetchOk(tx.txid)
    ensures Page(q, [tx], fetchOk) == Found(tx.txid)
  {
    hide Reveals;
  }
}
