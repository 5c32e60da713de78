/** Runs: events, the history a run leaves behind, and the invariants every run keeps.

    The history variables are never read by a step.  They record what the theorems
    speak about: which deposits reached the wallet, which broadcast is unsettled. */
module SwapRun {
  import opened Wrappers
  import opened SwapTypes
  import opened SwapSpec

  datatype WorkResult =
    | DepositBuilt(d: Deposit)
    | ClaimBuilt(c: Claim)
    | BuildFailed(f: Failure)
    | Sent(ok: bool)

  datatype Event =
    | PacketIn(p: Packet)
    | WorkRun(i: nat)                       // a worker hands a broadcast's bytes to the wallet
    | WorkDone(i: nat, w: WorkResult)
    | ClearStuck
    | SweepRefunds
    | SweepStored(watched: bool, confirmed: bool)
    | RefundDone(j: nat, r: RefundResult)
    | RetryClaims(claimOnChain: bool)
    | RetryDeposits(depositOnChain: bool)
    | SweepStalled
    | SweepStale(tracked: bool)
    | SweepWatch(blockTime: int)
    | WatchDone(k: nat, probe: Probe, spent: bool)
    | SweepOwn(hashKnown: bool)
    | OwnDone(spender: bool, depositLive: bool, readable: bool)
    | SweepPrune
    | SweepExpired(expired: bool)
    | CancelPkt
    | RejectPkt
    | CancelRpc
    | RefundRpc                             // a forced refund, asked for by the operator
    | FundingGone
    | Touched
    | QueueSnapshot
    | WriteSnapshot
    | Pop
    | Write
    | Crash(onChain: bool)

  /** The result fits the piece of work it answers. */
  predicate Answers(w: Work, r: WorkResult) {
    match w
    case DepositBuild => (r.DepositBuilt? && WellBuilt(r.d)) || r.BuildFailed?
    case ClaimBuild(_) => (r.ClaimBuilt? && r.c.txid != Empty && r.c.hex != Empty) || r.BuildFailed?
    case DepositSend(_) => r.Sent?
    case ClaimSend(_) => r.Sent?
  }

  /** Events that name a task name one that is out. */
  predicate Enabled(n: NodeState, ev: Event) {
    match ev
    case WorkRun(i) => i < |n.work| && (n.work[i].DepositSend? || n.work[i].ClaimSend?)
    case WorkDone(i, w) => i < |n.work| && Answers(n.work[i], w)
    case RefundDone(j, _) => j < |n.refund.tasks|
    case WatchDone(k, _, _) => k < |n.watch.tasks|
    case OwnDone(_, _, _) => n.watch.ownPending
    case _ => true
  }

  function FinishWork(n: NodeState, i: nat, w: WorkResult, e: Env): NodeState
    requires i < |n.work| && Answers(n.work[i], w)
  {
    var t := n.work[i];
    var m := n.(work := n.work[..i] + n.work[i + 1..]);
    match w
    case DepositBuilt(d) => ApplyDepositBuild(m, d, e)
    case ClaimBuilt(c) => ApplyClaimBuild(m, t.makerSide, c, e)
    case BuildFailed(f) =>
      if t.DepositBuild? then ApplyDepositFailure(m, f, e) else ApplyClaimFailure(m, t.makerSide, f, e)
    case Sent(ok) =>
      if t.DepositSend? then ApplyDepositSend(m, ok, e) else ApplyClaimSend(m, ok, e)
  }

  function Step(n: NodeState, ev: Event, e: Env): NodeState
    requires Enabled(n, ev)
  {
    match ev
    case PacketIn(p) => ProcessSwap(n, p, e)
    case WorkRun(_) => n
    case WorkDone(i, w) => FinishWork(n, i, w, e)
    case ClearStuck => ClearStuckAwait(n, e.now)
    case SweepRefunds => ScanRefunds(n, e)
    case SweepStored(watched, confirmed) => ScanStoredRefunds(n, watched, confirmed, e)
    case RefundDone(j, r) => ApplyRefund(n, j, r, e.now)
    case RetryClaims(c) => RetryFailedClaimBuilds(n, c, e)
    case RetryDeposits(c) => RetryFailedDepositBuilds(n, c, e)
    case SweepStalled => WatchStalled(n, e)
    case SweepStale(tracked) => GcStaleMineOrders(n, tracked, e.now)
    case SweepWatch(bt) => WatchCounterparty(n, DepositWatchVanishThreshold(bt), e)
    case WatchDone(k, p, spent) => ApplyWatch(n, k, p, spent, e)
    case SweepOwn(h) => WatchOwnDeposit(n, h, e)
    case OwnDone(s, d, r) => ApplyOwnWatch(n, s, d, r, e)
    case SweepPrune => PruneSessions(n)
    case SweepExpired(x) => PruneExpired(n, x, e.now)
    case CancelPkt => RemoteCancel(n, e)
    case RejectPkt => RemoteReject(n, e)
    case CancelRpc => CancelOrder(n, e)
    case RefundRpc => EnqueueRefund(n, true, e.queueFree)
    case FundingGone => FundingSpent(n, e)
    case Touched => TouchOrder(n, e.now)
    case QueueSnapshot => Persist(n)
    case WriteSnapshot => PersistNow(n, e.diskOk)
    case Pop => WriterPop(n)
    case Write => WriterWrite(n, e.diskOk)
    case Crash(onChain) => Restart(n, onChain, e.now)
  }

  // ---- History -------------------------------------------------------------

  datatype History = History(
    maker: bool,               // our role, fixed for the swap
    handed: set<Deposit>,      // deposits whose bytes reached the wallet, over all processes
    intent: Option<Deposit>,   // the deposit whose intent was last made durable
    claimed: bool,             // a claim broadcast was applied in this process
    booked: bool,              // ... while the order was in the live book
    settled: bool,             // a claim or refund broadcast was ever applied
    steady: bool,              // the order has stayed ours, live and non-terminal, and unsettled
    fails: nat,                // failing deposit broadcasts applied, over all processes
    runFails: nat,             // ... in this process
    absent: nat,               // unbroken run of applied "absent" probes
    astray: bool,              // a crash restored a session without the intended deposit
    miscounted: bool)          // a crash restored a session that counts fewer failures than there were

  /** What the network took, and what is owed to us for it. */
  datatype Debt = Debt(
    seen: Option<Deposit>,     // the deposit the network took
    paid: Option<Refund>,      // the refund the network took
    owed: Option<Deposit>,     // the deposit that counts as sent, neither claimed nor refunded since
    lapsed: bool)              // ... with a losing step since it was last secured

  datatype Trace = Trace(n: NodeState, h: History, debt: Debt)

  predicate IsSend(n: NodeState, ev: Event, deposit: bool, ok: bool) {
    && ev.WorkDone? && ev.i < |n.work| && ev.w == Sent(ok)
    && (if deposit then n.work[ev.i].DepositSend? else n.work[ev.i].ClaimSend?)
  }

  /** The retry sweep adopts a deposit (claim) it finds confirmed. */
  predicate AdoptsDeposit(n: NodeState, ev: Event, e: Env) {
    && ev == RetryDeposits(true) && e.walletOk && n.sess.Some? && !n.sess.value.await
    && n.sess.value.deposit.txid != Empty && n.sess.value.deposit.hex != Empty
    && PreCreated(n.sess.value) && !DepositSent(n)
    && n.sess.value.pace.depositRetryAt != 0 && n.sess.value.pace.depositRetryAt <= e.now
  }

  predicate AdoptsClaim(n: NodeState, ev: Event, e: Env) {
    && ev == RetryClaims(true) && e.walletOk && n.sess.Some? && !n.sess.value.await
    && n.sess.value.claim.txid != Empty && n.sess.value.claim.hex != Empty
    && n.sess.value.pace.claimRetryAt != 0 && n.sess.value.pace.claimRetryAt <= e.now
    && PreConfirmed(n.sess.value)
  }

  /** A deposit broadcast counts as out from this event on. */
  predicate ConfirmsDeposit(n: NodeState, ev: Event, e: Env) {
    n.sess.Some? && (IsSend(n, ev, true, true) || AdoptsDeposit(n, ev, e))
  }

  predicate ConfirmsClaim(n: NodeState, ev: Event, e: Env) {
    n.sess.Some? && (IsSend(n, ev, false, true) || AdoptsClaim(n, ev, e))
  }

  predicate ConfirmsRefund(n: NodeState, ev: Event) {
    ev.RefundDone? && ev.r.RefundSent?
  }

  /** A watch round that may not keep a countdown running. */
  predicate BreaksAbsence(n: NodeState, ev: Event) {
    || (ev.WatchDone? && (!ev.probe.Absent? || n.sess.None? || !Watchable(n)))
    || (ev.SweepWatch? && n.sess.Some?
        && (!n.sess.value.peer.deposit || !Watchable(n) || !n.sess.value.peer.validated))
    || ev.Crash?
  }

  /** The probe completes the countdown of the watch task k. */
  predicate Decisive(n: NodeState, k: nat, p: Probe)
    requires k < |n.watch.tasks|
  {
    && p.Absent? && n.sess.Some? && Watchable(n)
    && n.sess.value.vanishMisses + 1 >= n.watch.tasks[k].threshold
  }

  /** The order is ours, live and undecided, and its session is there. */
  predicate Steady(n: NodeState) {
    n.live.Some? && n.live.value.mine && !IsOrderTerminal(n.live.value.status) && n.sess.Some?
  }

  function Intent(n: NodeState, h: History, ev: Event, e: Env, m: NodeState): Option<Deposit> {
    if ev.WorkDone? && ev.w.DepositBuilt? && n.sess.Some? then (if e.diskOk then Some(ev.w.d) else None)
    else if ev.Crash? && m.sess.Some? then
      (if m.sess.value.deposit == NO_DEPOSIT then None else Some(m.sess.value.deposit))
    else h.intent
  }

  /** The session of a record in the swap file comes back with the restart. */
  predicate Returns(disk: Option<Record>) {
    disk.Some? && disk.value.sess.Some? && !FiledAway(disk.value)
  }

  /** The restart brings back a session that does not carry the intended deposit. */
  predicate Strays(disk: Option<Record>, intent: Option<Deposit>) {
    Returns(disk) && intent.Some? && disk.value.sess.value.deposit != intent.value
  }

  /** The restart brings back a session, its deposit unconfirmed, with too few retries on record. */
  predicate Undercounts(disk: Option<Record>, fails: nat) {
    Returns(disk) && PreCreated(disk.value.sess.value)
    && fails > if disk.value.sess.value.deposit == NO_DEPOSIT then 0 else disk.value.sess.value.pace.depositRetries
  }

  function AbsentRun(n: NodeState, h: History, ev: Event): nat
    requires Enabled(n, ev)
  {
    if BreaksAbsence(n, ev) then 0
    else if ev.WatchDone? then (if Decisive(n, ev.k, ev.probe) then 0 else h.absent + 1)
    else h.absent
  }

  /** The history after the event ev took n to m. */
  function Chronicle(h: History, n: NodeState, ev: Event, e: Env, m: NodeState): History
    requires Enabled(n, ev)
  {
    var claims := ConfirmsClaim(n, ev, e);
    var settled := h.settled || claims || ConfirmsRefund(n, ev);
    var failed := if n.sess.Some? && IsSend(n, ev, true, false) then 1 else 0;
    History(
      h.maker,
      if ev.WorkRun? && n.work[ev.i].DepositSend? then h.handed + {n.work[ev.i].out} else h.handed,
      Intent(n, h, ev, e, m),
      !ev.Crash? && (h.claimed || claims),
      if ev.Crash? then false else if claims then n.live.Some? else h.booked,
      settled,
      h.steady && Steady(m) && !settled,
      h.fails + failed,
      if ev.Crash? then 0 else h.runFails + failed,
      AbsentRun(n, h, ev),
      h.astray || (ev.Crash? && Strays(n.book.disk, h.intent)),
      h.miscounted || (ev.Crash? && Undercounts(n.book.disk, h.fails)))
  }

  // ---- The debt ------------------------------------------------------------

  /** The restart marks the restored deposit sent, because the chain shows it. */
  predicate Reconciles(b: Book) {
    Returns(b.disk) &&
    var r := b.disk.value;
    && !FinishedRefundPending(r) && r.sess.value.state < CS_CREATED_A && !r.order.depositSent
    && r.sess.value.deposit.refund != Empty && r.sess.value.deposit.txid != Empty && !r.sess.value.refundDone
  }

  /** The deposit of the swap that the network is seen to have taken with this event. */
  function Taken(n: NodeState, ev: Event, e: Env): Option<Deposit> {
    if IsSend(n, ev, true, true) then Some(n.work[ev.i].out)
    else if AdoptsDeposit(n, ev, e) then Some(n.sess.value.deposit)
    else if ev == Crash(true) && Reconciles(n.book) then Some(n.book.disk.value.sess.value.deposit)
    else None
  }

  /** All deposits of a swap spend the same recorded funding, and a refund spends its own
      deposit alone: the network takes one deposit, and the refund of no other. */
  predicate Honest(d: Debt, n: NodeState, ev: Event, e: Env)
    requires Enabled(n, ev)
  {
    && (Taken(n, ev, e).Some? ==>
          var x := Taken(n, ev, e).value;
          (d.seen.None? || d.seen == Some(x)) && (d.paid.None? || d.paid == Some(RefundOf(x))))
    && (ConfirmsRefund(n, ev) ==>
          var r := n.refund.tasks[ev.j].refund;
          (d.paid.None? || d.paid == Some(r)) && (d.seen.Some? ==> RefundOf(d.seen.value) == r))
  }

  /** The restart brings back a session that owes us its deposit. */
  predicate RecordOwes(disk: Option<Record>, onChain: bool) {
    Returns(disk) &&
    var r := disk.value;
    && r.sess.value.deposit.refund != Empty && !r.sess.value.refundDone
    && (FinishedRefundPending(r) || r.sess.value.state >= CS_CREATED_A || r.order.depositSent
        || (onChain && r.sess.value.deposit.txid != Empty))
  }

  /** A cancel that reaches the order before it counts as created takes it to history. */
  predicate Shelves(n: NodeState, e: Env) {
    && n.live.Some? && e.verified && e.walletOk
    && Ordinal(n.live.value.status) < 6 && !(n.live.value.mine && Ordinal(n.live.value.status) <= 2 && !e.iCanceled)
  }

  /** The events on which a session before its deposit's confirmation cancels itself. */
  predicate CancelsItself(n: NodeState, ev: Event, e: Env)
    requires n.sess.Some?
  {
    || (ev.PacketIn? && ev.p.CreateBPkt? && !ev.p.depositGiven && !n.sess.value.isMaker && !n.sess.value.await)
    || (ev.SweepStalled? && Stalled(n, e.now))
    || (ev.WorkDone? && ev.i < |n.work| && n.work[ev.i] == ClaimBuild(true) && ev.w == BuildFailed(SelfCancelErr))
  }

  /** A redelivered CreateA stages another deposit. */
  predicate Rebuilds(n: NodeState, ev: Event, e: Env)
    requires n.sess.Some?
  {
    ev == PacketIn(CreateAPkt(true)) && n.sess.value.isMaker && !n.sess.value.await && e.queueFree
  }

  /** The steps that lose hold of the deposit d: only the sent mark of the live order protects a
      session before its confirmation, and only the swap file carries it over a crash. */
  predicate Loses(n: NodeState, d: Deposit, ev: Event, e: Env) {
    if ev.Crash? then !(RecordOwes(n.book.disk, ev.onChain) && n.book.disk.value.sess.value.deposit == d)
    else
      && n.sess.Some? && n.sess.value.state < CS_CREATED_A
      && (|| (ev.CancelPkt? && Shelves(n, e))
          || (CancelsItself(n, ev, e) && e.netOk && Shelves(n, e))
          || (ev.SweepExpired? && ev.expired && n.live.Some? && !InSwap(n) && n.live.value.status in {Created, Open})
          || Rebuilds(n, ev, e))
  }

  /** The deposit whose debt begins, or begins again, with this event. */
  function Incurred(n: NodeState, d: Debt, ev: Event, e: Env): Option<Deposit> {
    if d.paid.Some? then None
    else if ConfirmsDeposit(n, ev, e) then Some(if ev.WorkDone? then n.work[ev.i].out else n.sess.value.deposit)
    else if ev.Crash? && RecordOwes(n.book.disk, ev.onChain) then Some(n.book.disk.value.sess.value.deposit)
    else None
  }

  /** The claim, or the debt's own refund, went out. */
  predicate Settles(n: NodeState, d: Debt, ev: Event, e: Env)
    requires Enabled(n, ev)
  {
    || ConfirmsClaim(n, ev, e)
    || (ConfirmsRefund(n, ev) && d.owed.Some? && RefundOf(d.owed.value) == n.refund.tasks[ev.j].refund)
  }

  function Account(d: Debt, n: NodeState, ev: Event, e: Env): Debt
    requires Enabled(n, ev)
  {
    var begun := Incurred(n, d, ev, e);
    var owed := if Settles(n, d, ev, e) then None else if begun.Some? then begun else d.owed;
    Debt(if Taken(n, ev, e).Some? then Taken(n, ev, e) else d.seen,
         if ConfirmsRefund(n, ev) then Some(n.refund.tasks[ev.j].refund) else d.paid,
         owed,
         owed.Some? && begun.None? && (d.lapsed || Loses(n, owed.value, ev, e)))
  }

  function Next(t: Trace, ev: Event, e: Env): Trace
    requires Enabled(t.n, ev)
  {
    var m := Step(t.n, ev, e);
    Trace(m, Chronicle(t.h, t.n, ev, e, m), Account(t.debt, t.n, ev, e))
  }

  /** A freshly made or taken order with its session, as yet unsaved or saved. */
  predicate Initial(t: Trace) {
    var n := t.n;
    && Steady(n)
    && n.sess.value == (if t.h.maker then NewMakerSession(n.sess.value.peer.secretKnown, n.sess.value.pace.lastProgress)
                        else NewTakerSession(n.sess.value.pace.lastProgress))
    && !n.live.value.depositSent && n.live.value.refundTx.None? && !n.live.value.counterpartyRedeemed
    && n.hist.None?
    && n.work == [] && n.refund == RefundQueue([], false, 0, 0) && n.watch == WatchQueue([], false, false)
    && (n.book == Book(None, None, None, false, false) || n.book == Book(Snapshot(n), None, None, false, false))
    && t.h == History(t.h.maker, {}, None, false, false, false, true, 0, 0, 0, false, false)
    && t.debt == Debt(None, None, None, false)
  }

  /** What a run is made of: an event with the environment's answers. */
  datatype Move = Move(ev: Event, e: Env)

  /** The event can happen: it names tasks that are out, and the network's answers agree. */
  predicate Possible(t: Trace, ev: Event, e: Env) {
    Enabled(t.n, ev) && Honest(t.debt, t.n, ev, e)
  }

  ghost predicate IsRun(ts: seq<Trace>, ms: seq<Move>) {
    && |ts| == |ms| + 1
    && Initial(ts[0])
    && forall i | 0 <= i < |ms| :: Possible(ts[i], ms[i].ev, ms[i].e) && ts[i + 1] == Next(ts[i], ms[i].ev, ms[i].e)
  }
}
