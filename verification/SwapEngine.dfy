/** The engine's loop over the node object: one event at a time, and the minute tick as a
    fixed sequence of sweeps.  Delivering an event takes the node's value exactly where
    `Step` takes it, so every run of the object is a run the theorems speak about. */
module SwapEngine {
  import opened Wrappers
  import opened SwapTypes
  import S = SwapSpec
  import opened SwapRun
  import opened SwapNode
  import opened SwapInvariant
  import opened SwapSafety
  import opened SwapDebt

  /** A worker's result comes back to the engine. */
  method Finish(n: Node, i: nat, w: WorkResult, e: S.Env)
    requires i < |n.tasks| && Answers(n.tasks[i], w)
    modifies n, n.session
    ensures n.View() == FinishWork(old(n.View()), i, w, e)
    ensures n.session == old(n.session)
  {
    hide S.ApplyDepositBuild, S.ApplyClaimBuild, S.ApplyDepositFailure, S.ApplyClaimFailure,
         S.ApplyDepositSend, S.ApplyClaimSend;
    var t := n.tasks[i];
    n.tasks := n.tasks[..i] + n.tasks[i + 1..];
    match w {
      case DepositBuilt(d) => n.ApplyDepositBuild(d, e);
      case ClaimBuilt(c) => n.ApplyClaimBuild(t.makerSide, c, e);
      case BuildFailed(f) =>
        if t.DepositBuild? { n.ApplyDepositFailure(f, e); } else { n.ApplyClaimFailure(t.makerSide, f, e); }
      case Sent(ok) =>
        if t.DepositSend? { n.ApplyDepositSend(ok, e); } else { n.ApplyClaimSend(ok, e); }
    }
  }

  predicate IsRecovery(ev: Event) {
    ev == ClearStuck || ev == SweepRefunds || ev.SweepStored? || ev.RetryClaims? || ev.RetryDeposits?
  }

  predicate IsSweep(ev: Event) {
    || IsRecovery(ev)
    || ev == SweepStalled || ev.SweepStale? || ev.SweepWatch? || ev.SweepOwn? || ev == SweepPrune || ev.SweepExpired?
    || ev == QueueSnapshot
  }

  predicate IsRequest(ev: Event) {
    ev == CancelRpc || ev == RefundRpc || ev == FundingGone || ev == Touched
  }

  predicate IsSave(ev: Event) {
    ev == WriteSnapshot || ev == Pop || ev == Write
  }

  method Recover(n: Node, ev: Event, e: S.Env)
    requires IsRecovery(ev)
    modifies n, n.session
    ensures n.View() == Step(old(n.View()), ev, e) && n.session == old(n.session)
  {
    hide S.ClearStuckAwait, S.ScanRefunds, S.ScanStoredRefunds, S.RetryFailedClaimBuilds, S.RetryFailedDepositBuilds;
    match ev {
      case ClearStuck => n.ClearStuckAwait(e.now);
      case SweepRefunds => n.ScanRefunds(e);
      case SweepStored(watched, confirmed) => n.ScanStoredRefunds(watched, confirmed, e);
      case RetryClaims(c) => n.RetryFailedClaimBuilds(c, e);
      case RetryDeposits(c) => n.RetryFailedDepositBuilds(c, e);
    }
  }

  method Watch(n: Node, ev: Event, e: S.Env)
    requires ev.SweepWatch? || ev.SweepOwn?
    modifies n, n.session
    ensures n.View() == Step(old(n.View()), ev, e) && n.session == old(n.session)
  {
    hide S.WatchCounterparty, S.WatchOwnDeposit, S.DepositWatchVanishThreshold;
    match ev {
      case SweepWatch(bt) => n.WatchCounterpartyDeposits(S.DepositWatchVanishThreshold(bt), e);
      case SweepOwn(h) => n.WatchOwnDepositSpends(h, e);
    }
  }

  method Sweep(n: Node, ev: Event, e: S.Env)
    requires IsSweep(ev)
    modifies n, n.session
    ensures n.View() == Step(old(n.View()), ev, e)
    ensures n.session == old(n.session) || n.session == null
  {
    hide S.WatchStalled, S.GcStaleMineOrders, S.PruneSessions, S.PruneExpired, S.Persist;
    if IsRecovery(ev) {
      Recover(n, ev, e);
      return;
    }
    if ev.SweepWatch? || ev.SweepOwn? {
      Watch(n, ev, e);
      return;
    }
    match ev {
      case SweepStalled => n.WatchStalledSessions(e);
      case SweepStale(tracked) => n.GcStaleMineOrders(tracked, e.now);
      case SweepPrune => n.PruneSessions();
      case SweepExpired(x) => n.PruneExpired(x, e.now);
      case QueueSnapshot => n.Persist();
    }
  }

  method Attend(n: Node, ev: Event, e: S.Env)
    requires IsRequest(ev)
    modifies n, n.session
    ensures n.View() == Step(old(n.View()), ev, e) && n.session == old(n.session)
  {
    hide S.CancelOrder, S.EnqueueRefund, S.FundingSpent, S.TouchOrder;
    match ev {
      case CancelRpc => n.CancelOrder(e);
      case RefundRpc => n.EnqueueRefund(true, e.queueFree);
      case FundingGone => n.FundingSpent(e);
      case Touched => n.TouchOrder(e.now);
    }
  }

  method Save(n: Node, ev: Event, e: S.Env)
    requires IsSave(ev)
    modifies n, n.session
    ensures n.View() == Step(old(n.View()), ev, e) && n.session == old(n.session)
  {
    hide S.PersistNow, S.WriterPop, S.WriterWrite;
    match ev {
      case WriteSnapshot => n.PersistNow(e.diskOk);
      case Pop => n.PopLatest();
      case Write => n.WritePopped(e.diskOk);
    }
  }

  /** Everything but a crash, which ends the object. */
  method Deliver(n: Node, ev: Event, e: S.Env)
    requires Enabled(n.View(), ev) && !ev.Crash?
    modifies n, n.session
    ensures n.View() == Step(old(n.View()), ev, e)
    ensures n.session == old(n.session) || n.session == null
  {
    hide S.ProcessSwap, FinishWork, S.ApplyRefund, S.ApplyWatch, S.ApplyOwnWatch, S.RemoteCancel, S.RemoteReject;
    if IsSweep(ev) {
      Sweep(n, ev, e);
      return;
    }
    if IsRequest(ev) {
      Attend(n, ev, e);
      return;
    }
    if IsSave(ev) {
      Save(n, ev, e);
      return;
    }
    match ev {
      case PacketIn(p) => n.ProcessSwap(p, e);
      case WorkDone(i, w) => Finish(n, i, w, e);
      case RefundDone(j, r) => n.ApplyRefund(j, r, e.now);
      case WatchDone(k, p, spent) => n.ApplyDepositWatch(k, p, spent, e);
      case OwnDone(s, d, r) => n.ApplyOwnWatch(s, d, r, e);
      case CancelPkt => n.HandleRemoteCancel(e);
      case RejectPkt => n.HandleRemoteReject(e);
      case WorkRun(_) =>   // the wallet's side; the node learns of it when the result comes back
    }
  }

  /** A new process: restore the swap file, then reconcile it with the chain. */
  method StartNode(b: Book, onChain: bool, now: nat) returns (n: Node)
    ensures fresh(n) && (n.session == null || fresh(n.session))
    ensures forall m: NodeState | m.book == b :: n.View() == S.Restart(m, onChain, now)
  {
    hide S.RestoreRecord, S.ReconcileUnconfirmed;
    n := new Node.Restore(b, now);
    n.ReconcileUnconfirmedDeposits(onChain);
  }

  // ---- The minute tick -------------------------------------------------------

  /** The sweeps of one tick in their order: recovery before termination, the flush last. */
  predicate IsTick(ms: seq<Move>) {
    && |ms| == 11
    && ms[0].ev == ClearStuck && ms[1].ev == SweepRefunds && ms[2].ev.SweepStored?
    && ms[3].ev.RetryClaims? && ms[4].ev.RetryDeposits?
    && ms[5].ev == SweepStalled && ms[6].ev.SweepStale?
    && ms[7].ev.SweepWatch? && ms[8].ev.SweepOwn?
    && ms[9].ev == SweepPrune && ms[10].ev == QueueSnapshot
  }

  predicate AllSweeps(ms: seq<Move>) {
    forall i | 0 <= i < |ms| :: IsSweep(ms[i].ev)
  }

  function Swept(n: NodeState, ms: seq<Move>): NodeState
    requires AllSweeps(ms)
  {
    if ms == [] then n
    else Step(Swept(n, ms[..|ms| - 1]), ms[|ms| - 1].ev, ms[|ms| - 1].e)
  }

  method Tick(n: Node, ms: seq<Move>)
    requires IsTick(ms)
    modifies n, n.session
    ensures AllSweeps(ms) && n.View() == Swept(old(n.View()), ms)
  {
    hide Step;
    var i := 0;
    while i < |ms|
      invariant 0 <= i <= |ms|
      invariant n.session == old(n.session) || n.session == null
      invariant n.View() == Swept(old(n.View()), ms[..i])
    {
      Sweep(n, ms[i].ev, ms[i].e);
      i := i + 1;
      assert ms[..i][..i - 1] == ms[..i - 1];
    }
    assert ms[..i] == ms;
  }

  // ---- A process -------------------------------------------------------------

  /** The events come in an order that is possible from t, within one process. */
  predicate Playable(t: Trace, ms: seq<Move>)
    decreases |ms|
  {
    ms == [] ||
    (Possible(t, ms[0].ev, ms[0].e) && !ms[0].ev.Crash? && Playable(Next(t, ms[0].ev, ms[0].e), ms[1..]))
  }

  function Played(t: Trace, ms: seq<Move>): Trace
    requires Playable(t, ms)
    decreases |ms|
  {
    if ms == [] then t else Played(Next(t, ms[0].ev, ms[0].e), ms[1..])
  }

  /** The object, driven by any events, keeps the invariants of runs: above all, a deposit that
      is owed and not lost hold of is in its session, which is neither finished nor refunded. */
  method Drive(n: Node, ms: seq<Move>, ghost start: Trace) returns (ghost t: Trace)
    requires start.n == n.View() && Inv(start.n, start.h) && Accounted(start.n, start.debt) && Playable(start, ms)
    modifies n, n.session
    ensures t == Played(start, ms) && t.n == n.View() && Inv(t.n, t.h) && Accounted(t.n, t.debt)
    ensures |n.tasks| == if n.session != null && n.session.await then 1 else 0
    ensures t.debt.owed.Some? && !t.debt.lapsed
            ==> n.session != null && n.session.deposit == t.debt.owed.value
                && n.session.state != CS_FINISHED && !n.session.refundDone
  {
    hide Step; hide Inv; hide Chronicle; hide Enabled; hide Honest; hide Account; hide Accounted;
    t := start;
    var i := 0;
    assert ms[0..] == ms;
    while i < |ms|
      invariant 0 <= i <= |ms|
      invariant n.session == old(n.session) || n.session == null
      invariant t.n == n.View() && Inv(t.n, t.h) && Accounted(t.n, t.debt)
      invariant Playable(t, ms[i..]) && Played(t, ms[i..]) == Played(start, ms)
    {
      assert ms[i..][0] == ms[i] && ms[i..][1..] == ms[i + 1..];
      Deliver(n, ms[i].ev, ms[i].e);
      NextKeeps(t, ms[i].ev, ms[i].e);
      StepAccounts(t.n, t.h, t.debt, ms[i].ev, ms[i].e);
      t := Next(t, ms[i].ev, ms[i].e);
      i := i + 1;
    }
    OwedIsHeld(t);
  }

  lemma OwedIsHeld(t: Trace)
    requires Inv(t.n, t.h) && Accounted(t.n, t.debt)
    ensures |t.n.work| == if t.n.sess.Some? && t.n.sess.value.await then 1 else 0
    ensures t.debt.owed.Some? && !t.debt.lapsed
            ==> t.n.sess.Some? && t.n.sess.value.deposit == t.debt.owed.value
                && t.n.sess.value.state != CS_FINISHED && !t.n.sess.value.refundDone
  {
    hide BookFits; hide HistoryFits; hide OrderFits; hide WorkFits; hide SeenFits;
  }
}
