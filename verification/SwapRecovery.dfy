/** What a restart recovers, and what nothing brings back. */
module SwapRecovery {
  import opened Wrappers
  import opened SwapTypes
  import opened SwapSpec
  import opened SwapRun
  import opened SwapInvariant
  import opened SwapSafety
  import opened SwapDescent
  import opened SwapDebt
  import opened SwapTheorems

  // ---- Crash recovery ------------------------------------------------------

  /** The restarted node owns the deposit's recovery: it hunts, or its first sweep posts exactly
      the pre-signed refund with its locktime. */
  predicate Recovers(m: NodeState, d: Deposit, e: Env) {
    && m.sess.Some? && m.sess.value.deposit == d
    && (m.sess.value.secretHunt
        || (e.queueFree ==> ScanRefunds(m, e).refund.tasks == [RefundTask(RefundOf(d), false, true)]))
  }

  /** The restart files the swap in history, where no sweep looks. */
  predicate Forgotten(m: NodeState) {
    m.sess.None? && m.live.None? && m.hist.Some?
  }

  /** The first sweeps after the restart post nothing but the stored order's refund. */
  predicate StoredOwes(r: Record) {
    && r.order.refundTx.Some? && r.order.depositSent
    && (FinishedRefundPending(r) || r.order.status !in {Finished, Dropped, Invalid, RolledBack})
  }

  /** A restart recovers what the record on disk lets it: filed away, the swap is forgotten; a
      session comes back with its deposit, and its first sweep posts exactly the pre-signed refund
      if the record or the chain says the deposit is out, and nothing if not; an order without a
      session has its stored refund posted exactly if it counts as sent and undecided. */
  lemma RecoveryIsExact(n: NodeState, h: History, onChain: bool, now: nat, e: Env)
    requires Inv(n, h) && n.book.disk.Some? && e.queueFree && e.walletOk
    ensures var m, r := Restart(n, onChain, now), n.book.disk.value;
            if FiledAway(r) then Forgotten(m)
            else if r.sess.Some? then
              && m.sess.Some? && m.sess.value.deposit == r.sess.value.deposit
              && (m.sess.value.secretHunt ||
                  ScanRefunds(m, e).refund.tasks
                  == if RecordOwes(n.book.disk, onChain) then [RefundTask(RefundOf(r.sess.value.deposit), false, true)] else [])
            else
              && m.sess.None? && m.live.Some?
              && ScanStoredRefunds(m, false, false, e).refund.tasks
                 == if StoredOwes(r) then [RefundTask(r.order.refundTx.value, false, r.order.binTxId != Empty)] else []
  {
    if FiledAway(n.book.disk.value) {
      hide Inv;
    } else if n.book.disk.value.sess.Some? {
      SessionRecovers(n, h, onChain, now, e);
    } else {
      hide Inv; hide FiledAway;
    }
  }

  lemma SessionRecovers(n: NodeState, h: History, onChain: bool, now: nat, e: Env)
    requires Inv(n, h) && Returns(n.book.disk) && e.queueFree
    ensures var m, r := Restart(n, onChain, now), n.book.disk.value;
            && m.sess.Some? && m.sess.value.deposit == r.sess.value.deposit
            && (m.sess.value.secretHunt ||
                ScanRefunds(m, e).refund.tasks
                == if RecordOwes(n.book.disk, onChain) then [RefundTask(RefundOf(r.sess.value.deposit), false, true)] else [])
  {
    NotFinished(n, h);
    RecordState(n, h);
    RecordDeposit(n, h);
    hide Inv; hide FiledAway; hide FinishedRefundPending;
  }

  lemma RecordDeposit(n: NodeState, h: History)
    requires Inv(n, h) && Returns(n.book.disk)
    ensures var s := n.book.disk.value.sess.value;
            && (s.deposit == NO_DEPOSIT || WellBuilt(s.deposit)) && s.state != CS_FINISHED
            && (s.state >= CS_CREATED_A ==> s.deposit != NO_DEPOSIT)
  {
    hide FiledAway; hide HistoryFits; hide LiveSessionFits; hide OrderFits;
  }

  /** The order was cancelled before its deposit counted as sent. */
  predicate CancelledUnsent(r: Record)
    requires r.sess.Some?
  {
    IsOrderTerminal(r.order.status) && r.sess.value.state < CS_CREATED_A && !RefundPending(r)
  }

  /** A record that carries the intent recovers it exactly if the order was not cancelled before
      its deposit counted as sent; otherwise the swap is forgotten. */
  lemma IntentRecovers(n: NodeState, h: History, now: nat, e: Env)
    requires Inv(n, h) && !n.book.overlap && !h.settled && h.intent.Some?
    requires n.book.disk.Some? && n.book.disk.value.sess.Some?
    ensures var m := Restart(n, true, now); var r := n.book.disk.value;
            if CancelledUnsent(r) then Forgotten(m) else Recovers(m, h.intent.value, e)
  {
    hide LiveSessionFits; hide OrderFits; hide WorkHeld; hide Counts;
  }

  /** A crash at any point after the bytes reached the wallet, while the order has stayed ours,
      live and undecided, is recovered from the last durable snapshot. */
  lemma CrashRecovery(ts: seq<Trace>, ms: seq<Move>, i: nat, d: Deposit, now: nat, e: Env)
    requires IsRun(ts, ms) && i < |ts|
    requires ts[i].h.intent == Some(d) && ts[i].h.steady && !ts[i].n.book.overlap
    ensures Recovers(Restart(ts[i].n, true, now), d, e)
    ensures RecordOwes(ts[i].n.book.disk, true) && ts[i].n.book.disk.value.sess.value.deposit == d
  {
    hide IsRun; hide Recovers; hide Restart; hide WorkHeld; hide LiveSessionFits; hide HistoryFits;
    hide SessionFits; hide Counts;
    RunInv(ts, ms, i);
    IntentRecovers(ts[i].n, ts[i].h, now, e);
    IntentOnDisk(ts[i].n, ts[i].h);
  }

  lemma IntentOnDisk(n: NodeState, h: History)
    requires Inv(n, h) && h.steady && !n.book.overlap && h.intent.Some?
    ensures RecordOwes(n.book.disk, true) && n.book.disk.value.sess.value.deposit == h.intent.value
  {
    hide LiveSessionFits; hide WorkHeld; hide Counts;
  }

  /** The recovered deposit is owed and held from then on: what holds of owed deposits holds of it. */
  lemma RecoveredIsOwed(ts: seq<Trace>, ms: seq<Move>, i: nat, d: Deposit)
    requires IsRun(ts, ms) && i < |ms| && ms[i].ev == Crash(true)
    requires ts[i].h.intent == Some(d) && ts[i].h.steady && !ts[i].n.book.overlap
    ensures ts[i + 1].debt.owed == Some(d) && !ts[i + 1].debt.lapsed && Secured(ts[i + 1].n, d)
  {
    hide Inv; hide Initial; hide Step; hide Chronicle; hide Recovers; hide Secured; hide RecordOwes; hide Honest; hide Loses;
    hide Taken;
    CrashRecovery(ts, ms, i, d, ms[i].e.now, ms[i].e);
    assert Possible(ts[i], ms[i].ev, ms[i].e) && ts[i + 1] == Next(ts[i], ms[i].ev, ms[i].e);
    RunAccounts(ts, ms, i + 1);
    PaidIsSettled(ts, ms, i);
    SettledIsUnsteady(ts, ms, i);
  }

  lemma {:induction false} PaidIsSettled(ts: seq<Trace>, ms: seq<Move>, i: nat)
    requires IsRun(ts, ms) && i < |ts|
    ensures ts[i].debt.paid.Some? ==> ts[i].h.settled
  {
    hide Step; hide Honest; hide Taken; hide Settles; hide Incurred; hide Loses; hide ConfirmsClaim; hide ConfirmsDeposit;
    if i > 0 {
      PaidIsSettled(ts, ms, i - 1);
      assert Possible(ts[i - 1], ms[i - 1].ev, ms[i - 1].e) && ts[i - 1 + 1] == Next(ts[i - 1], ms[i - 1].ev, ms[i - 1].e);
    }
  }

  lemma SettledIsUnsteady(ts: seq<Trace>, ms: seq<Move>, i: nat)
    requires IsRun(ts, ms) && i < |ts|
    ensures ts[i].h.steady ==> !ts[i].h.settled
  {
    hide IsRun;
    RunInv(ts, ms, i);
    SettledUnsteady(ts[i].n, ts[i].h);
  }

  // ---- Coming back from history --------------------------------------------

  /** An order saved from history comes back, and its first stored sweep posts its refund, exactly
      if it was cancelled, or finished without any redemption, with its deposit sent; an expired
      or dropped one is forgotten. */
  lemma HistoryRecovers(n: NodeState, b: Book, onChain: bool, now: nat, e: Env)
    requires n.live.None? && n.hist.Some? && n.hist.value.mine && b.disk == Snapshot(n)
    requires e.queueFree && e.walletOk
    ensures var m, o := Restart(n.(book := b), onChain, now), n.hist.value;
            if o.depositSent && o.refundTx.Some?
               && (o.status == Canceled || (o.status == Finished && !o.counterpartyRedeemed))
            then ScanStoredRefunds(m, false, false, e).refund.tasks
                 == [RefundTask(o.refundTx.value, false, o.binTxId != Empty)]
            else Forgotten(m)
  {
  }

  /** A cancel that loses hold of a sent deposit leaves it to the next process: the order it shelves
      comes back with the deposit's own refund.  An expiry does not. */
  lemma ShelvedComesBack(ts: seq<Trace>, ms: seq<Move>, i: nat, d: Deposit, b: Book, now: nat, e: Env)
    requires IsRun(ts, ms) && i < |ts| && Secured(ts[i].n, d) && Shelves(ts[i].n, e) && ts[i].n.live.value.depositSent
    requires ts[i].n.live.value.mine && e.queueFree && e.walletOk
    ensures var m := RemoteCancel(ts[i].n, e);
            b.disk == Snapshot(m)
            ==> ScanStoredRefunds(Restart(m.(book := b), true, now), false, false, e).refund.tasks
                == [RefundTask(RefundOf(d), false, ts[i].n.live.value.binTxId != Empty)]
    ensures var m := MoveToHistory(ts[i].n, Expired, e.now);
            b.disk == Snapshot(m) ==> Forgotten(Restart(m.(book := b), true, now))
  {
    hide IsRun; hide ScanStoredRefunds; hide Restart; hide Snapshot; hide Forgotten;
    var n := ts[i].n;
    RunAccounts(ts, ms, i);
    RunInv(ts, ms, i);
    ShelvedOrder(n, ts[i].h, d, e);
    if b.disk == Snapshot(RemoteCancel(n, e)) { HistoryRecovers(RemoteCancel(n, e), b, true, now, e); }
    if b.disk == Snapshot(MoveToHistory(n, Expired, e.now)) { HistoryRecovers(MoveToHistory(n, Expired, e.now), b, true, now, e); }
  }

  lemma ShelvedOrder(n: NodeState, h: History, d: Deposit, e: Env)
    requires Inv(n, h) && Secured(n, d) && Shelves(n, e) && n.live.value.mine && n.live.value.depositSent
    requires n.live.value.refundTx == Some(RefundOf(d))
    ensures var o := RemoteCancel(n, e).hist;
            && RemoteCancel(n, e).live.None? && o.Some? && o.value.status == Canceled && o.value.mine && o.value.depositSent
            && o.value.refundTx == Some(RefundOf(d)) && o.value.binTxId == n.live.value.binTxId
    ensures var x := MoveToHistory(n, Expired, e.now);
            x.live.None? && x.hist.Some? && x.hist.value.status == Expired && x.hist.value.mine
  {
    hide BookFits; hide HistoryFits; hide LiveSessionFits; hide WorkHeld; hide Persist; hide EnqueueRefund;
  }

  // ---- A refund that is nowhere --------------------------------------------

  /** No event from i to j builds the refund r. */
  predicate NotBuilt(ms: seq<Move>, i: nat, j: nat, r: Refund)
    requires i <= j <= |ms|
  {
    forall k | i <= k < j :: !(ms[k].ev.WorkDone? && ms[k].ev.w.DepositBuilt? && RefundOf(ms[k].ev.w.d) == r)
  }

  /** A refund that nothing names any more is never posted again: not by a sweep, a cancel, the
      operator or a later process. */
  lemma {:induction false} GoneForGood(ts: seq<Trace>, ms: seq<Move>, i: nat, j: nat, r: Refund)
    requires IsRun(ts, ms) && i <= j < |ts| && Gone(ts[i].n, r) && NotBuilt(ms, i, j, r)
    ensures Gone(ts[j].n, r) && forall t | t in ts[j].n.refund.tasks :: t.refund != r
    decreases j - i
  {
    hide Step; hide Initial; hide Chronicle; hide Account; hide Honest;
    if i < j {
      GoneForGood(ts, ms, i, j - 1, r);
      assert ts[j - 1 + 1] == Next(ts[j - 1], ms[j - 1].ev, ms[j - 1].e);
      GoneStaysGone(ts[j - 1].n, ms[j - 1].ev, ms[j - 1].e, r);
    }
  }

  /** A deposit rebuilt over another, once durable, leaves no trace of the other's refund exactly
      if no refund task, history entry or snapshot being written names it. */
  lemma RebuildForgets(n: NodeState, d: Deposit, e: Env, r: Refund)
    requires n.sess.Some? && e.diskOk && RefundOf(d) != r
    requires n.live.Some? && n.live.value.mine
    ensures Gone(ApplyDepositBuild(n, d, e), r)
            <==> && (forall t | t in n.refund.tasks :: t.refund != r)
                 && !(n.hist.Some? && n.hist.value.refundTx == Some(r))
                 && !(n.book.writing.Some? && n.book.writing.value.Some? && RecordNames(n.book.writing.value.value, r))
  {
    hide SessionIsTerminal;
    var m := ApplyDepositBuild(n, d, e);
    var s := Snapshot(AdoptBuild(n, d)).value;
    assert !RecordNames(s, r);
    assert Records(m.book) == {s} + Saved(n.book.writing);
    assert n.book.writing.Some? && n.book.writing.value.Some? ==> n.book.writing.value.value in Records(m.book);
  }
}
