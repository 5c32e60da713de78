/** What every run of the swap guarantees. */
module SwapTheorems {
  import opened Wrappers
  import opened SwapTypes
  import opened SwapSpec
  import opened SwapRun
  import opened SwapInvariant
  import opened SwapHandshake
  import opened SwapSafety
  import opened SwapDescent
  import opened SwapDebt

  // ---- One task at a time, never backwards ---------------------------------

  /** The guard and the queue agree in every reachable state. */
  lemma OneTaskInFlight(ts: seq<Trace>, ms: seq<Move>, i: nat)
    requires IsRun(ts, ms) && i < |ts|
    ensures var n := ts[i].n; |n.work| == if n.sess.Some? && n.sess.value.await then 1 else 0
  {
    hide IsRun; hide Good; hide WorkFits;
    RunInv(ts, ms, i);
  }

  /** A session still there was there before, and was no further. */
  predicate NoRewind(n: NodeState, m: NodeState) {
    m.sess.Some? ==> n.sess.Some? && n.sess.value.state <= m.sess.value.state
  }

  lemma PacketAdvances(n: NodeState, p: Packet, e: Env)
    ensures NoRewind(n, ProcessSwap(n, p, e))
  {
    hide SelfCancel; hide PruneSessions; hide Persist; hide Reply; hide MoveToHistory; hide FinishedMayTerminate;
    hide SetStatus;
    if n.sess.Some? {
      var m := n.(sess := Some(Progress(n.sess.value, e.now)));
      PruneDropsOnly(Persist(MoveToHistory(m, Finished, e.now).(sess := Some(m.sess.value.(state := CS_FINISHED)))));
    }
  }

  lemma PruneDropsOnly(n: NodeState)
    ensures PruneSessions(n).sess.Some? ==> PruneSessions(n).sess == n.sess
  {
  }

  lemma ScheduleSameState(n: NodeState, isClaim: bool, f: Failure, e: Env)
    requires n.sess.Some?
    ensures var r := ScheduleAfterFailure(n, isClaim, f, e); r.sess.Some? && r.sess.value.state == n.sess.value.state
    ensures var r := ScheduleDepositRetry(n, e); r.sess.Some? && r.sess.value.state == n.sess.value.state
    ensures var r := ScheduleClaimRetry(n, e); r.sess.Some? && r.sess.value.state == n.sess.value.state
  {
    hide PersistNow; hide RetryBackoff; hide PastFastWindow;
  }

  lemma BuildResultAdvances(n: NodeState, i: nat, w: WorkResult, e: Env)
    requires i < |n.work| && Answers(n.work[i], w) && !w.Sent?
    ensures NoRewind(n, FinishWork(n, i, w, e))
  {
    hide SelfCancel; hide ScheduleAfterFailure; hide PersistNow;
    var m := n.(work := n.work[..i] + n.work[i + 1..]);
    if m.sess.Some? && w.BuildFailed? { ScheduleSameState(ReleaseGuard(m), !n.work[i].DepositBuild?, w.f, e); }
  }

  lemma SendResultAdvances(n: NodeState, h: History, i: nat, ok: bool, e: Env)
    requires Inv(n, h) && Enabled(n, WorkDone(i, Sent(ok)))
    ensures NoRewind(n, FinishWork(n, i, Sent(ok), e))
  {
    hide OrderFits; hide BookFits; hide HistoryFits;
    hide ScheduleDepositRetry; hide ScheduleClaimRetry; hide Persist; hide Reply;
    var m := n.(work := n.work[..i] + n.work[i + 1..]);
    if m.sess.Some? { ScheduleSameState(ReleaseGuard(m), false, OtherErr, e); }
  }

  lemma RetriesAdvance(n: NodeState, onChain: bool, e: Env)
    ensures NoRewind(n, RetryFailedDepositBuilds(n, onChain, e))
    ensures NoRewind(n, RetryFailedClaimBuilds(n, onChain, e))
  {
    hide AdoptOrRepostDeposit; hide AdoptOrRepostClaim; hide BuildDue; hide PreConfirmed;
    if n.sess.Some? && PreCreated(n.sess.value) { DepositAdoptionAdvances(n, onChain, e); }
    if n.sess.Some? { ClaimAdoptionAdvances(n, onChain, e); }
  }

  lemma DepositAdoptionAdvances(n: NodeState, onChain: bool, e: Env)
    requires n.sess.Some? && PreCreated(n.sess.value)
    ensures NoRewind(n, AdoptOrRepostDeposit(n, onChain, e))
  {
    hide Persist; hide Reply;
  }

  lemma ClaimAdoptionAdvances(n: NodeState, onChain: bool, e: Env)
    requires n.sess.Some?
    ensures NoRewind(n, AdoptOrRepostClaim(n, onChain, e))
  {
    hide Persist; hide Reply;
  }

  lemma RefundAdvances(n: NodeState, j: nat, r: RefundResult, now: nat)
    requires j < |n.refund.tasks|
    ensures NoRewind(n, ApplyRefund(n, j, r, now))
  {
    hide PruneSessions; hide Persist; hide FailRefund; hide RecordRefundFailure; hide MarkRefunded; hide TakeRefund;
    hide EnterSecretHunt;
    PruneDropsOnly(Persist(MarkRefunded(TakeRefund(n, j), now)));
  }

  lemma WatchesAdvance(n: NodeState, i: nat, p: Probe, spent: bool, depositLive: bool, readable: bool, e: Env)
    ensures i < |n.watch.tasks| ==> NoRewind(n, ApplyWatch(n, i, p, spent, e))
    ensures NoRewind(n, ApplyOwnWatch(n, spent, depositLive, readable, e))
    ensures NoRewind(n, WatchCounterparty(n, i, e))
  {
    hide SelfCancel; hide Persist; hide TakeWatch; hide Watchable; hide EnterSecretHunt;
  }

  lemma StuckAdvances(n: NodeState, now: nat)
    ensures NoRewind(n, ClearStuckAwait(n, now))
  {
  }

  /** Within a process a step never takes the session back. */
  lemma StepAdvances(n: NodeState, h: History, ev: Event, e: Env)
    requires Inv(n, h) && Enabled(n, ev) && !ev.Crash?
    ensures NoRewind(n, Step(n, ev, e))
  {
    hide Inv; hide ProcessSwap; hide FinishWork; hide ApplyRefund; hide RetryFailedClaimBuilds;
    hide RetryFailedDepositBuilds; hide ApplyWatch; hide ApplyOwnWatch; hide WatchCounterparty; hide PruneSessions;
    hide ScanRefunds; hide ScanStoredRefunds; hide WatchStalled; hide GcStaleMineOrders; hide WatchOwnDeposit;
    hide PruneExpired; hide RemoteCancel; hide RemoteReject; hide CancelOrder; hide EnqueueRefund; hide FundingSpent;
    hide TouchOrder; hide Persist; hide PersistNow; hide WriterPop; hide WriterWrite; hide Restart; hide ClearStuckAwait;
    StuckAdvances(n, e.now);
    match ev {
      case PacketIn(p) => PacketAdvances(n, p, e);
      case WorkDone(i, w) =>
        if w.Sent? { SendResultAdvances(n, h, i, w.ok, e); } else { BuildResultAdvances(n, i, w, e); }
      case RetryClaims(c) => RetriesAdvance(n, c, e);
      case RetryDeposits(c) => RetriesAdvance(n, c, e);
      case RefundDone(j, r) => RefundAdvances(n, j, r, e.now);
      case WatchDone(k, p, spent) => WatchesAdvance(n, k, p, spent, false, false, e);
      case OwnDone(s, d, r) => WatchesAdvance(n, 0, Blind, s, d, r, e);
      case SweepWatch(bt) => WatchesAdvance(n, DepositWatchVanishThreshold(bt), Blind, false, false, false, e);
      case SweepPrune => PruneDropsOnly(n);
      case _ =>
    }
  }

  /** No event from i on starts a new process. */
  predicate NoCrash(ms: seq<Move>, i: nat, j: nat)
    requires i <= j <= |ms|
  {
    forall k | i <= k < j :: !ms[k].ev.Crash?
  }

  /** Between two crashes the session's state only grows, and a pruned session stays pruned. */
  lemma {:induction false} StateNeverGoesBack(ts: seq<Trace>, ms: seq<Move>, i: nat, j: nat)
    requires IsRun(ts, ms) && i <= j < |ts| && NoCrash(ms, i, j)
    ensures NoRewind(ts[i].n, ts[j].n)
    decreases j - i
  {
    hide Step; hide Inv; hide Initial; hide Chronicle;
    if i < j {
      StateNeverGoesBack(ts, ms, i, j - 1);
      RunInv(ts, ms, j - 1);
      assert ts[j - 1 + 1] == Next(ts[j - 1], ms[j - 1].ev, ms[j - 1].e);
      StepAdvances(ts[j - 1].n, ts[j - 1].h, ms[j - 1].ev, ms[j - 1].e);
    }
  }

  // ---- Nothing is stranded -------------------------------------------------

  /** In every reachable state a deposit that counts as sent, over a restart too, and was neither
      claimed nor refunded is held by a live session, which no prune removes; unless one of the
      losing steps came in between. */
  lemma NoStrandedDeposit(ts: seq<Trace>, ms: seq<Move>, i: nat)
    requires IsRun(ts, ms) && i < |ts| && ts[i].debt.owed.Some? && !ts[i].debt.lapsed
    ensures var n, d := ts[i].n, ts[i].debt.owed.value;
            && Secured(n, d) && n.sess.value.state != CS_FINISHED
            && !SessionIsTerminal(n) && PruneSessions(n) == n
            && ts[i].debt.seen == Some(d)
  {
    hide IsRun; hide SeenFits; hide SessionIsTerminal;
    RunAccounts(ts, ms, i);
    HeldIsKept(ts[i].n, ts[i].debt.owed.value);
  }

  /** No event from i to j settles the debt or loses hold of d. */
  ghost predicate Undisturbed(ts: seq<Trace>, ms: seq<Move>, i: nat, j: nat, d: Deposit)
    requires i <= j <= |ms| < |ts|
  {
    forall k | i <= k < j :: Enabled(ts[k].n, ms[k].ev) && !ConfirmsClaim(ts[k].n, ms[k].ev, ms[k].e)
                             && !ConfirmsRefund(ts[k].n, ms[k].ev) && !Loses(ts[k].n, d, ms[k].ev, ms[k].e)
  }

  /** A held deposit stays held over any stretch of a run without a losing step, restarts included. */
  lemma {:induction false} HeldOverRuns(ts: seq<Trace>, ms: seq<Move>, i: nat, j: nat, d: Deposit)
    requires IsRun(ts, ms) && i <= j < |ts| && Secured(ts[i].n, d) && Undisturbed(ts, ms, i, j, d)
    ensures Secured(ts[j].n, d)
    decreases j - i
  {
    hide Secured; hide Step; hide Inv; hide Initial; hide Chronicle; hide Account; hide Honest; hide Loses; hide ConfirmsClaim;
    if i < j {
      HeldOverRuns(ts, ms, i, j - 1, d);
      RunInv(ts, ms, j - 1);
      assert ts[j - 1 + 1] == Next(ts[j - 1], ms[j - 1].ev, ms[j - 1].e);
      LossIsExact(ts[j - 1].n, ts[j - 1].h, d, ms[j - 1].ev, ms[j - 1].e);
    }
  }

  // ---- What happens to the refund queue ------------------------------------

  /** The posting mark is backed by a task. */
  predicate PendingSound(n: NodeState) {
    n.refund.pending ==> n.refund.tasks != []
  }

  /** Nothing was posted. */
  predicate Tame(n: NodeState, m: NodeState) {
    m.refund.tasks == n.refund.tasks && (m.refund.pending ==> n.refund.pending)
  }

  /** No sweep or cancel has anything left to refund. */
  predicate NothingToRefund(n: NodeState) {
    && (n.sess.Some? ==> n.sess.value.state == CS_FINISHED && !n.sess.value.await)
    && (n.live.Some? ==> Settled(n.live.value))
  }

  predicate QueueKept(n: NodeState, m: NodeState) {
    && (PendingSound(n) ==> PendingSound(m))
    && (NothingToRefund(n) ==> Tame(n, m))
  }

  lemma EnqueueSound(n: NodeState, manual: bool, free: bool)
    ensures PendingSound(n) ==> PendingSound(EnqueueRefund(n, manual, free))
  {
    hide RollbackGate; hide DepositSent;
  }

  lemma CancelQueue(n: NodeState, e: Env)
    ensures QueueKept(n, RemoteCancel(n, e))
    ensures QueueKept(n, SelfCancel(n, e))
    ensures QueueKept(n, CancelOrder(n, e))
  {
    hide EnqueueRefund; hide PersistNow; hide Persist; hide MoveToHistory;
    EnqueueSound(SetStatus(n, Canceled, e.now), false, e.queueFree);
  }

  lemma SweepQueue(n: NodeState, watched: bool, confirmed: bool, e: Env)
    ensures QueueKept(n, ScanRefunds(n, e))
    ensures QueueKept(n, ScanStoredRefunds(n, watched, confirmed, e))
  {
    hide RollbackGate; hide Persist; hide SetStatus; hide RefundBackoffActive;
  }

  lemma HuntQueue(n: NodeState)
    requires n.sess.Some?
    ensures Tame(n, EnterSecretHunt(n))
  {
    hide Persist;
  }

  lemma PruneQueue(n: NodeState)
    ensures Tame(n, PruneSessions(n))
  {
  }

  /** A refund's end frees the mark and posts nothing. */
  lemma RefundDoneQueue(n: NodeState, j: nat, r: RefundResult, now: nat)
    requires j < |n.refund.tasks|
    ensures var m := ApplyRefund(n, j, r, now);
            m.refund.tasks == n.refund.tasks[..j] + n.refund.tasks[j + 1..] && !m.refund.pending
  {
    hide Persist; hide RollbackGate; hide SetStatus; hide RefundDelay; hide PruneSessions;
    var m := TakeRefund(n, j);
    PruneQueue(Persist(MarkRefunded(m, now)));
    if m.sess.Some? { HuntQueue(m); }
  }

  lemma PacketQueue(n: NodeState, p: Packet, e: Env)
    ensures QueueKept(n, ProcessSwap(n, p, e))
  {
    hide SelfCancel; hide PruneSessions; hide Persist; hide MoveToHistory; hide FinishedMayTerminate;
    hide OnHold; hide OnInit; hide OnCreateA; hide OnConfirmA; hide OnConfirmB; hide Dispatch;
    if n.sess.Some? {
      var m := n.(sess := Some(Progress(n.sess.value, e.now)));
      CancelQueue(m, e);
      PruneQueue(Persist(MoveToHistory(m, Finished, e.now).(sess := Some(m.sess.value.(state := CS_FINISHED)))));
    }
  }

  lemma WorkQueue(n: NodeState, i: nat, w: WorkResult, e: Env)
    requires i < |n.work| && Answers(n.work[i], w) && SingleFlight(n)
    ensures QueueKept(n, FinishWork(n, i, w, e))
  {
    hide SelfCancel; hide ScheduleAfterFailure; hide ApplyDepositBuild; hide ApplyClaimBuild;
    hide ApplyDepositSend; hide ApplyClaimSend;
    var m := n.(work := n.work[..i] + n.work[i + 1..]);
    CancelQueue(ReleaseGuard(m), e);
  }

  lemma WatchResultQueue(n: NodeState, i: nat, p: Probe, spent: bool, depositLive: bool, readable: bool, e: Env)
    ensures i < |n.watch.tasks| ==> QueueKept(n, ApplyWatch(n, i, p, spent, e))
    ensures QueueKept(n, ApplyOwnWatch(n, spent, depositLive, readable, e))
  {
    hide SelfCancel; hide EnterSecretHunt; hide Persist; hide OnConfirmB;
    if i < |n.watch.tasks| && n.sess.Some? {
      var m := Misses(TakeWatch(n, i), 0);
      CancelQueue(m, e);
      HuntQueue(m);
    }
  }

  /** Only a forced refund posts when there is nothing to refund. */
  predicate QueueSafe(n: NodeState, m: NodeState, forced: bool) {
    && (PendingSound(n) ==> PendingSound(m))
    && (NothingToRefund(n) && !forced ==> |m.refund.tasks| <= |n.refund.tasks|)
  }

  lemma KeptIsSafe(n: NodeState, m: NodeState, forced: bool)
    requires QueueKept(n, m)
    ensures QueueSafe(n, m, forced)
  {
    hide NothingToRefund;
  }

  /** The results of work come back. */
  predicate IsResult(ev: Event) {
    ev.PacketIn? || ev.WorkDone? || ev.RefundDone? || ev.WatchDone? || ev.OwnDone?
  }

  lemma ResultQueue(n: NodeState, ev: Event, e: Env)
    requires SingleFlight(n) && Enabled(n, ev) && IsResult(ev)
    ensures QueueSafe(n, Step(n, ev, e), false)
  {
    hide ProcessSwap; hide FinishWork; hide ApplyRefund; hide ApplyWatch; hide ApplyOwnWatch; hide NothingToRefund;
    hide QueueKept; hide SingleFlight;
    var m := Step(n, ev, e);
    if ev.RefundDone? {
      RefundDoneQueue(n, ev.j, ev.r, e.now);
    } else {
      match ev {
        case PacketIn(p) => PacketQueue(n, p, e);
        case WorkDone(i, w) => WorkQueue(n, i, w, e);
        case WatchDone(k, p, spent) => WatchResultQueue(n, k, p, spent, false, false, e);
        case OwnDone(s, d, r) => WatchResultQueue(n, |n.watch.tasks|, Blind, s, d, r, e);
      }
      KeptIsSafe(n, m, false);
    }
  }

  /** Sweeps, cancels and everything else. */
  lemma CalmQueue(n: NodeState, ev: Event, e: Env)
    requires Enabled(n, ev) && !IsResult(ev) && !ev.Crash?
    ensures QueueSafe(n, Step(n, ev, e), ev.RefundRpc?)
  {
    hide RetryFailedClaimBuilds; hide RetryFailedDepositBuilds; hide WatchCounterparty; hide PruneSessions;
    hide ScanRefunds; hide ScanStoredRefunds; hide SelfCancel; hide Stalled; hide GcStaleMineOrders; hide WatchOwnDeposit;
    hide PruneExpired; hide RemoteCancel; hide RemoteReject; hide CancelOrder; hide EnqueueRefund; hide FundingSpent;
    hide TouchOrder; hide Persist; hide PersistNow; hide WriterPop; hide WriterWrite; hide NothingToRefund;
    hide ClearStuckAwait;
    match ev {
      case SweepRefunds => SweepQueue(n, false, false, e);
      case SweepStored(watched, confirmed) => SweepQueue(n, watched, confirmed, e);
      case SweepPrune => PruneQueue(n);
      case SweepStalled => CancelQueue(n, e);
      case CancelPkt => CancelQueue(n, e);
      case CancelRpc => CancelQueue(n, e);
      case RefundRpc => EnqueueSound(n, true, e.queueFree);
      case _ =>
    }
  }

  lemma StepQueue(n: NodeState, h: History, ev: Event, e: Env)
    requires Inv(n, h) && Enabled(n, ev) && !ev.Crash?
    ensures QueueSafe(n, Step(n, ev, e), ev.RefundRpc?)
  {
    hide Step; hide Good; hide WorkFits; hide Enabled; hide QueueSafe;
    if IsResult(ev) { ResultQueue(n, ev, e); } else { CalmQueue(n, ev, e); }
  }

  lemma {:induction false} RunPendingSound(ts: seq<Trace>, ms: seq<Move>, i: nat)
    requires IsRun(ts, ms) && i < |ts|
    ensures PendingSound(ts[i].n)
  {
    hide Step; hide Inv; hide Chronicle;
    if i > 0 {
      RunPendingSound(ts, ms, i - 1);
      RunInv(ts, ms, i - 1);
      var t, v := ts[i - 1], ms[i - 1];
      assert ts[i - 1 + 1] == Next(t, v.ev, v.e);
      if v.ev.Crash? { RestartQueue(t.n, v.ev.onChain, v.e); } else { StepQueue(t.n, t.h, v.ev, v.e); }
    }
  }

  lemma RestartQueue(n: NodeState, onChain: bool, e: Env)
    ensures Step(n, Crash(onChain), e).refund == RefundQueue([], false, 0, 0)
  {
    hide RestoreRecord; hide ReconcileUnconfirmed;
  }

  /** ... and every refund sweep hunts, waits out a backoff, finds a refund task out, posts
      exactly that deposit's refund, or is turned away by a full queue. */
  lemma OwedRefundIsSwept(ts: seq<Trace>, ms: seq<Move>, i: nat, e: Env)
    requires IsRun(ts, ms) && i < |ts| && ts[i].debt.owed.Some? && !ts[i].debt.lapsed
    ensures var n, d := ts[i].n, ts[i].debt.owed.value;
            var m := ScanRefunds(n, e);
            || (n.sess.Some? && n.sess.value.secretHunt)
            || RefundBackoffActive(n, e.now)
            || (n.refund.pending && n.refund.tasks != [])
            || m.refund.tasks == n.refund.tasks + [RefundTask(RefundOf(d), false, true)]
            || !e.queueFree
  {
    hide IsRun; hide SeenFits;
    RunAccounts(ts, ms, i);
    RunPendingSound(ts, ms, i);
  }

  // ---- Claimed means never refunded ----------------------------------------

  lemma ClaimedHasNothing(n: NodeState, h: History)
    requires Inv(n, h) && h.claimed
    ensures NothingToRefund(n)
  {
  }

  lemma ClaimedStays(n: NodeState, h: History, ev: Event, e: Env, m: NodeState)
    requires Enabled(n, ev) && h.claimed && !ev.Crash?
    ensures Chronicle(h, n, ev, e, m).claimed
  {
  }

  /** Nobody asks for a refund by hand between i and j. */
  predicate NoManualRefund(ms: seq<Move>, i: nat, j: nat)
    requires i <= j <= |ms|
  {
    forall k | i <= k < j :: !ms[k].ev.RefundRpc?
  }

  /** After a claim broadcast was applied no sweep, cancel or packet posts a refund again. */
  lemma {:induction false} ClaimedNeverRefunds(ts: seq<Trace>, ms: seq<Move>, i: nat, j: nat)
    requires IsRun(ts, ms) && i <= j < |ts| && ts[i].h.claimed
    requires NoCrash(ms, i, j) && NoManualRefund(ms, i, j)
    ensures ts[j].h.claimed && |ts[j].n.refund.tasks| <= |ts[i].n.refund.tasks|
    decreases j - i
  {
    hide Step; hide Inv; hide Chronicle; hide NothingToRefund;
    if i < j {
      ClaimedNeverRefunds(ts, ms, i, j - 1);
      RunInv(ts, ms, j - 1);
      var t, v := ts[j - 1], ms[j - 1];
      assert ts[j - 1 + 1] == Next(t, v.ev, v.e);
      ClaimedHasNothing(t.n, t.h);
      StepQueue(t.n, t.h, v.ev, v.e);
      ClaimedStays(t.n, t.h, v.ev, v.e, Step(t.n, v.ev, v.e));
    }
  }

  /** A snapshot taken after the claim restores to a swap that owes no refund; while the
      order still reads finished, it restores as history. */
  lemma ClaimedRestoresAsHistory(ts: seq<Trace>, ms: seq<Move>, i: nat, b: Book, now: nat)
    requires IsRun(ts, ms) && i < |ts| && ts[i].h.claimed && ts[i].h.booked
    requires b.disk == Snapshot(ts[i].n)
    ensures var m := RestoreRecord(b, now);
            && m.sess.None? && NothingToRefund(m)
            && (ts[i].n.live.Some? && ts[i].n.live.value.mine && ts[i].n.live.value.status == Finished
                ==> m.live.None? && m.hist.Some?)
  {
    hide IsRun; hide WorkHeld; hide BookFits; hide HistoryFits; hide Counts; hide CarriesIntent; hide SessionFits;
    hide RestoreSession;
    RunInv(ts, ms, i);
  }

  // ---- The taker's one deposit ---------------------------------------------

  /** All deposit bytes a taker ever hands to its wallet are the same, over crashes and restores,
      as long as every restored session carried the intended deposit. */
  lemma TakerSendsOneDeposit(ts: seq<Trace>, ms: seq<Move>, i: nat, d: Deposit, d': Deposit)
    requires IsRun(ts, ms) && i < |ts| && !ts[i].h.maker && !ts[i].h.astray
    requires d in ts[i].h.handed && d' in ts[i].h.handed
    ensures d == d' && ts[i].h.intent == Some(d)
    ensures ts[i].n.sess.Some? ==> ts[i].n.sess.value.deposit == d
  {
    hide IsRun; hide WorkHeld; hide BookFits; hide OrderFits; hide SessionFits; hide Counts;
    RunInv(ts, ms, i);
  }

  /** A restarted session carries the intended deposit exactly if the record on disk does and
      is not filed away. */
  lemma RestartCarriesIntent(n: NodeState, h: History, onChain: bool, now: nat)
    requires Inv(n, h) && h.intent.Some?
    ensures var m, disk := Restart(n, onChain, now), n.book.disk;
            && (m.sess.Some? && m.sess.value.deposit == h.intent.value
                <==> disk.Some? && disk.value.sess.Some? && !FiledAway(disk.value)
                     && disk.value.sess.value.deposit == h.intent.value)
            && (m.sess.Some? && m.sess.value.deposit != h.intent.value <==> Strays(disk, h.intent))
  {
    hide FiledAway;
  }

  /** A snapshot that no durable write overtook always does. */
  lemma OrderedWritesCarry(ts: seq<Trace>, ms: seq<Move>, i: nat)
    requires IsRun(ts, ms) && i < |ts|
    ensures !ts[i].n.book.overlap ==> !ts[i].h.astray
    ensures !ts[i].h.maker && Clean(ts[i].n.book) ==> !ts[i].h.miscounted
  {
    hide IsRun; hide WorkHeld; hide BookFits; hide OrderFits; hide LiveSessionFits;
    RunInv(ts, ms, i);
  }

  /** Bytes go to the wallet only once their intent, with the refund, is durable. */
  lemma IntentBeforeBytes(ts: seq<Trace>, ms: seq<Move>, i: nat)
    requires IsRun(ts, ms) && i < |ms| && ms[i].ev.WorkRun?
    ensures var n := ts[i].n;
            ms[i].ev.i < |n.work| && n.work[ms[i].ev.i].DepositSend? ==>
              && ts[i].h.intent == Some(n.work[ms[i].ev.i].out)
              && n.sess.Some? && n.sess.value.deposit == n.work[ms[i].ev.i].out
  {
    hide Good; hide Initial; hide Next;
    RunInv(ts, ms, i);
  }

  /** Per process at most ten broadcasts of a taker's deposit fail; over all processes too, as
      long as every restored session counted the failures there had been. */
  lemma TakerFailuresCapped(ts: seq<Trace>, ms: seq<Move>, i: nat)
    requires IsRun(ts, ms) && i < |ts| && !ts[i].h.maker
    ensures ts[i].h.runFails <= BROADCAST_REPOST_MAX
    ensures !ts[i].h.miscounted ==> ts[i].h.fails <= BROADCAST_REPOST_MAX
  {
    hide IsRun; hide WorkHeld; hide BookFits; hide OrderFits; hide LiveSessionFits;
    RunInv(ts, ms, i);
  }

  /** A restarted session still before its confirmation counts the failures exactly if the
      retries on its record do. */
  lemma RestartCounts(n: NodeState, h: History, onChain: bool, now: nat)
    requires Inv(n, h) && Returns(n.book.disk)
    ensures var m, s := Restart(n, onChain, now), n.book.disk.value.sess.value;
            && m.sess.Some? && PreCreated(m.sess.value) == PreCreated(s)
            && (Counts(m.sess.value, h.fails)
                <==> (PreCreated(s) ==> h.fails <= if s.deposit == NO_DEPOSIT then 0 else s.pace.depositRetries))
            && (Undercounts(n.book.disk, h.fails) <==> !Counts(m.sess.value, h.fails))
  {
    NotFinished(n, h);
    hide FiledAway; hide BookFits; hide HistoryFits; hide LiveSessionFits; hide OrderFits;
  }

  // ---- Durable absence -----------------------------------------------------

  lemma ThresholdIsPatient(blockTimeSec: int)
    ensures 3 <= DepositWatchVanishThreshold(blockTimeSec) <= 12
    ensures var t := DepositWatchVanishThreshold(blockTimeSec);
            blockTimeSec > 0 && t < 12 ==> 60 * (t - 1) >= 2 * blockTimeSec
  {
  }

  /** Every probe that is out waits for a countdown of 3 to 12 rounds. */
  predicate PatientTasks(n: NodeState) {
    forall t | t in n.watch.tasks :: 3 <= t.threshold <= 12
  }

  lemma CounterpartyPatient(n: NodeState, bt: int, e: Env)
    requires PatientTasks(n)
    ensures PatientTasks(WatchCounterparty(n, DepositWatchVanishThreshold(bt), e))
  {
    hide Watchable; hide RollbackGate; hide DepositWatchVanishThreshold;
    ThresholdIsPatient(bt);
  }

  lemma StepPatient(n: NodeState, ev: Event, e: Env)
    requires Enabled(n, ev) && PatientTasks(n)
    ensures PatientTasks(Step(n, ev, e))
  {
    var m := Step(n, ev, e);
    if ev.SweepWatch? {
      CounterpartyPatient(n, ev.blockTime, e);
    } else {
      WatchTasksShrink(n, ev, e);
    }
  }

  /** Nothing but the watch sweep adds a probe. */
  lemma WatchTasksShrink(n: NodeState, ev: Event, e: Env)
    requires Enabled(n, ev) && !ev.SweepWatch?
    ensures forall t | t in Step(n, ev, e).watch.tasks :: t in n.watch.tasks
  {
    hide FinishWork; hide ProcessSwap; hide ApplyRefund; hide ApplyWatch; hide ApplyOwnWatch; hide ClearStuckAwait;
    hide ScanRefunds; hide ScanStoredRefunds; hide WatchStalled; hide GcStaleMineOrders; hide PruneExpired;
    hide RemoteCancel; hide RemoteReject; hide CancelOrder; hide EnqueueRefund; hide FundingSpent; hide TouchOrder;
    hide Persist; hide PersistNow; hide WriterPop; hide WriterWrite; hide RetryFailedClaimBuilds; hide RetryFailedDepositBuilds;
    match ev
    case PacketIn(p) => PacketWatches(n, p, e);
    case WorkDone(i, w) => WorkWatches(n, i, w, e);
    case RefundDone(j, r) => RefundWatches(n, j, r, e.now);
    case WatchDone(k, p, spent) => ProbeWatches(n, k, p, spent, e);
    case OwnDone(s, d, r) => OwnWatches(n, s, d, r, e);
    case _ =>
  }

  lemma PacketWatches(n: NodeState, p: Packet, e: Env)
    ensures ProcessSwap(n, p, e).watch.tasks == n.watch.tasks
  {
    hide OnHold; hide OnInit; hide OnCreateA; hide OnConfirmA; hide OnConfirmB; hide SelfCancel; hide Dispatch;
    hide Persist; hide MoveToHistory; hide FinishedMayTerminate; hide SessionIsTerminal;
  }

  lemma WorkWatches(n: NodeState, i: nat, w: WorkResult, e: Env)
    requires Enabled(n, WorkDone(i, w))
    ensures FinishWork(n, i, w, e).watch.tasks == n.watch.tasks
  {
    hide ApplyDepositBuild; hide ApplyClaimBuild; hide SelfCancel; hide ScheduleAfterFailure; hide ApplyDepositSend; hide ApplyClaimSend;
  }

  lemma RefundWatches(n: NodeState, j: nat, r: RefundResult, now: nat)
    requires j < |n.refund.tasks|
    ensures ApplyRefund(n, j, r, now).watch.tasks == n.watch.tasks
  {
    hide Persist; hide MarkRefunded; hide FailRefund; hide RecordRefundFailure; hide EnterSecretHunt; hide SessionIsTerminal;
  }

  lemma ProbeWatches(n: NodeState, k: nat, p: Probe, spent: bool, e: Env)
    requires k < |n.watch.tasks|
    ensures ApplyWatch(n, k, p, spent, e).watch.tasks == n.watch.tasks[..k] + n.watch.tasks[k + 1..]
  {
    hide SelfCancel; hide EnterSecretHunt; hide Watchable;
  }

  lemma OwnWatches(n: NodeState, spender: bool, depositLive: bool, readable: bool, e: Env)
    ensures ApplyOwnWatch(n, spender, depositLive, readable, e).watch.tasks == n.watch.tasks
  {
    hide Persist; hide OnConfirmB;
  }

  lemma {:induction false} RunPatient(ts: seq<Trace>, ms: seq<Move>, i: nat)
    requires IsRun(ts, ms) && i < |ts|
    ensures PatientTasks(ts[i].n)
  {
    hide Step; hide Chronicle; hide Account; hide Honest; hide PatientTasks;
    if i == 0 {
      assert PatientTasks(ts[0].n) by { InitialPatient(ts[0]); }
    } else {
      RunPatient(ts, ms, i - 1);
      assert Possible(ts[i - 1], ms[i - 1].ev, ms[i - 1].e) && ts[i - 1 + 1] == Next(ts[i - 1], ms[i - 1].ev, ms[i - 1].e);
      StepPatient(ts[i - 1].n, ms[i - 1].ev, ms[i - 1].e);
    }
  }

  lemma InitialPatient(t: Trace)
    requires Initial(t)
    ensures PatientTasks(t.n)
  {
  }

  /** Applied watch probes between i and j. */
  function Probes(ms: seq<Move>, i: nat, j: nat): nat
    requires i <= j <= |ms|
    decreases j - i
  {
    if i == j then 0 else Probes(ms, i, j - 1) + (if ms[j - 1].ev.WatchDone? then 1 else 0)
  }

  /** No round between i and j that ends a countdown: each probe applied says absent. */
  ghost predicate Unbroken(ts: seq<Trace>, ms: seq<Move>, i: nat, j: nat)
    requires i <= j <= |ms| < |ts|
  {
    forall k | i <= k < j :: !BreaksAbsence(ts[k].n, ms[k].ev) && (ms[k].ev.WatchDone? ==> ms[k].ev.probe.Absent?)
  }

  /** The absence count of a state is a window of that many consecutive absent probes before it. */
  lemma {:induction false} AbsenceIsAWindow(ts: seq<Trace>, ms: seq<Move>, j: nat) returns (i: nat)
    requires IsRun(ts, ms) && j < |ts|
    ensures i <= j && Unbroken(ts, ms, i, j) && Probes(ms, i, j) >= ts[j].h.absent
  {
    hide Step; hide Initial; hide Watchable;
    if j == 0 {
      i := 0;
      InitialAbsent(ts[0]);
    } else {
      i := AbsenceIsAWindow(ts, ms, j - 1);
      var t, v := ts[j - 1], ms[j - 1];
      assert ts[j - 1 + 1] == Next(t, v.ev, v.e);
      if BreaksAbsence(t.n, v.ev) { i := j; }
    }
  }

  lemma InitialAbsent(t: Trace)
    requires Initial(t)
    ensures t.h.absent == 0
  {
  }

  /** Applying a watch probe touches the order only on the round that completes the countdown. */
  lemma OnlyDecisiveProbesCancel(n: NodeState, k: nat, p: Probe, spent: bool, e: Env)
    requires k < |n.watch.tasks| && !Decisive(n, k, p)
    ensures var m := ApplyWatch(n, k, p, spent, e); m.live == n.live && m.hist == n.hist && m.refund == n.refund
  {
    hide SelfCancel; hide EnterSecretHunt;
  }

  /** A cancel from the deposit watch is preceded by `threshold` consecutive absent probes, the
      last of them the one being applied, with no visible, blind or skipped round between. */
  lemma VanishNeedsDurableAbsence(ts: seq<Trace>, ms: seq<Move>, j: nat) returns (i: nat)
    requires IsRun(ts, ms) && j < |ms| && ms[j].ev.WatchDone? && ms[j].ev.k < |ts[j].n.watch.tasks|
    requires ts[j + 1].n.live != ts[j].n.live || ts[j + 1].n.hist != ts[j].n.hist
    ensures i <= j && Unbroken(ts, ms, i, j) && ms[j].ev.probe.Absent?
    ensures Probes(ms, i, j) + 1 >= ts[j].n.watch.tasks[ms[j].ev.k].threshold >= 3
  {
    hide Initial; hide ApplyWatch; hide Chronicle; hide Good; hide Account; hide Honest;
    RunPatient(ts, ms, j);
    i := AbsenceIsAWindow(ts, ms, j);
    var t, v := ts[j], ms[j];
    assert ts[j + 1] == Next(t, v.ev, v.e);
    if !Decisive(t.n, v.ev.k, v.ev.probe) { OnlyDecisiveProbesCancel(t.n, v.ev.k, v.ev.probe, v.ev.spent, v.e); }
    RunInv(ts, ms, j);
    MissesBelow(t.n, t.h);
  }

  /** A taker whose own deposit is proven spent on that round hunts the secret and cancels nothing. */
  lemma SpentDepositIsHunted(n: NodeState, k: nat, p: Probe, e: Env)
    requires k < |n.watch.tasks| && Decisive(n, k, p)
    requires n.watch.tasks[k].decisive && !n.sess.value.isMaker
    ensures var m := ApplyWatch(n, k, p, true, e);
            && m.sess.Some? && m.sess.value.secretHunt && m.live == n.live && m.hist == n.hist
            && m.refund.tasks == n.refund.tasks
            && ScanRefunds(m, e) == m
  {
    hide Persist;
  }

  // ---- The order of the tick -----------------------------------------------

  /** A built deposit whose broadcast is due for a retry. */
  predicate RepostDue(n: NodeState, now: nat) {
    && n.sess.Some? && !n.sess.value.await
    && n.sess.value.deposit.txid != Empty && n.sess.value.deposit.hex != Empty
    && PreCreated(n.sess.value) && !DepositSent(n)
    && 0 < n.sess.value.pace.depositRetryAt <= now
  }

  /** The retry sweep, which the tick runs first, keeps the watchdog of the same tick from
      cancelling a stalled session exactly when it reposts: not when it adopts a deposit found
      on the chain, meets the cap, or has no wallet. */
  lemma RepostStandsWatchdogDown(n: NodeState, onChain: bool, e: Env)
    requires Stalled(n, e.now) && RepostDue(n, e.now)
    ensures var m := RetryFailedDepositBuilds(n, onChain, e);
            Stalled(m, e.now)
            <==> !(e.walletOk && !onChain && n.sess.value.pace.depositRetries < BROADCAST_REPOST_MAX)
  {
    hide Persist; hide PersistNow;
  }

  /** The session takes a spender: it has not claimed and no worker is out. */
  predicate TakesSpender(n: NodeState) {
    n.sess.Some? && n.sess.value.state < CS_CONFIRMED_B && !n.sess.value.await
  }

  predicate ClaimStaged(n: NodeState) {
    n.sess.Some? && n.sess.value.peer.payTx && n.work != [] && n.work[|n.work| - 1] == ClaimBuild(false)
  }

  /** A spender the own-deposit watch found starts the claim exactly if the mempool was readable in
      that round, the session takes it and the queue has room; in every other round it leaves no
      task, and unless only the queue was full it leaves no trace but the returned mark. */
  lemma SpenderStartsClaim(n: NodeState, depositLive: bool, readable: bool, e: Env)
    ensures var m := ApplyOwnWatch(n, true, depositLive, readable, e);
            && (readable && TakesSpender(n) && e.queueFree <==> m.work != n.work)
            && (m.work != n.work ==> ClaimStaged(m))
            && (!(readable && TakesSpender(n)) ==> m == n.(watch := n.watch.(ownPending := false)))
  {
  }
}
