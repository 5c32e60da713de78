/** A deposit that is out is held until it is claimed or refunded, unless one of a few steps,
    all visible beforehand, loses it. */
module SwapDebt {
  import opened Wrappers
  import opened SwapTypes
  import opened SwapSpec
  import opened SwapRun
  import opened SwapInvariant
  import opened SwapSafety
  import opened SwapDescent

  /** The session holds the deposit, counts it as sent, and builds no other over it. */
  predicate Secured(n: NodeState, d: Deposit) {
    && n.sess.Some? && n.sess.value.deposit == d && WellBuilt(d)
    && !n.sess.value.refundDone && n.sess.value.state < CS_CONFIRMED_A
    && (n.sess.value.state >= CS_CREATED_A || DepositSent(n))
    && DepositBuild !in n.work
  }

  /** What Secured looks at is the same. */
  predicate SameHold(n: NodeState, m: NodeState) {
    && n.sess.Some? && m.sess.Some? && m.sess.value.deposit == n.sess.value.deposit
    && m.sess.value.refundDone == n.sess.value.refundDone
    && (m.sess.value.state == n.sess.value.state || n.sess.value.state < m.sess.value.state < CS_CREATED_A)
    && DepositSent(m) == DepositSent(n)
    && (DepositBuild in m.work ==> DepositBuild in n.work)
  }

  lemma SameHoldSecures(n: NodeState, m: NodeState, d: Deposit)
    requires Secured(n, d) && SameHold(n, m)
    ensures Secured(m, d)
  {
  }

  predicate Exposed(n: NodeState) {
    n.sess.Some? && n.sess.value.state < CS_CREATED_A
  }

  // ---- Cancels, sweeps and expiry ------------------------------------------

  lemma CancelSecures(n: NodeState, d: Deposit, e: Env)
    requires Secured(n, d)
    ensures Secured(RemoteCancel(n, e), d) <==> !(Exposed(n) && Shelves(n, e))
    ensures Secured(SelfCancel(n, e), d) <==> !(Exposed(n) && e.netOk && Shelves(n, e))
    ensures Secured(CancelOrder(n, e), d)
  {
    hide Persist; hide PersistNow; hide EnqueueRefund;
  }

  lemma HeldIsKept(n: NodeState, d: Deposit)
    requires Secured(n, d)
    ensures !SessionIsTerminal(n) && PruneSessions(n) == n
  {
  }

  lemma SweepsSecure(n: NodeState, d: Deposit, watched: bool, confirmed: bool, bt: nat, e: Env)
    requires Secured(n, d)
    ensures Secured(ScanRefunds(n, e), d) && Secured(ScanStoredRefunds(n, watched, confirmed, e), d)
    ensures Secured(GcStaleMineOrders(n, watched, e.now), d) && Secured(WatchCounterparty(n, bt, e), d)
    ensures Secured(WatchOwnDeposit(n, watched, e), d) && Secured(ClearStuckAwait(n, e.now), d)
  {
    hide PostRefund; hide SettleWatchedRefund; hide RefundBackoffActive; hide Watchable; hide RollbackGate;
  }

  lemma BookSecures(n: NodeState, d: Deposit, e: Env)
    requires Secured(n, d)
    ensures Secured(Persist(n), d) && Secured(PersistNow(n, e.diskOk), d) && Secured(Reply(n, e), d)
    ensures Secured(WriterPop(n), d) && Secured(WriterWrite(n, e.diskOk), d)
  {
    hide Persist; hide PersistNow; hide WriterPop; hide WriterWrite;
  }

  lemma DecisionsSecure(n: NodeState, d: Deposit, expired: bool, e: Env)
    requires Secured(n, d)
    ensures Secured(RemoteReject(n, e), d) && Secured(FundingSpent(n, e), d) && Secured(TouchOrder(n, e.now), d)
    ensures Secured(EnqueueRefund(n, true, e.queueFree), d)
    ensures Secured(PruneExpired(n, expired, e.now), d)
            <==> !(Exposed(n) && expired && n.live.Some? && !InSwap(n) && n.live.value.status in {Created, Open})
  {
    hide Persist; hide EnqueueRefund;
  }

  lemma StalledSecures(n: NodeState, d: Deposit, e: Env)
    requires Secured(n, d)
    ensures Secured(WatchStalled(n, e), d) <==> !(Exposed(n) && Stalled(n, e.now) && e.netOk && Shelves(n, e))
  {
    hide SelfCancel; hide Stalled;
    CancelSecures(n, d, e);
  }

  // ---- Packets -------------------------------------------------------------

  lemma StagesSecure(n: NodeState, d: Deposit, given: bool, keyGiven: bool, e: Env)
    requires Secured(n, d) && !n.sess.value.await
    ensures Secured(OnConfirmA(n, given, e), d) && Secured(OnConfirmB(n, given, e), d)
    ensures Secured(OnHold(n, given, e), d) && Secured(OnInit(n, given, e), d)
    ensures Secured(OnCreateA(n, keyGiven, e), d) <==> !(Exposed(n) && keyGiven && n.sess.value.isMaker && e.queueFree)
  {
    hide Persist; hide Reply;
  }

  lemma CreateBSecures(n: NodeState, h: History, d: Deposit, given: bool, keyGiven: bool, e: Env)
    requires Inv(n, h) && Secured(n, d) && !n.sess.value.await
    ensures Secured(OnCreateB(n, given, keyGiven, e), d)
            <==> !(Exposed(n) && !given && !n.sess.value.isMaker && e.netOk && Shelves(n, e))
  {
    hide SelfCancel; hide BookFits; hide HistoryFits; hide OrderFits;
    CancelSecures(n, d, e);
  }

  lemma FinishedSecures(n: NodeState, h: History, d: Deposit, e: Env)
    requires Inv(n, h) && Secured(n, d)
    ensures OnFinished(n, e) == n
  {
    hide BookFits; hide HistoryFits; hide LiveSessionFits;
  }

  lemma PacketSecures(n: NodeState, h: History, d: Deposit, p: Packet, e: Env)
    requires Inv(n, h) && Secured(n, d)
    ensures Secured(ProcessSwap(n, p, e), d) <==> !Loses(n, d, PacketIn(p), e)
  {
    hide Inv; hide OnHold; hide OnInit; hide OnCreateA; hide OnCreateB; hide OnConfirmA; hide OnConfirmB; hide OnFinished;
    hide Shelves;
    var m := n.(sess := Some(Progress(n.sess.value, e.now)));
    assert SameHold(n, m);
    SameHoldSecures(n, m, d);
    assert Shelves(m, e) == Shelves(n, e) by { ShelvesSame(n, m, e); }
    ProgressInv(n, h, e.now);
    if !m.sess.value.await {
      match p
      case HoldPkt(ok) => StagesSecure(m, d, ok, true, e);
      case InitPkt(ok) => StagesSecure(m, d, ok, true, e);
      case CreateAPkt(k) => StagesSecure(m, d, true, k, e);
      case CreateBPkt(x, k) => CreateBSecures(m, h, d, x, k, e);
      case ConfirmAPkt(x) => StagesSecure(m, d, x, true, e);
      case ConfirmBPkt(x) => StagesSecure(m, d, x, true, e);
      case FinishedPkt => FinishedSecures(m, h, d, e);
    }
  }

  lemma ShelvesSame(n: NodeState, m: NodeState, e: Env)
    requires m.live == n.live
    ensures Shelves(m, e) == Shelves(n, e)
  {
  }

  lemma ProgressInv(n: NodeState, h: History, now: nat)
    requires Inv(n, h) && n.sess.Some?
    ensures Inv(n.(sess := Some(Progress(n.sess.value, now))), h)
  {
    hide BookFits; hide HistoryFits; hide OrderFits;
    SessionKeeps(n, h, Progress(n.sess.value, now));
  }

  // ---- Results -------------------------------------------------------------

  lemma RetriesSecure(n: NodeState, h: History, d: Deposit, onChain: bool, e: Env)
    requires Inv(n, h) && Secured(n, d)
    ensures RetryFailedDepositBuilds(n, onChain, e) == n
  {
    hide BookFits; hide HistoryFits; hide OrderFits; hide BuildDue; hide AdoptOrRepostDeposit;
  }

  lemma ClaimRetriesSecure(n: NodeState, d: Deposit, onChain: bool, e: Env)
    requires Secured(n, d) && !AdoptsClaim(n, RetryClaims(onChain), e)
    ensures Secured(RetryFailedClaimBuilds(n, onChain, e), d)
  {
    hide ConfirmClaim;
  }

  lemma SchedulesSecure(n: NodeState, d: Deposit, isClaim: bool, f: Failure, e: Env)
    requires Secured(n, d)
    ensures Secured(ScheduleAfterFailure(n, isClaim, f, e), d)
    ensures Secured(ScheduleDepositRetry(n, e), d) && Secured(ScheduleClaimRetry(n, e), d)
  {
    hide PersistNow; hide RetryBackoff; hide PastFastWindow;
  }

  lemma ReleaseSecures(n: NodeState, d: Deposit)
    requires Secured(n, d)
    ensures Secured(ReleaseGuard(n), d)
  {
  }

  lemma ClaimWorkSecures(n: NodeState, d: Deposit, makerSide: bool, c: Claim, f: Failure, e: Env)
    requires Secured(n, d)
    ensures Secured(ApplyClaimBuild(n, makerSide, c, e), d) && Secured(ApplyClaimSend(n, false, e), d)
    ensures Secured(ApplyClaimFailure(n, makerSide, f, e), d)
            <==> !(f.SelfCancelErr? && makerSide && Exposed(n) && e.netOk && Shelves(n, e))
  {
    hide PersistNow; hide SelfCancel; hide ScheduleAfterFailure; hide ScheduleClaimRetry;
    var m := ReleaseGuard(n);
    ReleaseSecures(n, d);
    SchedulesSecure(m, d, true, f, e);
    CancelSecures(m, d, e);
  }

  lemma SendSecures(n: NodeState, d: Deposit, ok: bool, e: Env)
    requires Secured(n, d)
    ensures Secured(ApplyDepositSend(n, ok, e), d)
  {
    hide Persist; hide Reply; hide ScheduleDepositRetry;
    ReleaseSecures(n, d);
    SchedulesSecure(ReleaseGuard(n), d, false, OtherErr, e);
  }

  lemma WorkSecures(n: NodeState, h: History, d: Deposit, i: nat, w: WorkResult, e: Env)
    requires Inv(n, h) && Secured(n, d) && Enabled(n, WorkDone(i, w)) && !ConfirmsClaim(n, WorkDone(i, w), e)
    ensures Secured(FinishWork(n, i, w, e), d) <==> !Loses(n, d, WorkDone(i, w), e)
  {
    hide Inv; hide ApplyClaimBuild; hide ApplyClaimFailure; hide ApplyClaimSend; hide ApplyDepositSend; hide Shelves;
    var t, m := n.work[i], n.(work := n.work[..i] + n.work[i + 1..]);
    assert SameHold(n, m);
    SameHoldSecures(n, m, d);
    ShelvesSame(n, m, e);
    match w
    case DepositBuilt(_) => assert false;
    case ClaimBuilt(c) => ClaimWorkSecures(m, d, t.makerSide, c, OtherErr, e);
    case BuildFailed(f) => ClaimWorkSecures(m, d, t.makerSide, NO_CLAIM, f, e);
    case Sent(ok) =>
      if t.DepositSend? { SendSecures(m, d, ok, e); } else { ClaimWorkSecures(m, d, true, NO_CLAIM, OtherErr, e); }
  }

  lemma RefundSecures(n: NodeState, d: Deposit, j: nat, r: RefundResult, e: Env)
    requires Secured(n, d) && j < |n.refund.tasks| && !r.RefundSent?
    ensures Secured(ApplyRefund(n, j, r, e.now), d)
  {
    hide Persist; hide RollbackGate; hide RefundDelay; hide CompleteRefund;
  }

  lemma WatchSecures(n: NodeState, d: Deposit, i: nat, p: Probe, spent: bool, e: Env)
    requires Secured(n, d) && i < |n.watch.tasks|
    ensures Secured(ApplyWatch(n, i, p, spent, e), d)
  {
    hide SelfCancel; hide Persist;
    CancelSecures(Misses(TakeWatch(n, i), 0), d, e);
  }

  lemma OwnWatchSecures(n: NodeState, d: Deposit, spender: bool, depositLive: bool, readable: bool, e: Env)
    requires Secured(n, d)
    ensures Secured(ApplyOwnWatch(n, spender, depositLive, readable, e), d)
  {
    hide Persist;
  }

  // ---- Restart -------------------------------------------------------------

  lemma RestoredHold(n: NodeState, h: History, onChain: bool, now: nat)
    requires Inv(n, h) && RecordOwes(n.book.disk, onChain)
    ensures Secured(Restart(n, onChain, now), n.book.disk.value.sess.value.deposit)
  {
    hide HistoryFits; hide OrderFits; hide LiveSessionFits; hide Counts; hide CarriesIntent;
  }

  /** A restart holds the deposit exactly if the record says so, the chain helping it. */
  lemma RestartSecures(n: NodeState, h: History, d: Deposit, onChain: bool, now: nat)
    requires Inv(n, h)
    ensures Secured(Restart(n, onChain, now), d)
            <==> RecordOwes(n.book.disk, onChain) && n.book.disk.value.sess.value.deposit == d
  {
    if RecordOwes(n.book.disk, onChain) {
      RestoredHold(n, h, onChain, now);
    } else {
      hide HistoryFits; hide OrderFits; hide LiveSessionFits; hide Counts; hide CarriesIntent; hide FiledAway;
    }
  }

  // ---- The step ------------------------------------------------------------

  /** Sweeps, cancels and expiry, which may lose the deposit. */
  predicate MayShelve(ev: Event) {
    ev.SweepStalled? || ev.SweepExpired? || ev.CancelPkt?
  }

  lemma ShelvingSecures(n: NodeState, d: Deposit, ev: Event, e: Env)
    requires Secured(n, d) && Enabled(n, ev) && MayShelve(ev)
    ensures Secured(Step(n, ev, e), d) <==> !Loses(n, d, ev, e)
  {
    hide WatchStalled; hide PruneExpired; hide RemoteCancel; hide Shelves; hide Stalled; hide InSwap; hide Secured;
    ExposedIs(n);
    HoldsSession(n, d);
    StalledSecures(n, d, e);
    DecisionsSecure(n, d, if ev.SweepExpired? then ev.expired else true, e);
    CancelSecures(n, d, e);
  }

  predicate IsHarmless(ev: Event) {
    !IsResult(ev) && !ev.Crash? && !ev.PacketIn? && !MayShelve(ev)
  }

  lemma CalmSecures(n: NodeState, d: Deposit, ev: Event, e: Env)
    requires Secured(n, d) && Enabled(n, ev) && IsHarmless(ev)
    ensures Secured(Step(n, ev, e), d)
  {
    hide ClearStuckAwait; hide ScanRefunds; hide ScanStoredRefunds;
    hide GcStaleMineOrders; hide WatchCounterparty; hide WatchOwnDeposit; hide PruneSessions;
    hide RemoteReject; hide CancelOrder; hide EnqueueRefund; hide FundingSpent; hide TouchOrder;
    hide Persist; hide PersistNow; hide WriterPop; hide WriterWrite; hide Secured;
    var flag := if ev.SweepStored? then ev.watched else if ev.SweepStale? then ev.tracked
                else if ev.SweepOwn? then ev.hashKnown else true;
    SweepsSecure(n, d, flag, if ev.SweepStored? then ev.confirmed else true,
                 if ev.SweepWatch? then DepositWatchVanishThreshold(ev.blockTime) else 3, e);
    DecisionsSecure(n, d, flag, e);
    HeldIsKept(n, d);
    CancelSecures(n, d, e);
    BookSecures(n, d, e);
  }

  lemma CalmLosesNothing(n: NodeState, d: Deposit, ev: Event, e: Env)
    requires IsHarmless(ev)
    ensures !Loses(n, d, ev, e)
  {
    hide Shelves; hide Stalled; hide InSwap;
  }

  lemma ExposedIs(n: NodeState)
    ensures Exposed(n) == (n.sess.Some? && n.sess.value.state < CS_CREATED_A)
  {
  }

  lemma HoldsSession(n: NodeState, d: Deposit)
    requires Secured(n, d)
    ensures n.sess.Some?
  {
  }

  lemma ResultSecures(n: NodeState, h: History, d: Deposit, ev: Event, e: Env)
    requires Inv(n, h) && Secured(n, d) && Enabled(n, ev) && IsResult(ev)
    requires !ConfirmsClaim(n, ev, e) && !ConfirmsRefund(n, ev)
    ensures Secured(Step(n, ev, e), d) <==> !Loses(n, d, ev, e)
  {
    hide Inv; hide FinishWork; hide ApplyRefund; hide ApplyWatch; hide ApplyOwnWatch;
    hide RetryFailedClaimBuilds; hide RetryFailedDepositBuilds; hide Secured; hide Shelves; hide AdoptsClaim;
    hide Stalled; hide InSwap; hide Restart;
    HoldsSession(n, d);
    match ev
    case WorkDone(i, w) => WorkSecures(n, h, d, i, w, e);
    case RefundDone(j, r) => RefundSecures(n, d, j, r, e);
    case WatchDone(i, p, spent) => WatchSecures(n, d, i, p, spent, e);
    case OwnDone(s, x, r) => OwnWatchSecures(n, d, s, x, r, e);
    case RetryClaims(c) => ClaimRetriesSecure(n, d, c, e);
    case RetryDeposits(c) => RetriesSecure(n, h, d, c, e);
  }

  /** A step that does not settle the debt keeps hold of the deposit exactly if it is not one
      of the losing steps. */
  lemma LossIsExact(n: NodeState, h: History, d: Deposit, ev: Event, e: Env)
    requires Inv(n, h) && Secured(n, d) && Enabled(n, ev)
    requires !ConfirmsClaim(n, ev, e) && !ConfirmsRefund(n, ev)
    ensures Secured(Step(n, ev, e), d) <==> !Loses(n, d, ev, e)
  {
    hide Inv; hide Secured; hide Step; hide ConfirmsClaim;
    if ev.Crash? {
      RestartSecures(n, h, d, ev.onChain, e.now);
      CrashLoses(n, d, ev, e);
    } else if ev.PacketIn? {
      PacketSecures(n, h, d, ev.p, e);
      PacketStep(n, ev.p, e);
    } else if IsResult(ev) {
      ResultSecures(n, h, d, ev, e);
    } else if MayShelve(ev) {
      ShelvingSecures(n, d, ev, e);
    } else {
      CalmSecures(n, d, ev, e);
      CalmLosesNothing(n, d, ev, e);
    }
  }

  lemma CrashLoses(n: NodeState, d: Deposit, ev: Event, e: Env)
    requires ev.Crash?
    ensures Step(n, ev, e) == Restart(n, ev.onChain, e.now)
    ensures Loses(n, d, ev, e) <==> !(RecordOwes(n.book.disk, ev.onChain) && n.book.disk.value.sess.value.deposit == d)
  {
  }

  lemma PacketStep(n: NodeState, p: Packet, e: Env)
    ensures Step(n, PacketIn(p), e) == ProcessSwap(n, p, e)
  {
  }

  // ---- One deposit is taken ------------------------------------------------

  /** A session's deposit that counts as sent is the one the network took, a refunded session
      is one whose refund it took, and session and order name the same refund. */
  predicate PairFits(s: Option<Session>, o: Option<Order>, t: Debt) {
    s.Some? ==>
      && (CS_CREATED_A <= s.value.state < CS_CONFIRMED_A || (o.Some? && o.value.depositSent)
          ==> t.seen == Some(s.value.deposit))
      && (s.value.refundDone ==> t.paid.Some?)
      && (o.Some? && s.value.deposit != NO_DEPOSIT ==> o.value.refundTx == Some(RefundOf(s.value.deposit)))
  }

  predicate SeenFits(n: NodeState, t: Debt) {
    && PairFits(n.sess, n.live, t)
    && forall r | r in Records(n.book) :: PairFits(r.sess, Some(r.order), t)
  }

  /** The accounts: what is owed was taken and not refunded, and is held unless a losing step came. */
  predicate Accounted(n: NodeState, t: Debt) {
    && SeenFits(n, t)
    && (t.owed.Some? ==> t.seen == t.owed && t.paid.None?)
    && (t.owed.Some? && !t.lapsed ==> Secured(n, t.owed.value))
  }

  lemma SeenDescends(n: NodeState, m: NodeState, t: Debt)
    requires SeenFits(n, t) && Descends(n, m)
    ensures SeenFits(m, t)
  {
    forall r | r in Records(m.book) ensures PairFits(r.sess, Some(r.order), t) {
      assert r in Records(n.book) || Shot(n, r);
    }
  }

  /** The network took no other deposit and no other refund in between. */
  predicate Later(t: Debt, u: Debt) {
    (t.seen.Some? ==> u.seen == t.seen) && (t.paid.Some? ==> u.paid == t.paid)
  }

  lemma HonestLater(t: Debt, n: NodeState, ev: Event, e: Env)
    requires Enabled(n, ev) && Honest(t, n, ev, e)
    ensures Later(t, Account(t, n, ev, e))
  {
    hide Taken; hide Settles; hide Incurred; hide Loses;
  }

  lemma SeenLater(n: NodeState, t: Debt, u: Debt)
    requires SeenFits(n, t) && Later(t, u)
    ensures SeenFits(n, u)
  {
  }

  lemma BuiltFits(n: NodeState, h: History, t: Debt, i: nat, d: Deposit)
    requires Inv(n, h) && SeenFits(n, t) && Enabled(n, WorkDone(i, DepositBuilt(d))) && n.sess.Some?
    ensures SeenFits(AdoptBuild(n, d), t)
  {
    hide BookFits; hide HistoryFits; hide OrderFits; hide Records;
  }

  lemma SentFits(n: NodeState, t: Debt, now: nat)
    requires SeenFits(n, t) && n.sess.Some? && t.seen == Some(n.sess.value.deposit)
    ensures SeenFits(MarkSent(n, now), t)
  {
    hide Records;
  }

  lemma RepaidFits(n: NodeState, t: Debt)
    requires SeenFits(n, t) && n.sess.Some? && t.paid.Some?
    ensures SeenFits(Repaid(n), t)
  {
    hide Records;
  }

  /** What a confirmation confirms is the session's deposit. */
  lemma TakenIsOurs(n: NodeState, h: History, ev: Event, e: Env)
    requires Inv(n, h) && Enabled(n, ev) && ConfirmsDeposit(n, ev, e)
    ensures Taken(n, ev, e) == Some(n.sess.value.deposit)
  {
    hide BookFits; hide HistoryFits; hide OrderFits;
  }

  lemma MarkedFits(n: NodeState, h: History, t: Debt, ev: Event, e: Env)
    requires Inv(n, h) && SeenFits(n, t) && Enabled(n, ev) && Honest(t, n, ev, e) && !ev.Crash?
    ensures SeenFits(Marked(n, ev, e), Account(t, n, ev, e))
  {
    hide Inv; hide Loses; hide Settles; hide Incurred; hide SeenFits; hide Honest; hide Taken; hide AdoptBuild; hide MarkSent; hide Repaid;
    hide ConfirmsDeposit; hide ConfirmsRefund;
    var u := Account(t, n, ev, e);
    HonestLater(t, n, ev, e);
    SeenLater(n, t, u);
    if n.sess.Some? {
      if ev.WorkDone? && ev.w.DepositBuilt? {
        BuiltFits(n, h, u, ev.i, ev.w.d);
      } else if ConfirmsDeposit(n, ev, e) {
        TakenIsOurs(n, h, ev, e);
        SentFits(n, u, e.now);
      } else if ConfirmsRefund(n, ev) {
        RepaidFits(n, u);
      }
    }
  }

  lemma RestartFits(n: NodeState, h: History, t: Debt, onChain: bool, e: Env)
    requires Inv(n, h) && SeenFits(n, t) && Honest(t, n, Crash(onChain), e)
    ensures SeenFits(Restart(n, onChain, e.now), Account(t, n, Crash(onChain), e))
  {
    hide HistoryFits; hide OrderFits; hide LiveSessionFits; hide Loses; hide Settles; hide Incurred; hide FiledAway;
    var u, m := Account(t, n, Crash(onChain), e), Restart(n, onChain, e.now);
    HonestLater(t, n, Crash(onChain), e);
    SeenLater(n, t, u);
    if m.sess.Some? {
      var r := n.book.disk.value;
      assert r in Records(n.book) && PairFits(r.sess, Some(r.order), u);
      NotFinished(n, h);
    }
  }

  lemma NotFinished(n: NodeState, h: History)
    requires Inv(n, h) && Returns(n.book.disk)
    ensures !FinishedRefundPending(n.book.disk.value)
  {
    hide HistoryFits; hide OrderFits; hide LiveSessionFits; hide FiledAway; hide Counts; hide SessionFits;
  }

  lemma StepFits(n: NodeState, h: History, t: Debt, ev: Event, e: Env)
    requires Inv(n, h) && SeenFits(n, t) && Enabled(n, ev) && Honest(t, n, ev, e)
    ensures SeenFits(Step(n, ev, e), Account(t, n, ev, e))
  {
    hide Inv; hide SeenFits; hide Account; hide Marked; hide Descends; hide Honest;
    if ev.Crash? {
      RestartFits(n, h, t, ev.onChain, e);
      CrashLoses(n, NO_DEPOSIT, ev, e);
      assert ev == Crash(ev.onChain);
    } else {
      hide Step;
      MarkedFits(n, h, t, ev, e);
      StepDescends(n, ev, e);
      SeenDescends(Marked(n, ev, e), Step(n, ev, e), Account(t, n, ev, e));
    }
  }

  // ---- The accounts of a run -----------------------------------------------

  /** A debt begins held. */
  lemma BeginsSecured(n: NodeState, h: History, t: Debt, ev: Event, e: Env)
    requires Inv(n, h) && SeenFits(n, t) && Enabled(n, ev) && Incurred(n, t, ev, e).Some?
    ensures Secured(Step(n, ev, e), Incurred(n, t, ev, e).value)
    ensures WellBuilt(Incurred(n, t, ev, e).value)
  {
    hide BookFits; hide HistoryFits; hide OrderFits;
    if ev.Crash? {
      hide Inv;
      RestartSecures(n, h, n.book.disk.value.sess.value.deposit, ev.onChain, e.now);
      CrashLoses(n, NO_DEPOSIT, ev, e);
    } else if ev.WorkDone? {
      SentIsHeld(n, h, ev.i, e);
    } else {
      AdoptedIsHeld(n, h, t, e);
    }
  }

  lemma SentIsHeld(n: NodeState, h: History, i: nat, e: Env)
    requires Inv(n, h) && Enabled(n, WorkDone(i, Sent(true))) && n.sess.Some? && n.work[i].DepositSend?
    requires !n.sess.value.refundDone
    ensures Secured(FinishWork(n, i, Sent(true), e), n.work[i].out)
  {
    hide BookFits; hide OrderFits; hide Persist; hide Reply;
    PopWork(n, h, i);
  }

  lemma AdoptedIsHeld(n: NodeState, h: History, t: Debt, e: Env)
    requires Inv(n, h) && AdoptsDeposit(n, RetryDeposits(true), e) && !n.sess.value.refundDone
    ensures Secured(RetryFailedDepositBuilds(n, true, e), n.sess.value.deposit)
  {
    hide BookFits; hide HistoryFits; hide OrderFits; hide Persist; hide Reply;
  }

  /** ... and is the deposit the network took. */
  lemma IncurredIsTaken(n: NodeState, h: History, t: Debt, ev: Event, e: Env)
    requires Inv(n, h) && SeenFits(n, t) && Enabled(n, ev) && Honest(t, n, ev, e) && Incurred(n, t, ev, e).Some?
    ensures Account(t, n, ev, e).seen == Incurred(n, t, ev, e)
  {
    hide HistoryFits; hide OrderFits; hide LiveSessionFits; hide Loses; hide Settles;
    if ev.Crash? {
      hide FiledAway;
      NotFinished(n, h);
      var r := n.book.disk.value;
      assert r in Records(n.book) && PairFits(r.sess, Some(r.order), t);
      RecordState(n, h);
    }
  }

  lemma RecordState(n: NodeState, h: History)
    requires Inv(n, h) && Returns(n.book.disk)
    ensures n.book.disk.value.sess.value.state < CS_CONFIRMED_A
  {
    hide HistoryFits; hide OrderFits; hide LiveSessionFits; hide FiledAway; hide Counts;
  }

  lemma StepAccounts(n: NodeState, h: History, t: Debt, ev: Event, e: Env)
    requires Inv(n, h) && Accounted(n, t) && Enabled(n, ev) && Honest(t, n, ev, e)
    ensures Accounted(Step(n, ev, e), Account(t, n, ev, e))
  {
    hide Inv; hide SeenFits; hide Secured; hide Step; hide Loses;
    var u := Account(t, n, ev, e);
    StepFits(n, h, t, ev, e);
    if Incurred(n, t, ev, e).Some? {
      BeginsSecured(n, h, t, ev, e);
      IncurredIsTaken(n, h, t, ev, e);
      OnlyIncurs(n, t, ev, e);
    } else if u.owed.Some? {
      KeptAccount(n, h, t, ev, e);
    }
  }

  lemma OnlyIncurs(n: NodeState, t: Debt, ev: Event, e: Env)
    requires Enabled(n, ev) && Incurred(n, t, ev, e).Some?
    ensures !ConfirmsRefund(n, ev) && t.paid.None? && Account(t, n, ev, e).paid.None?
  {
    hide Settles; hide Taken; hide Loses;
  }

  lemma KeptAccount(n: NodeState, h: History, t: Debt, ev: Event, e: Env)
    requires Inv(n, h) && Accounted(n, t) && Enabled(n, ev) && Honest(t, n, ev, e)
    requires Incurred(n, t, ev, e).None? && Account(t, n, ev, e).owed.Some?
    ensures var u := Account(t, n, ev, e);
            u.owed == t.owed && u.seen == u.owed && u.paid.None? && (!u.lapsed ==> Secured(Step(n, ev, e), u.owed.value))
  {
    hide Inv; hide SeenFits; hide Secured; hide Step; hide Loses; hide Incurred; hide Taken;
    HonestLater(t, n, ev, e);
    if !Account(t, n, ev, e).lapsed { LossIsExact(n, h, t.owed.value, ev, e); }
  }

  lemma InitialAccounts(t: Trace)
    requires Initial(t)
    ensures Accounted(t.n, t.debt)
  {
  }

  /** The accounts are right in every state of every run. */
  lemma {:induction false} RunAccounts(ts: seq<Trace>, ms: seq<Move>, i: nat)
    requires IsRun(ts, ms) && i < |ts|
    ensures Accounted(ts[i].n, ts[i].debt)
  {
    hide Inv; hide Initial; hide Accounted; hide Step; hide Chronicle; hide Account; hide Honest;
    if i == 0 {
      InitialAccounts(ts[0]);
    } else {
      var t, v := ts[i - 1], ms[i - 1];
      RunAccounts(ts, ms, i - 1);
      RunInv(ts, ms, i - 1);
      assert Possible(t, v.ev, v.e) && ts[i - 1 + 1] == Next(t, v.ev, v.e);
      StepAccounts(t.n, t.h, t.debt, v.ev, v.e);
    }
  }
}
