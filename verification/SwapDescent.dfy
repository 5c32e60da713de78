/** Where a state's refunds come from: every session, order, refund task and saved record after
    a step descends from one before it. */
module SwapDescent {
  import opened Wrappers
  import opened SwapTypes
  import opened SwapSpec
  import opened SwapRun

  predicate SameDebtor(s: Session, t: Session) {
    && t.deposit == s.deposit && t.refundDone == s.refundDone
    && (CS_CREATED_A <= t.state < CS_CONFIRMED_A ==> s.state == t.state)
  }

  predicate SameMarks(o: Order, p: Order) {
    p.refundTx == o.refundTx && p.depositSent == o.depositSent
  }

  /** The order descends from the live one or the one in history. */
  predicate FromOrders(n: NodeState, o: Order) {
    (n.live.Some? && SameMarks(n.live.value, o)) || (n.hist.Some? && SameMarks(n.hist.value, o))
  }

  /** The record could have been taken of n, timing apart. */
  predicate Shot(n: NodeState, r: Record) {
    && FromOrders(n, r.order)
    && (r.sess.Some? ==> && n.live.Some? && SameMarks(n.live.value, r.order)
                         && n.sess.Some? && SameDebtor(n.sess.value, r.sess.value))
  }

  /** The refund that the session or the live order would post. */
  predicate Carried(n: NodeState, r: Refund) {
    (n.sess.Some? && RefundOf(n.sess.value.deposit) == r) || (n.live.Some? && n.live.value.refundTx == Some(r))
  }

  function Saved(o: Option<Option<Record>>): set<Record> {
    if o.Some? && o.value.Some? then {o.value.value} else {}
  }

  /** The records on disk and on their way to it. */
  function Records(b: Book): set<Record> {
    (if b.disk.Some? then {b.disk.value} else {}) + Saved(b.queued) + Saved(b.writing)
  }

  predicate OrderDescends(n: NodeState, m: NodeState) {
    && (m.live.Some? ==> n.live.Some? && SameMarks(n.live.value, m.live.value))
    && (m.hist.Some? ==> FromOrders(n, m.hist.value))
  }

  predicate SessionDescends(n: NodeState, m: NodeState) {
    m.sess.Some? ==> n.sess.Some? && SameDebtor(n.sess.value, m.sess.value)
  }

  predicate TasksDescend(n: NodeState, m: NodeState) {
    forall t | t in m.refund.tasks :: t in n.refund.tasks || Carried(n, t.refund)
  }

  predicate BookDescends(n: NodeState, m: NodeState) {
    forall r | r in Records(m.book) :: r in Records(n.book) || Shot(n, r)
  }

  predicate Descends(n: NodeState, m: NodeState) {
    SessionDescends(n, m) && OrderDescends(n, m) && TasksDescend(n, m) && BookDescends(n, m)
  }

  lemma Itself(n: NodeState)
    ensures Descends(n, n)
  {
  }

  lemma Then(n: NodeState, k: NodeState, m: NodeState)
    requires Descends(n, k) && Descends(k, m)
    ensures Descends(n, m)
  {
    forall t | t in m.refund.tasks ensures t in n.refund.tasks || Carried(n, t.refund) {}
    forall r | r in Records(m.book) ensures r in Records(n.book) || Shot(n, r) {}
  }

  // ---- Primitive moves -----------------------------------------------------

  /** Whatever keeps the book and posts nothing descends if its session and orders do. */
  lemma Quiet(n: NodeState, m: NodeState)
    requires m.book == n.book && m.refund.tasks == n.refund.tasks && SessionDescends(n, m) && OrderDescends(n, m)
    ensures Descends(n, m)
  {
  }

  lemma SnapshotIsShot(n: NodeState)
    ensures Snapshot(n).Some? ==> Shot(n, Snapshot(n).value)
  {
    hide SessionIsTerminal;
  }

  lemma Saves(n: NodeState, ok: bool, e: Env)
    ensures Descends(n, Persist(n)) && Descends(n, PersistNow(n, ok)) && Descends(n, Reply(n, e))
  {
    hide Shot; hide Snapshot;
    SnapshotIsShot(n);
    PersistNowDescends(n, ok);
    PersistNowDescends(n, e.diskOk);
    Itself(n);
  }

  lemma PersistNowDescends(n: NodeState, ok: bool)
    ensures Descends(n, PersistNow(n, ok))
  {
    hide Shot; hide Snapshot;
    SnapshotIsShot(n);
  }

  lemma Writes(n: NodeState, ok: bool)
    ensures Descends(n, WriterPop(n)) && Descends(n, WriterWrite(n, ok))
  {
    hide Shot;
  }

  lemma Moves(n: NodeState, st: Status, now: nat)
    ensures Descends(n, SetStatus(n, st, now)) && Descends(n, MoveToHistory(n, st, now)) && Descends(n, PruneSessions(n))
  {
    hide Shot; hide SessionIsTerminal;
  }

  lemma Posts(n: NodeState, r: Refund, manual: bool, free: bool)
    requires Carried(n, r)
    ensures Descends(n, PostRefund(n, r, manual, free)) && Descends(n, PostRefund(MarkPending(n), r, manual, free))
  {
    hide RollbackGate; hide Shot;
  }

  // ---- Refunds and cancels -------------------------------------------------

  lemma EnqueueDescends(n: NodeState, manual: bool, free: bool)
    ensures Descends(n, EnqueueRefund(n, manual, free))
  {
    hide PostRefund; hide Descends;
    Itself(n);
    if n.sess.Some? { Posts(n, RefundOf(n.sess.value.deposit), manual, free); }
    if n.live.Some? && n.live.value.refundTx.Some? { Posts(n, n.live.value.refundTx.value, true, free); }
  }

  lemma ScansDescend(n: NodeState, watched: bool, confirmed: bool, e: Env)
    ensures Descends(n, ScanRefunds(n, e)) && Descends(n, ScanStoredRefunds(n, watched, confirmed, e))
  {
    hide PostRefund; hide Descends; hide SettleWatchedRefund; hide RefundBackoffActive;
    Itself(n);
    if n.sess.Some? { Posts(n, RefundOf(n.sess.value.deposit), false, e.queueFree); }
    if n.live.Some? {
      SettleDescends(n, confirmed, e);
      if n.live.value.refundTx.Some? { Posts(n, n.live.value.refundTx.value, false, e.queueFree); }
    }
  }

  lemma Unwaits(n: NodeState)
    ensures Descends(n, ClearRefundBackoff(n))
  {
    Quiet(n, ClearRefundBackoff(n));
  }

  lemma SettleDescends(n: NodeState, confirmed: bool, e: Env)
    requires n.live.Some?
    ensures Descends(n, SettleWatchedRefund(n, confirmed, e.now))
  {
    hide Descends; hide SetStatus; hide Persist; hide RollbackGate; hide ClearRefundBackoff;
    var n1 := SetStatus(n, RolledBack, e.now);
    Moves(n, RolledBack, e.now);
    Unwaits(n);
    Unwaits(n1);
    Then(n, n1, ClearRefundBackoff(n1));
    Saves(ClearRefundBackoff(n), true, e);
    Saves(ClearRefundBackoff(n1), true, e);
    Then(n, ClearRefundBackoff(n), Persist(ClearRefundBackoff(n)));
    Then(n, ClearRefundBackoff(n1), Persist(ClearRefundBackoff(n1)));
  }

  lemma CancelDescends(n: NodeState, e: Env)
    ensures Descends(n, RemoteCancel(n, e)) && Descends(n, CancelOrder(n, e)) && Descends(n, SelfCancel(n, e))
  {
    RemoteCancelDescends(n, e);
    CancelOrderDescends(n, e);
    hide Descends; hide RemoteCancel; hide PersistNow;
    Itself(n);
    PersistNowDescends(RemoteCancel(n, e), e.diskOk);
    Then(n, RemoteCancel(n, e), PersistNow(RemoteCancel(n, e), e.diskOk));
  }

  lemma CancelledDescends(n: NodeState, e: Env)
    ensures var c := SetStatus(n, Canceled, e.now);
            Descends(n, Persist(c)) && Descends(n, Persist(EnqueueRefund(c, false, e.queueFree)))
  {
    hide Descends; hide SetStatus; hide Persist; hide EnqueueRefund;
    var c := SetStatus(n, Canceled, e.now);
    var q := EnqueueRefund(c, false, e.queueFree);
    Moves(n, Canceled, e.now);
    Saves(c, true, e);
    Then(n, c, Persist(c));
    EnqueueDescends(c, false, e.queueFree);
    Then(n, c, q);
    Saves(q, true, e);
    Then(n, q, Persist(q));
  }

  lemma RemoteCancelDescends(n: NodeState, e: Env)
    ensures Descends(n, RemoteCancel(n, e))
  {
    Itself(n);
    Moves(n, Canceled, e.now);
    CancelledDescends(n, e);
    if n.live.Some? {
      Quiet(n, n.(live := Some(n.live.value.(updated := if e.now >= STALE_BACKDATE then e.now - STALE_BACKDATE else 0))));
    }
    hide Descends; hide SetStatus; hide Persist; hide EnqueueRefund; hide MoveToHistory;
  }

  lemma CancelOrderDescends(n: NodeState, e: Env)
    ensures Descends(n, CancelOrder(n, e))
  {
    hide Descends; hide SetStatus; hide Persist; hide EnqueueRefund;
    Itself(n);
    CancelledDescends(n, e);
  }

  lemma DecisionDescends(n: NodeState, e: Env, flag: bool)
    ensures Descends(n, RemoteReject(n, e)) && Descends(n, FundingSpent(n, e)) && Descends(n, TouchOrder(n, e.now))
    ensures Descends(n, PruneExpired(n, flag, e.now)) && Descends(n, GcStaleMineOrders(n, flag, e.now))
    ensures Descends(n, WatchStalled(n, e))
  {
    Itself(n);
    Moves(n, Expired, e.now);
    Moves(n, Dropped, e.now);
    CancelledDescends(n, e);
    CancelDescends(n, e);
    Quiet(n, TouchOrder(n, e.now));
    if n.live.Some? {
      var k := n.(live := Some(n.live.value.(status := Open, mine := false, roleB := false)));
      Quiet(n, k);
      Saves(k, true, e);
      Then(n, k, Persist(k));
    }
    hide Descends; hide SetStatus; hide Persist; hide MoveToHistory; hide SelfCancel; hide InSwap; hide Stalled;
  }

  lemma HuntDescends(n: NodeState, e: Env)
    requires n.sess.Some?
    ensures Descends(n, EnterSecretHunt(n))
  {
    var k := ClearRefundBackoff(n.(sess := Some(n.sess.value.(secretHunt := true))));
    Quiet(n, k);
    Saves(k, true, e);
    Then(n, k, Persist(k));
    Itself(n);
    hide Descends; hide Persist;
  }

  lemma FailDescends(n: NodeState, manual: bool, e: Env)
    ensures Descends(n, FailRefund(n, manual, e.now)) && Descends(n, RecordRefundFailure(n, e.now))
  {
    hide RefundDelay;
    var k := SetStatus(n, RollbackFailed, e.now);
    Moves(n, RollbackFailed, e.now);
    Saves(k, true, e);
    Then(n, k, Persist(k));
    Saves(n, true, e);
    Itself(n);
    WaitsLonger(n, e.now);
    WaitsLonger(Persist(k), e.now);
    WaitsLonger(Persist(n), e.now);
    Then(n, Persist(k), RecordRefundFailure(Persist(k), e.now));
    Then(n, Persist(n), RecordRefundFailure(Persist(n), e.now));
    hide Descends; hide SetStatus; hide Persist; hide RollbackGate; hide RecordRefundFailure;
  }

  lemma WaitsLonger(n: NodeState, now: nat)
    ensures Descends(n, RecordRefundFailure(n, now))
  {
    hide RefundDelay;
    Quiet(n, RecordRefundFailure(n, now));
  }

  /** The session once its refund is out. */
  function Repaid(n: NodeState): NodeState {
    if n.sess.Some? then n.(sess := Some(n.sess.value.(refundDone := true))) else n
  }

  lemma CompleteDescends(n: NodeState, i: nat, e: Env)
    requires i < |n.refund.tasks|
    ensures Descends(Repaid(n), CompleteRefund(TakeRefund(n, i), e.now))
  {
    var k := MarkRefunded(TakeRefund(n, i), e.now);
    MarkedDescends(n, i, e);
    Saves(k, true, e);
    Then(Repaid(n), k, Persist(k));
    Moves(Persist(k), Canceled, e.now);
    Then(Repaid(n), Persist(k), PruneSessions(Persist(k)));
    hide Descends; hide Persist; hide PruneSessions; hide MarkRefunded; hide TakeRefund;
  }

  lemma MarkedDescends(n: NodeState, i: nat, e: Env)
    requires i < |n.refund.tasks|
    ensures Descends(Repaid(n), MarkRefunded(TakeRefund(n, i), e.now))
  {
    hide RollbackGate;
  }

  lemma RefundDoneDescends(n: NodeState, i: nat, r: RefundResult, e: Env)
    requires i < |n.refund.tasks|
    ensures Descends(if r.RefundSent? then Repaid(n) else n, ApplyRefund(n, i, r, e.now))
  {
    var t, m := n.refund.tasks[i], TakeRefund(n, i);
    TakesTask(n, i);
    if m.sess.Some? {
      HuntDescends(m, e);
      Then(n, m, EnterSecretHunt(m));
    }
    FailDescends(m, t.manual, e);
    Then(n, m, FailRefund(m, t.manual, e.now));
    Then(n, m, RecordRefundFailure(m, e.now));
    CompleteDescends(n, i, e);
    hide Descends; hide TakeRefund; hide EnterSecretHunt; hide FailRefund; hide RecordRefundFailure; hide CompleteRefund;
  }

  lemma TakesTask(n: NodeState, i: nat)
    requires i < |n.refund.tasks|
    ensures Descends(n, TakeRefund(n, i))
  {
    hide Shot;
  }

  // ---- Packets -------------------------------------------------------------

  /** Another session with the same debtor, and work or watches besides. */
  predicate Works(n: NodeState, m: NodeState) {
    && m == n.(sess := m.sess, work := m.work, watch := m.watch)
    && SessionDescends(n, m)
  }

  lemma WorkDescends(n: NodeState, m: NodeState)
    requires Works(n, m)
    ensures Descends(n, m)
  {
    Quiet(n, m);
  }

  lemma HandshakeDescends(n: NodeState, ok: bool, e: Env)
    requires n.sess.Some?
    ensures Descends(n, OnHold(n, ok, e)) && Descends(n, OnInit(n, ok, e))
  {
    hide Shot; hide Snapshot; hide Descends;
    Itself(n);
    if n.sess.value.state < CS_INITIALIZED {
      Advances(n, CS_INITIALIZED, Initialized, e);
      if n.sess.value.state < CS_HOLD_APPLIED {
        Saves(n, true, e);
        Advances(n, CS_HOLD_APPLIED, Status.Hold, e);
        Advances(Persist(n), CS_HOLD_APPLIED, Status.Hold, e);
        var k := SetStatus(Persist(n).(sess := Some(n.sess.value.(state := CS_HOLD_APPLIED))), Status.Hold, e.now);
        Then(n, Persist(n), Reply(k, e));
      }
    }
    hide SetStatus; hide Reply; hide Persist;
  }

  lemma Advances(n: NodeState, k: ClientState, st: Status, e: Env)
    requires n.sess.Some? && k in {CS_HOLD_APPLIED, CS_INITIALIZED}
    ensures Descends(n, Reply(SetStatus(n.(sess := Some(n.sess.value.(state := k))), st, e.now), e))
  {
    var n1 := n.(sess := Some(n.sess.value.(state := k)));
    var n2 := SetStatus(n1, st, e.now);
    Quiet(n, n2);
    Saves(n2, true, e);
    Then(n, n2, Reply(n2, e));
  }

  lemma StagesDescend(n: NodeState, given: bool, keyGiven: bool, e: Env)
    requires n.sess.Some?
    ensures Descends(n, OnCreateA(n, keyGiven, e)) && Descends(n, OnCreateB(n, given, keyGiven, e))
    ensures Descends(n, OnConfirmA(n, given, e))
  {
    WorkDescends(n, OnCreateA(n, keyGiven, e));
    WorkDescends(n, OnConfirmA(n, given, e));
    CancelDescends(n, e);
    Itself(n);
    if given { WorkDescends(n, OnCreateB(n, given, keyGiven, e)); }
    hide Descends; hide SelfCancel;
  }

  lemma DispatchDescends(n: NodeState, w: Work, e: Env)
    requires n.sess.Some?
    ensures Descends(n, Dispatch(n, n.sess.value, w, e))
  {
    WorkDescends(n, Dispatch(n, n.sess.value, w, e));
  }

  lemma ConfirmBDescends(n: NodeState, payTxGiven: bool, e: Env)
    requires n.sess.Some?
    ensures Descends(n, OnConfirmB(n, payTxGiven, e))
  {
    hide Descends; hide Persist; hide Dispatch;
    var t := n.sess.value.(peer := n.sess.value.peer.(payTx := payTxGiven));
    var k := n.(sess := Some(t));
    WorkDescends(n, k);
    Saves(k, true, e);
    Then(n, k, Persist(k));
    DispatchDescends(Persist(k), ClaimBuild(false), e);
    Then(n, Persist(k), Dispatch(Persist(k), t, ClaimBuild(false), e));
    Itself(n);
  }

  lemma FinishedDescends(n: NodeState, e: Env)
    requires n.sess.Some?
    ensures Descends(n, OnFinished(n, e))
  {
    var n1 := MoveToHistory(n, Finished, e.now);
    var k := n1.(sess := Some(n.sess.value.(state := CS_FINISHED)));
    Moves(n, Finished, e.now);
    WorkDescends(n1, k);
    Then(n, n1, k);
    Saves(k, true, e);
    Then(n, k, Persist(k));
    Moves(Persist(k), Finished, e.now);
    Then(n, Persist(k), PruneSessions(Persist(k)));
    Itself(n);
    hide Descends; hide Persist; hide PruneSessions; hide MoveToHistory; hide FinishedMayTerminate;
  }

  lemma PacketDescends(n: NodeState, p: Packet, e: Env)
    ensures Descends(n, ProcessSwap(n, p, e))
  {
    Itself(n);
    if n.sess.Some? {
      var m := n.(sess := Some(Progress(n.sess.value, e.now)));
      WorkDescends(n, m);
      if !m.sess.value.await {
        var r := ProcessSwap(n, p, e);
        HandshakeDescends(m, if p.HoldPkt? || p.InitPkt? then p.ok else true, e);
        StagesDescend(m, if p.CreateBPkt? || p.ConfirmAPkt? then p.depositGiven else true,
                      if p.CreateAPkt? || p.CreateBPkt? then p.keyGiven else true, e);
        ConfirmBDescends(m, if p.ConfirmBPkt? then p.payTxGiven else true, e);
        FinishedDescends(m, e);
        PacketIs(n, m, p, e);
        Then(n, m, r);
      }
    }
    hide Descends; hide OnHold; hide OnInit; hide OnCreateA; hide OnCreateB; hide OnConfirmA; hide OnConfirmB; hide OnFinished;
  }

  lemma PacketIs(n: NodeState, m: NodeState, p: Packet, e: Env)
    requires n.sess.Some? && m == n.(sess := Some(Progress(n.sess.value, e.now))) && !m.sess.value.await
    requires (p.HoldPkt? ==> Descends(m, OnHold(m, p.ok, e))) && (p.InitPkt? ==> Descends(m, OnInit(m, p.ok, e)))
    requires (p.CreateAPkt? ==> Descends(m, OnCreateA(m, p.keyGiven, e)))
    requires (p.CreateBPkt? ==> Descends(m, OnCreateB(m, p.depositGiven, p.keyGiven, e)))
    requires (p.ConfirmAPkt? ==> Descends(m, OnConfirmA(m, p.depositGiven, e)))
    requires (p.ConfirmBPkt? ==> Descends(m, OnConfirmB(m, p.payTxGiven, e))) && Descends(m, OnFinished(m, e))
    ensures Descends(m, ProcessSwap(n, p, e))
  {
    hide Descends; hide OnHold; hide OnInit; hide OnCreateA; hide OnCreateB; hide OnConfirmA; hide OnConfirmB; hide OnFinished;
  }

  // ---- Deposits and claims -------------------------------------------------

  lemma RetryDescends(n: NodeState, isClaim: bool, f: Failure, e: Env)
    requires n.sess.Some?
    ensures Descends(n, ScheduleAfterFailure(n, isClaim, f, e))
    ensures Descends(n, ScheduleDepositRetry(n, e)) && Descends(n, ScheduleClaimRetry(n, e))
  {
    BackoffDescends(n, e);
    var s := n.sess.value;
    var s1 := if f.NotReady? && s.pace.notReadySince > e.now then s.(pace := s.pace.(notReadySince := e.now)) else s;
    var m := n.(sess := Some(s1));
    WorkDescends(n, m);
    BackoffDescends(m, e);
    Then(n, m, ScheduleDepositRetry(m, e));
    Then(n, m, ScheduleClaimRetry(m, e));
    if f.NotReady? {
      RepollDescends(m, isClaim, f.seen, e);
      Then(n, m, ScheduleNotReady(m, isClaim, f.seen, e));
    }
    hide Descends; hide ScheduleNotReady; hide ScheduleDepositRetry; hide ScheduleClaimRetry; hide PastFastWindow;
  }

  lemma BackoffDescends(n: NodeState, e: Env)
    requires n.sess.Some?
    ensures Descends(n, ScheduleDepositRetry(n, e)) && Descends(n, ScheduleClaimRetry(n, e))
  {
    hide PersistNow; hide RetryBackoff; hide Shot; hide Descends;
    var k := n.(sess := ScheduleDepositRetry(n, e).sess);
    var c := n.(sess := ScheduleClaimRetry(n, e).sess);
    WorkDescends(n, k);
    WorkDescends(n, c);
    PersistNowDescends(k, e.diskOk);
    PersistNowDescends(c, e.diskOk);
    Then(n, k, PersistNow(k, e.diskOk));
    Then(n, c, PersistNow(c, e.diskOk));
  }

  lemma RepollDescends(n: NodeState, isClaim: bool, seen: bool, e: Env)
    requires n.sess.Some?
    ensures Descends(n, ScheduleNotReady(n, isClaim, seen, e))
  {
    hide PersistNow; hide Shot; hide Descends;
    var k := n.(sess := ScheduleNotReady(n, isClaim, seen, e).sess);
    WorkDescends(n, k);
    PersistNowDescends(k, e.diskOk);
    Then(n, k, PersistNow(k, e.diskOk));
  }

  lemma DepositFailureDescends(n: NodeState, f: Failure, e: Env)
    ensures Descends(n, ApplyDepositFailure(n, f, e))
  {
    hide Descends; hide SelfCancel; hide ScheduleAfterFailure;
    Itself(n);
    if n.sess.Some? {
      var m := ReleaseGuard(n);
      WorkDescends(n, m);
      CancelDescends(m, e);
      Then(n, m, SelfCancel(m, e));
      RetryDescends(m, false, f, e);
      Then(n, m, ScheduleAfterFailure(m, false, f, e));
    }
  }

  lemma ClaimFailureDescends(n: NodeState, makerSide: bool, f: Failure, e: Env)
    ensures Descends(n, ApplyClaimFailure(n, makerSide, f, e))
  {
    hide Descends; hide SelfCancel; hide ScheduleAfterFailure;
    Itself(n);
    if n.sess.Some? {
      var m := ReleaseGuard(n);
      WorkDescends(n, m);
      CancelDescends(m, e);
      Then(n, m, SelfCancel(m, e));
      RetryDescends(m, true, f, e);
      Then(n, m, ScheduleAfterFailure(m, true, f, e));
    }
  }

  lemma BuildDescends(n: NodeState, d: Deposit, e: Env)
    ensures n.sess.Some? ==> Descends(AdoptBuild(n, d), ApplyDepositBuild(n, d, e))
    ensures n.sess.None? ==> ApplyDepositBuild(n, d, e) == n
  {
    if n.sess.Some? {
      var k := AdoptBuild(n, d);
      var p := PersistNow(k, e.diskOk);
      var r := ApplyDepositBuild(n, d, e);
      PersistNowDescends(k, e.diskOk);
      WorkDescends(p, r);
      Then(k, p, r);
    }
    hide Descends; hide PersistNow;
  }

  lemma SentDescends(n: NodeState, e: Env)
    requires n.sess.Some?
    ensures Descends(MarkSent(n, e.now), ConfirmDeposit(n, e))
  {
    hide Descends; hide Persist; hide Reply;
    var k := MarkSent(n, e.now);
    Saves(k, true, e);
    Saves(Persist(k), true, e);
    Then(k, Persist(k), Reply(Persist(k), e));
  }

  /** What the session's timing and guard are does not matter to its mark. */
  lemma MarksAlike(n: NodeState, m: NodeState, now: nat)
    requires n.sess.Some? && m.sess.Some? && m == n.(sess := m.sess)
    requires m.sess.value.deposit == n.sess.value.deposit && m.sess.value.refundDone == n.sess.value.refundDone
    requires m.sess.value.isMaker == n.sess.value.isMaker
    ensures Descends(MarkSent(n, now), MarkSent(m, now))
  {
    Quiet(MarkSent(n, now), MarkSent(m, now));
  }

  lemma SendDescends(n: NodeState, ok: bool, e: Env)
    ensures n.sess.Some? ==> Descends(if ok then MarkSent(n, e.now) else n, ApplyDepositSend(n, ok, e))
    ensures n.sess.None? ==> ApplyDepositSend(n, ok, e) == n
  {
    hide Descends; hide ConfirmDeposit; hide ScheduleDepositRetry; hide MarkSent;
    if n.sess.Some? {
      var m := ReleaseGuard(n);
      if ok {
        var k := m.(sess := Some(Progress(m.sess.value, e.now)));
        MarksAlike(n, k, e.now);
        SentDescends(k, e);
        Then(MarkSent(n, e.now), MarkSent(k, e.now), ConfirmDeposit(k, e));
      } else {
        WorkDescends(n, m);
        BackoffDescends(m, e);
        Then(n, m, ScheduleDepositRetry(m, e));
      }
    }
  }

  lemma DepositRetryDescends(n: NodeState, onChain: bool, e: Env)
    ensures AdoptsDeposit(n, RetryDeposits(onChain), e) ==> Descends(MarkSent(n, e.now), RetryFailedDepositBuilds(n, onChain, e))
    ensures !AdoptsDeposit(n, RetryDeposits(onChain), e) ==> Descends(n, RetryFailedDepositBuilds(n, onChain, e))
  {
    hide Descends; hide ConfirmDeposit; hide MarkSent; hide BuildDue; hide RepostDeposit;
    Itself(n);
    if n.sess.Some? {
      var s := n.sess.value;
      WorkDescends(n, n.(sess := Some(DepositRetryAt(s, 0))));
      WorkDescends(n, n.(sess := Some(DepositRetryAt(s, e.now + RETRY_BASE))));
      RepostsDescend(n, DepositSend(s.deposit), e);
      RepostsDescend(n, DepositBuild, e);
      if e.walletOk && onChain {
        var k := ReleaseGuard(n.(sess := Some(DepositRetryAt(s, 0))));
        MarksAlike(n, k, e.now);
        SentDescends(k, e);
        Then(MarkSent(n, e.now), MarkSent(k, e.now), ConfirmDeposit(k, e));
      }
    }
  }

  lemma RepostsDescend(n: NodeState, w: Work, e: Env)
    requires n.sess.Some?
    ensures Descends(n, RepostDeposit(n, w, e)) && Descends(n, RepostClaim(n, w, e))
  {
    WorkDescends(n, RepostDeposit(n, w, e));
    WorkDescends(n, RepostClaim(n, w, e));
  }

  lemma ClaimBuildDescends(n: NodeState, makerSide: bool, c: Claim, e: Env)
    ensures Descends(n, ApplyClaimBuild(n, makerSide, c, e))
  {
    hide Descends; hide PersistNow;
    Itself(n);
    if n.sess.Some? {
      var k := n.(sess := Some(AdoptClaim(n.sess.value, makerSide, c)));
      var p := PersistNow(k, e.diskOk);
      var r := ApplyClaimBuild(n, makerSide, c, e);
      WorkDescends(n, k);
      PersistNowDescends(k, e.diskOk);
      WorkDescends(p, r);
      Then(k, p, r);
      Then(n, k, r);
    }
  }

  lemma ClaimedDescends(n: NodeState, e: Env)
    requires n.sess.Some?
    ensures Descends(n, ConfirmClaim(n, e))
  {
    hide Descends; hide Persist; hide Reply;
    var k := MarkClaimed(n, e.now);
    Quiet(n, k);
    Saves(k, true, e);
    Saves(Persist(k), true, e);
    Then(n, k, Persist(k));
    Then(n, Persist(k), Reply(Persist(k), e));
  }

  lemma ClaimSendDescends(n: NodeState, ok: bool, e: Env)
    ensures Descends(n, ApplyClaimSend(n, ok, e))
  {
    hide Descends; hide ConfirmClaim; hide ScheduleClaimRetry;
    Itself(n);
    if n.sess.Some? {
      var m := ReleaseGuard(n);
      var k := m.(sess := Some(Progress(m.sess.value, e.now)));
      WorkDescends(n, m);
      WorkDescends(n, k);
      ClaimedDescends(k, e);
      Then(n, k, ConfirmClaim(k, e));
      BackoffDescends(m, e);
      Then(n, m, ScheduleClaimRetry(m, e));
    }
  }

  lemma ClaimRetryDescends(n: NodeState, onChain: bool, e: Env)
    ensures Descends(n, RetryFailedClaimBuilds(n, onChain, e))
  {
    hide Descends; hide ConfirmClaim; hide RepostClaim; hide PreConfirmed;
    Itself(n);
    if n.sess.Some? {
      var s := n.sess.value;
      WorkDescends(n, n.(sess := Some(ClaimRetryAt(s, 0))));
      WorkDescends(n, n.(sess := Some(ClaimRetryAt(s, e.now + RETRY_BASE))));
      RepostsDescend(n, ClaimSend(s.claim), e);
      RepostsDescend(n, ClaimBuild(s.isMaker), e);
      var k := ReleaseGuard(n.(sess := Some(ClaimRetryAt(s, 0))));
      WorkDescends(n, k);
      ClaimedDescends(k, e);
      Then(n, k, ConfirmClaim(k, e));
    }
  }

  // ---- Watches -------------------------------------------------------------

  lemma WatchDescends(n: NodeState, i: nat, p: Probe, spent: bool, e: Env)
    requires i < |n.watch.tasks|
    ensures Descends(n, ApplyWatch(n, i, p, spent, e))
  {
    hide Descends; hide SelfCancel; hide EnterSecretHunt; hide Watchable;
    var m := TakeWatch(n, i);
    WorkDescends(n, m);
    if m.sess.Some? {
      var k, c := Misses(m, 0), Misses(m, m.sess.value.vanishMisses + 1);
      WorkDescends(n, k);
      WorkDescends(n, c);
      HuntDescends(k, e);
      Then(n, k, EnterSecretHunt(k));
      CancelDescends(k, e);
      Then(n, k, SelfCancel(k, e));
    }
  }

  lemma OwnWatchDescends(n: NodeState, spender: bool, depositLive: bool, readable: bool, e: Env)
    ensures Descends(n, ApplyOwnWatch(n, spender, depositLive, readable, e))
  {
    hide Descends; hide OnConfirmB; hide Persist;
    var m := n.(watch := n.watch.(ownPending := false));
    WorkDescends(n, m);
    if m.sess.Some? {
      var k := m.(sess := Some(m.sess.value.(secretHunt := false)));
      WorkDescends(n, k);
      Saves(k, true, e);
      Then(n, k, Persist(k));
      ConfirmBDescends(m, true, e);
      Then(n, m, OnConfirmB(m, true, e));
      ConfirmBDescends(Persist(k), true, e);
      Then(n, Persist(k), OnConfirmB(Persist(k), true, e));
    }
  }

  // ---- The step ------------------------------------------------------------

  /** What the event itself brings in: a built deposit, a confirmed one, a refund that went out. */
  function Marked(n: NodeState, ev: Event, e: Env): NodeState {
    if n.sess.None? then n
    else if ev.WorkDone? && ev.w.DepositBuilt? then AdoptBuild(n, ev.w.d)
    else if ConfirmsDeposit(n, ev, e) then MarkSent(n, e.now)
    else if ConfirmsRefund(n, ev) then Repaid(n)
    else n
  }

  lemma WorkResultDescends(n: NodeState, i: nat, w: WorkResult, e: Env)
    requires Enabled(n, WorkDone(i, w))
    ensures Descends(Marked(n, WorkDone(i, w), e), FinishWork(n, i, w, e))
  {
    hide Descends; hide ApplyDepositBuild; hide ApplyClaimBuild; hide ApplyDepositFailure; hide ApplyClaimFailure;
    hide ApplyDepositSend; hide ApplyClaimSend; hide MarkSent; hide AdoptBuild;
    var t, m := n.work[i], n.(work := n.work[..i] + n.work[i + 1..]);
    var r, k := FinishWork(n, i, w, e), Marked(n, WorkDone(i, w), e);
    WorkDescends(n, m);
    match w
    case DepositBuilt(d) =>
      BuildDescends(m, d, e);
      if n.sess.Some? {
        BuildsAlike(n, m, d);
        Then(k, AdoptBuild(m, d), r);
      }
    case ClaimBuilt(c) =>
      ClaimBuildDescends(m, t.makerSide, c, e);
      Then(n, m, r);
    case BuildFailed(f) =>
      if t.DepositBuild? { DepositFailureDescends(m, f, e); } else { ClaimFailureDescends(m, t.makerSide, f, e); }
      Then(n, m, r);
    case Sent(ok) =>
      if t.DepositSend? {
        SendDescends(m, ok, e);
        if n.sess.Some? && ok {
          SendsAlike(n, m, e.now);
          Then(k, MarkSent(m, e.now), r);
        } else if n.sess.Some? {
          Then(n, m, r);
        }
      } else {
        ClaimSendDescends(m, ok, e);
        Then(n, m, r);
      }
  }

  lemma BuildsAlike(n: NodeState, m: NodeState, d: Deposit)
    requires n.sess.Some? && m == n.(work := m.work)
    ensures Descends(AdoptBuild(n, d), AdoptBuild(m, d))
  {
    Quiet(AdoptBuild(n, d), AdoptBuild(m, d));
  }

  lemma SendsAlike(n: NodeState, m: NodeState, now: nat)
    requires n.sess.Some? && m == n.(work := m.work)
    ensures Descends(MarkSent(n, now), MarkSent(m, now))
  {
    Quiet(MarkSent(n, now), MarkSent(m, now));
  }

  predicate IsResult(ev: Event) {
    ev.WorkDone? || ev.RefundDone? || ev.WatchDone? || ev.OwnDone? || ev.RetryClaims? || ev.RetryDeposits?
  }

  lemma ResultDescends(n: NodeState, ev: Event, e: Env)
    requires Enabled(n, ev) && IsResult(ev)
    ensures Descends(Marked(n, ev, e), Step(n, ev, e))
  {
    hide Descends; hide FinishWork; hide ApplyRefund; hide ApplyWatch; hide ApplyOwnWatch;
    hide RetryFailedClaimBuilds; hide RetryFailedDepositBuilds; hide MarkSent; hide AdoptBuild; hide AdoptsDeposit;
    match ev
    case WorkDone(i, w) => WorkResultDescends(n, i, w, e);
    case RefundDone(j, r) => RefundDoneDescends(n, j, r, e); NoAdoption(n, ev, e);
    case WatchDone(i, p, spent) => WatchDescends(n, i, p, spent, e); NoAdoption(n, ev, e);
    case OwnDone(s, d, r) => OwnWatchDescends(n, s, d, r, e); NoAdoption(n, ev, e);
    case RetryClaims(c) => ClaimRetryDescends(n, c, e); NoAdoption(n, ev, e);
    case RetryDeposits(c) => DepositRetryDescends(n, c, e); AdoptsItself(n, c, e);
  }

  lemma NoAdoption(n: NodeState, ev: Event, e: Env)
    requires !ev.RetryDeposits?
    ensures !AdoptsDeposit(n, ev, e)
  {
  }

  lemma AdoptsItself(n: NodeState, c: bool, e: Env)
    ensures AdoptsDeposit(n, RetryDeposits(c), e) ==> n.sess.Some?
  {
  }

  lemma CalmDescends(n: NodeState, ev: Event, e: Env)
    requires Enabled(n, ev) && !IsResult(ev) && !ev.Crash?
    ensures Descends(n, Step(n, ev, e))
  {
    hide Descends; hide ProcessSwap; hide ClearStuckAwait; hide ScanRefunds; hide ScanStoredRefunds; hide WatchStalled;
    hide GcStaleMineOrders; hide WatchCounterparty; hide WatchOwnDeposit; hide PruneSessions; hide PruneExpired;
    hide RemoteCancel; hide RemoteReject; hide CancelOrder; hide EnqueueRefund; hide FundingSpent; hide TouchOrder;
    hide Persist; hide PersistNow; hide WriterPop; hide WriterWrite;
    Itself(n);
    match ev
    case PacketIn(p) => PacketDescends(n, p, e);
    case ClearStuck => StuckDescends(n, e.now);
    case SweepRefunds => ScansDescend(n, false, false, e);
    case SweepStored(watched, confirmed) => ScansDescend(n, watched, confirmed, e);
    case SweepStale(x) => DecisionDescends(n, e, x);
    case SweepExpired(x) => DecisionDescends(n, e, x);
    case SweepWatch(bt) => SweepWatchDescends(n, DepositWatchVanishThreshold(bt), e);
    case SweepOwn(x) => SweepOwnDescends(n, x, e);
    case SweepPrune => Moves(n, Canceled, e.now);
    case CancelPkt => CancelDescends(n, e);
    case CancelRpc => CancelDescends(n, e);
    case RefundRpc => EnqueueDescends(n, true, e.queueFree);
    case QueueSnapshot => Saves(n, true, e);
    case WriteSnapshot => PersistNowDescends(n, e.diskOk);
    case Pop => Writes(n, e.diskOk);
    case Write => Writes(n, e.diskOk);
    case WorkRun(_) =>
    case _ => DecisionDescends(n, e, false);
  }

  lemma StuckDescends(n: NodeState, now: nat)
    ensures Descends(n, ClearStuckAwait(n, now))
  {
    WorkDescends(n, ClearStuckAwait(n, now));
  }

  lemma SweepWatchDescends(n: NodeState, threshold: nat, e: Env)
    ensures Descends(n, WatchCounterparty(n, threshold, e))
  {
    hide Watchable; hide RollbackGate;
    WorkDescends(n, WatchCounterparty(n, threshold, e));
  }

  lemma SweepOwnDescends(n: NodeState, hashKnown: bool, e: Env)
    ensures Descends(n, WatchOwnDeposit(n, hashKnown, e))
  {
    WorkDescends(n, WatchOwnDeposit(n, hashKnown, e));
  }

  /** Every step within a process descends from what its event brought in. */
  lemma StepDescends(n: NodeState, ev: Event, e: Env)
    requires Enabled(n, ev) && !ev.Crash?
    ensures Descends(Marked(n, ev, e), Step(n, ev, e))
  {
    hide Descends; hide Step; hide MarkSent; hide AdoptBuild;
    if IsResult(ev) {
      ResultDescends(n, ev, e);
    } else {
      CalmDescends(n, ev, e);
      NoAdoption(n, ev, e);
    }
  }

  // ---- A refund that is nowhere --------------------------------------------

  predicate RecordNames(rec: Record, r: Refund) {
    rec.order.refundTx == Some(r) || (rec.sess.Some? && RefundOf(rec.sess.value.deposit) == r)
  }

  /** No session, order, refund task or saved record names the refund. */
  predicate Gone(n: NodeState, r: Refund) {
    && !Carried(n, r) && !(n.hist.Some? && n.hist.value.refundTx == Some(r))
    && (forall t | t in n.refund.tasks :: t.refund != r)
    && (forall rec | rec in Records(n.book) :: !RecordNames(rec, r))
  }

  lemma GoneDescends(n: NodeState, m: NodeState, r: Refund)
    requires Gone(n, r) && Descends(n, m)
    ensures Gone(m, r)
  {
  }

  lemma GoneRestarts(n: NodeState, r: Refund, onChain: bool, now: nat)
    requires Gone(n, r)
    ensures Gone(Restart(n, onChain, now), r)
  {
    hide FiledAway; hide FinishedRefundPending;
    assert n.book.disk.Some? ==> n.book.disk.value in Records(n.book);
  }

  lemma GoneMarked(n: NodeState, ev: Event, e: Env, r: Refund)
    requires Gone(n, r) && !(ev.WorkDone? && ev.w.DepositBuilt? && RefundOf(ev.w.d) == r)
    ensures Gone(Marked(n, ev, e), r)
  {
    hide ConfirmsDeposit; hide ConfirmsRefund;
  }

  /** Once it is nowhere, only a build that makes it anew brings it back: not a restart, not a sweep. */
  lemma GoneStaysGone(n: NodeState, ev: Event, e: Env, r: Refund)
    requires Enabled(n, ev) && Gone(n, r) && !(ev.WorkDone? && ev.w.DepositBuilt? && RefundOf(ev.w.d) == r)
    ensures Gone(Step(n, ev, e), r)
  {
    hide Gone; hide Marked; hide Descends;
    if ev.Crash? {
      hide Restart;
      GoneRestarts(n, r, ev.onChain, e.now);
    } else {
      hide Step;
      StepDescends(n, ev, e);
      GoneMarked(n, ev, e, r);
      GoneDescends(Marked(n, ev, e), Step(n, ev, e), r);
    }
  }
}
