/** The invariant of every run, in parts, and the proof that each step keeps it.

    The parts speak about single components of the state (the session with its
    order, the records on their way to disk, the work that is out), so a step is
    judged only by the components it touches. */
module SwapInvariant {
  import opened Wrappers
  import opened SwapTypes
  import opened SwapSpec
  import opened SwapRun

  // ---- The parts -----------------------------------------------------------

  /** Deposit, refund and claim bytes come and go together; states fit the role. */
  predicate SessionFits(s: Session, maker: bool) {
    && s.isMaker == maker
    && (s.deposit == NO_DEPOSIT || WellBuilt(s.deposit))
    && (s.claim == NO_CLAIM || (s.claim.txid != Empty && s.claim.hex != Empty))
    && s.state !in {CS_IDLE, CS_CONFIRMED_A, CS_CONFIRMED_B}
    && (maker ==> s.state !in {CS_TAKER, CS_CREATED_B})
    && (!maker ==> s.state !in {CS_MAKER, CS_CREATED_A})
    && (s.state in {CS_CREATED_A, CS_CREATED_B} ==> s.deposit != NO_DEPOSIT)
    && (!maker && (s.deposit != NO_DEPOSIT || s.peer.deposit) ==> s.peer.pub)
    && (s.deposit == NO_DEPOSIT || s.pace.depositRetries <= BROADCAST_REPOST_MAX)
  }

  /** A copy of the session carries the deposit whose intent is durable. */
  predicate CarriesIntent(s: Session, h: History) {
    h.intent.Some? ==> s.deposit == h.intent.value
  }

  /** The retry counter of a deposit still to be confirmed covers the failures. */
  predicate Counts(s: Session, fails: nat) {
    PreCreated(s) ==> fails <= (if s.deposit == NO_DEPOSIT then 0 else s.pace.depositRetries)
  }

  /** A claimed order stays out of reach of every refund sweep. */
  predicate Settled(o: Order) {
    o.counterpartyRedeemed && Ordinal(o.status) >= 9 && (o.status == Finished || !o.depositSent)
  }

  predicate Redeemed(live: Option<Order>) {
    live.Some? && (live.value.counterpartyRedeemed || live.value.status == Finished)
  }

  /** Facts about the live session that need no order. */
  predicate LiveSessionFits(s: Session, h: History) {
    && SessionFits(s, h.maker)
    && CarriesIntent(s, h)
    && (s.await ==> s.state != CS_FINISHED)
    && (h.claimed ==> s.state == CS_FINISHED)
    && (s.refundDone ==> h.settled)
    && s.vanishMisses <= h.absent
    && (h.intent.None? && s.deposit != NO_DEPOSIT ==> s.pace.depositRetryAt == 0)
    && (!h.maker ==> Counts(s, h.runFails))
    && (!h.maker && !h.miscounted ==> Counts(s, h.fails))
  }

  predicate OrderFits(sess: Option<Session>, live: Option<Order>, hist: Option<Order>, h: History) {
    && (live.Some? ==> hist.None?)
    && (sess.Some? && Redeemed(live) ==> sess.value.state == CS_FINISHED)
    && (h.claimed && h.booked ==> (live.Some? ==> Settled(live.value)) && (hist.Some? ==> Settled(hist.value)))
    && (h.claimed && !h.booked ==> live.None?)
    && (h.steady ==> sess.Some? && sess.value.state < CS_CONFIRMED_A && !h.settled
                     && live.Some? && live.value.mine && !IsOrderTerminal(live.value.status))
  }

  /** A record with a session is a live, unclaimed swap that carries the intent. */
  predicate RecordFits(r: Option<Record>, h: History, overlap: bool, clean: bool) {
    && (r.Some? ==> r.value.order.mine)
    && (r.Some? && r.value.sess.Some? ==>
          && !r.value.historical && !Redeemed(Some(r.value.order))
          && SessionFits(r.value.sess.value, h.maker)
          && r.value.sess.value.state != CS_FINISHED
          && (r.value.sess.value.refundDone ==> h.settled)
          && (!overlap ==> CarriesIntent(r.value.sess.value, h))
          && (!h.maker && clean ==> Counts(r.value.sess.value, h.fails)))
    && (h.steady && !overlap && h.intent.Some? ==>
          r.Some? && r.value.sess.Some? && !IsOrderTerminal(r.value.order.status))
  }

  predicate Clean(b: Book) {
    !b.overlap && !b.writeFailed
  }

  predicate BookFits(b: Book, h: History) {
    && RecordFits(b.disk, h, b.overlap, Clean(b))
    && (b.queued.Some? ==> RecordFits(b.queued.value, h, b.overlap, Clean(b)))
    && (b.writing.Some? ==> RecordFits(b.writing.value, h, b.overlap, Clean(b)))
  }

  /** What the history alone must say: a taker hands out one deposit, and the failures are capped. */
  predicate HistoryFits(h: History, b: Book) {
    && (h.intent.Some? ==> WellBuilt(h.intent.value))
    && (!h.maker && !h.astray ==> h.handed <= (if h.intent.Some? then {h.intent.value} else {}))
    && (!h.maker ==> h.runFails <= BROADCAST_REPOST_MAX)
    && (!h.maker && !h.miscounted ==> h.fails <= BROADCAST_REPOST_MAX)
    && (!b.overlap ==> !h.astray)
    && (!h.maker && Clean(b) ==> !h.miscounted)
  }

  /** The invariant between two primitive moves of a step. */
  predicate Good(n: NodeState, h: History) {
    && (n.sess.Some? ==> LiveSessionFits(n.sess.value, h))
    && OrderFits(n.sess, n.live, n.hist, h)
    && BookFits(n.book, h)
    && HistoryFits(h, n.book)
  }

  predicate WorkFits(w: Work, s: Session, h: History) {
    match w
    case DepositBuild => PreCreated(s) && (!s.isMaker ==> s.deposit == NO_DEPOSIT && s.peer.pub)
    case DepositSend(d) =>
      PreCreated(s) && s.deposit == d && h.intent == Some(d) && s.pace.depositRetries < BROADCAST_REPOST_MAX
    case ClaimBuild(_) => s.state != CS_FINISHED
    case ClaimSend(c) => s.state != CS_FINISHED && s.claim == c && c != NO_CLAIM
  }

  /** Exactly one task is out while the guard is held, none otherwise. */
  predicate SingleFlight(n: NodeState) {
    |n.work| == (if n.sess.Some? && n.sess.value.await then 1 else 0)
  }

  predicate WorkHeld(n: NodeState, h: History) {
    && SingleFlight(n)
    && (|n.work| == 1 && n.sess.Some? ==> WorkFits(n.work[0], n.sess.value, h))
  }

  predicate Inv(n: NodeState, h: History) {
    Good(n, h) && WorkHeld(n, h)
  }

  /** The history once a step left the state m: steadiness is judged there. */
  function Judge(h: History, m: NodeState): History {
    h.(steady := h.steady && Steady(m))
  }

  function Unsteady(h: History): History {
    h.(steady := false)
  }

  // ---- Primitive moves -----------------------------------------------------

  lemma UnsteadyKeeps(n: NodeState, h: History)
    requires Inv(n, h)
    ensures Inv(n, Unsteady(h))
  {
  }

  lemma SnapshotFits(n: NodeState, h: History, overlap: bool, clean: bool)
    requires n.sess.Some? ==> LiveSessionFits(n.sess.value, h)
    requires !h.maker && clean ==> !h.miscounted
    requires OrderFits(n.sess, n.live, n.hist, h)
    ensures RecordFits(Snapshot(n), h, overlap, clean)
  {
    hide SessionFits;
    hide Counts;
  }

  lemma PersistKeeps(n: NodeState, h: History)
    requires Good(n, h)
    ensures Good(Persist(n), h)
  {
    hide LiveSessionFits; hide OrderFits; hide RecordFits;
    SnapshotFits(n, h, n.book.overlap, Clean(n.book));
  }

  lemma DirtierRecord(r: Option<Record>, h: History, overlap: bool, clean: bool)
    requires RecordFits(r, h, overlap, clean)
    ensures RecordFits(r, h, true, false) && RecordFits(r, h, overlap, false)
  {
  }

  lemma PersistNowKeeps(n: NodeState, h: History, ok: bool)
    requires Good(n, h)
    ensures Good(PersistNow(n, ok), h)
  {
    hide LiveSessionFits; hide OrderFits; hide RecordFits;
    var b := PersistNow(n, ok).book;
    SnapshotFits(n, h, b.overlap, Clean(b));
    DirtierRecord(n.book.disk, h, n.book.overlap, Clean(n.book));
    if n.book.writing.Some? { DirtierRecord(n.book.writing.value, h, n.book.overlap, Clean(n.book)); }
  }

  lemma ReplyKeeps(n: NodeState, h: History, e: Env)
    requires Good(n, h)
    ensures Good(Reply(n, e), h)
  {
    hide Good;
    PersistNowKeeps(n, h, e.diskOk);
  }

  lemma WriterKeeps(n: NodeState, h: History, ok: bool)
    requires Good(n, h)
    ensures Good(WriterPop(n), h)
    ensures Good(WriterWrite(n, ok), h)
  {
    hide LiveSessionFits; hide OrderFits; hide RecordFits;
  }

  lemma StatusKeeps(n: NodeState, h: History, st: Status, now: nat)
    requires Good(n, h)
    requires st != Finished
    requires h.claimed && h.booked && n.live.Some? ==> Settled(n.live.value.(status := st))
    requires h.steady ==> !IsOrderTerminal(st)
    ensures Good(SetStatus(n, st, now), h)
  {
    hide LiveSessionFits; hide BookFits; hide HistoryFits;
  }

  lemma ShelveKeeps(n: NodeState, h: History, st: Status, now: nat)
    requires Good(n, h)
    requires !h.steady
    requires h.claimed && h.booked && n.live.Some? ==> Settled(n.live.value.(status := st))
    ensures Good(MoveToHistory(n, st, now), h)
  {
    hide LiveSessionFits; hide BookFits; hide HistoryFits;
  }

  lemma PruneKeeps(n: NodeState, h: History)
    requires Inv(n, h)
    ensures Inv(PruneSessions(n), h)
  {
    hide BookFits; hide HistoryFits; hide Counts;
  }

  /** Only timing, the hunt, what is known of the peer or the guard differ. */
  predicate SameCore(s: Session, t: Session) {
    && t == s.(await := t.await, secretHunt := t.secretHunt, peer := t.peer, pace := t.pace,
               vanishMisses := t.vanishMisses)
    && t.pace.depositRetries == s.pace.depositRetries
    && (t.pace.depositRetryAt == 0 || s.pace.depositRetryAt != 0 || s.deposit == NO_DEPOSIT)
    && t.vanishMisses <= s.vanishMisses
    && (s.peer.pub ==> t.peer.pub)
    && (t.peer.deposit ==> s.peer.deposit || s.isMaker || t.peer.pub)
    && (t.await ==> s.await || s.state != CS_FINISHED)
  }

  lemma SessionKeeps(n: NodeState, h: History, t: Session)
    requires Good(n, h)
    requires n.sess.Some? && SameCore(n.sess.value, t)
    ensures Good(n.(sess := Some(t)), h)
  {
    hide BookFits; hide HistoryFits;
  }

  /** The guard is taken for one fitting piece of work, or freed again. */
  lemma DispatchKeeps(n: NodeState, h: History, s: Session, w: Work, e: Env)
    requires Inv(n, h)
    requires n.sess.Some? && !n.sess.value.await && s.state != CS_FINISHED
    requires SameCore(n.sess.value, TakeGuard(s, e.now)) && SameCore(n.sess.value, s)
    requires WorkFits(w, s, h)
    ensures Inv(Dispatch(n, s, w, e), h)
  {
    hide LiveSessionFits; hide OrderFits; hide BookFits; hide HistoryFits;
    var t := TakeGuard(s, e.now);
    SessionKeeps(n, h, t);
    SessionKeeps(n, h, Release(t));
  }

  lemma RepostDepositKeeps(n: NodeState, h: History, w: Work, e: Env)
    requires Inv(n, h)
    requires n.sess.Some? && !n.sess.value.await && n.sess.value.state != CS_FINISHED
    requires WorkFits(w, n.sess.value, h)
    requires n.sess.value.deposit == NO_DEPOSIT || n.sess.value.pace.depositRetryAt != 0
    ensures Inv(RepostDeposit(n, w, e), h)
  {
    hide LiveSessionFits; hide OrderFits; hide BookFits; hide HistoryFits;
    var t := TakeGuard(Progress(DepositRetryAt(n.sess.value, 0), e.now), e.now);
    SessionKeeps(n, h, t);
    SessionKeeps(n, h, DepositRetryAt(Release(t), e.now + RETRY_BASE));
  }

  lemma RepostClaimKeeps(n: NodeState, h: History, w: Work, e: Env)
    requires Inv(n, h)
    requires n.sess.Some? && !n.sess.value.await && n.sess.value.state != CS_FINISHED
    requires WorkFits(w, n.sess.value, h)
    ensures Inv(RepostClaim(n, w, e), h)
  {
    hide LiveSessionFits; hide OrderFits; hide BookFits; hide HistoryFits;
    var t := TakeGuard(Progress(ClaimRetryAt(n.sess.value, 0), e.now), e.now);
    SessionKeeps(n, h, t);
    SessionKeeps(n, h, ClaimRetryAt(Release(t), e.now + RETRY_BASE));
  }

  // ---- Cancels -------------------------------------------------------------

  lemma RemoteCancelKeeps(n: NodeState, h: History, e: Env)
    requires Good(n, h)
    ensures Good(RemoteCancel(n, e), Judge(h, RemoteCancel(n, e)))
  {
    hide LiveSessionFits; hide BookFits; hide HistoryFits; hide EnqueueRefund; hide Snapshot; hide Persist;
    var u := Unsteady(h);
    UnsteadyGood(n, h);
    if n.live.Some? && Ordinal(n.live.value.status) < 6 { ShelveKeeps(n, u, Canceled, e.now); }
    if n.live.Some? && !(h.claimed && h.booked && n.live.value.depositSent) {
      var c := SetStatus(n, Canceled, e.now);
      StatusKeeps(n, u, Canceled, e.now);
      PersistKeeps(c, u);
      PersistKeeps(EnqueueRefund(c, false, e.queueFree), u);
    }
  }

  lemma UnsteadyGood(n: NodeState, h: History)
    requires Good(n, h)
    ensures Good(n, Unsteady(h))
  {
  }

  lemma SelfCancelKeeps(n: NodeState, h: History, e: Env)
    requires Good(n, h)
    ensures Good(SelfCancel(n, e), Judge(h, SelfCancel(n, e)))
  {
    hide LiveSessionFits; hide OrderFits; hide BookFits; hide HistoryFits;
    hide RemoteCancel; hide PersistNow;
    var m := RemoteCancel(n, e);
    RemoteCancelKeeps(n, h, e);
    PersistNowKeeps(m, Judge(h, m), e.diskOk);
    JudgeGood(n, h);
  }

  /** Steadiness that the invariant already vouches for is judged true again. */
  lemma JudgeGood(n: NodeState, h: History)
    requires Good(n, h)
    ensures Judge(h, n) == h
  {
  }

  lemma CancelOrderKeeps(n: NodeState, h: History, e: Env)
    requires Good(n, h)
    ensures Good(CancelOrder(n, e), Judge(h, CancelOrder(n, e)))
  {
    hide LiveSessionFits; hide BookFits; hide HistoryFits; hide EnqueueRefund; hide Snapshot; hide Persist;
    var u := Unsteady(h);
    UnsteadyGood(n, h);
    if n.live.Some? && Ordinal(n.live.value.status) <= 6 {
      var c := SetStatus(n, Canceled, e.now);
      StatusKeeps(n, u, Canceled, e.now);
      PersistKeeps(EnqueueRefund(c, false, e.queueFree), u);
    }
  }

  lemma RejectKeeps(n: NodeState, h: History, e: Env)
    requires Good(n, h)
    ensures Good(RemoteReject(n, e), Judge(h, RemoteReject(n, e)))
  {
    hide LiveSessionFits; hide BookFits; hide HistoryFits; hide Snapshot;
    var u := Unsteady(h);
    UnsteadyGood(n, h);
    if n.live.Some? && Ordinal(n.live.value.status) <= 3 {
      PersistKeeps(n.(live := Some(n.live.value.(status := Open, mine := false, roleB := false))), u);
    }
  }

  lemma FundingSpentKeeps(n: NodeState, h: History, e: Env)
    requires Good(n, h)
    ensures Good(FundingSpent(n, e), Judge(h, FundingSpent(n, e)))
  {
    hide BookFits; hide HistoryFits; hide Snapshot; hide SessionFits; hide CarriesIntent; hide Counts;
    var u := Unsteady(h);
    UnsteadyGood(n, h);
    if n.sess.Some? && n.sess.value.state == CS_MAKER {
      StatusKeeps(n, u, Canceled, e.now);
      PersistKeeps(SetStatus(n, Canceled, e.now), u);
    }
  }

  lemma TouchKeeps(n: NodeState, h: History, now: nat)
    requires Good(n, h)
    ensures Good(TouchOrder(n, now), h)
  {
    hide LiveSessionFits; hide BookFits; hide HistoryFits;
  }

  lemma ExpiryKeeps(n: NodeState, h: History, expired: bool, now: nat)
    requires Good(n, h)
    ensures Good(PruneExpired(n, expired, now), Judge(h, PruneExpired(n, expired, now)))
  {
    hide LiveSessionFits; hide BookFits; hide HistoryFits;
    UnsteadyGood(n, h);
    if n.live.Some? && n.live.value.status in {Created, Open} { ShelveKeeps(n, Unsteady(h), Expired, now); }
  }

  lemma GarbageKeeps(n: NodeState, h: History, tracked: bool, now: nat)
    requires Good(n, h)
    ensures Good(GcStaleMineOrders(n, tracked, now), Judge(h, GcStaleMineOrders(n, tracked, now)))
  {
    hide LiveSessionFits; hide BookFits; hide HistoryFits;
    UnsteadyGood(n, h);
    if n.live.Some? && !n.live.value.depositSent { ShelveKeeps(n, Unsteady(h), Dropped, now); }
  }

  lemma StalledKeeps(n: NodeState, h: History, e: Env)
    requires Good(n, h)
    ensures Good(WatchStalled(n, e), Judge(h, WatchStalled(n, e)))
  {
    hide Good; hide SelfCancel; hide Stalled;
    SelfCancelKeeps(n, h, e);
    JudgeGood(n, h);
  }

  // ---- Refunds -------------------------------------------------------------

  lemma StoredKeeps(n: NodeState, h: History, watched: bool, confirmed: bool, e: Env)
    requires Good(n, h)
    ensures Good(ScanStoredRefunds(n, watched, confirmed, e), h)
  {
    hide LiveSessionFits; hide BookFits; hide HistoryFits; hide Snapshot;
    hide RollbackGate; hide PostRefund; hide ClearRefundBackoff; hide RefundBackoffActive; hide MarkPending;
    if n.live.Some? && n.sess.None? && n.live.value.depositSent && n.live.value.status != Finished {
      StatusKeeps(n, h, RolledBack, e.now);
      PersistKeeps(ClearRefundBackoff(n), h);
      PersistKeeps(ClearRefundBackoff(SetStatus(n, RolledBack, e.now)), h);
    }
    MarkPendingFrame(n);
  }

  lemma MarkPendingFrame(n: NodeState)
    ensures MarkPending(n) == n.(refund := MarkPending(n).refund)
  {
  }

  lemma FailRefundKeeps(n: NodeState, h: History, manual: bool, now: nat)
    requires Good(n, h)
    ensures Good(FailRefund(n, manual, now), h)
  {
    hide LiveSessionFits; hide BookFits; hide HistoryFits; hide Snapshot;
    hide RollbackGate; hide RecordRefundFailure; hide RefundDelay;
    if n.live.Some? && !IsOrderTerminal(n.live.value.status) {
      StatusKeeps(n, h, RollbackFailed, now);
      PersistKeeps(SetStatus(n, RollbackFailed, now), h);
    }
    PersistKeeps(n, h);
  }

  lemma HuntKeeps(n: NodeState, h: History)
    requires Good(n, h) && n.sess.Some?
    ensures Good(EnterSecretHunt(n), h)
  {
    hide LiveSessionFits; hide BookFits; hide HistoryFits; hide OrderFits; hide Persist;
    var t := n.sess.value.(secretHunt := true);
    SessionKeeps(n, h, t);
    PersistKeeps(ClearRefundBackoff(n.(sess := Some(t))), h);
  }

  /** The refund is out: nothing is owed any more. */
  function Refunded(h: History): History {
    h.(settled := true, steady := false)
  }

  lemma RefundedKeeps(n: NodeState, h: History, now: nat)
    requires Good(n, h)
    ensures Good(MarkRefunded(n, now), Refunded(h))
  {
    hide RefundDelay;
  }

  lemma CompleteRefundKeeps(n: NodeState, h: History, now: nat)
    requires Inv(n, h)
    ensures Inv(CompleteRefund(n, now), Refunded(h))
  {
    hide LiveSessionFits; hide OrderFits; hide BookFits; hide HistoryFits;
    hide MarkRefunded; hide PruneSessions; hide Persist;
    var m := MarkRefunded(n, now);
    RefundedKeeps(n, h, now);
    PersistKeeps(m, Refunded(h));
    assert Persist(m).work == n.work && Persist(m).sess == m.sess;
    PruneKeeps(Persist(m), Refunded(h));
  }

  lemma ApplyRefundKeeps(n: NodeState, h: History, i: nat, r: RefundResult, now: nat)
    requires Inv(n, h) && i < |n.refund.tasks|
    ensures Inv(ApplyRefund(n, i, r, now), if r.RefundSent? then Refunded(h) else h)
  {
    hide LiveSessionFits; hide OrderFits; hide BookFits; hide HistoryFits;
    hide TakeRefund; hide EnterSecretHunt; hide FailRefund; hide CompleteRefund; hide RecordRefundFailure;
    var m := TakeRefund(n, i);
    if m.sess.Some? { HuntKeeps(m, h); }
    FailRefundKeeps(m, h, n.refund.tasks[i].manual, now);
    CompleteRefundKeeps(m, h, now);
  }
}
