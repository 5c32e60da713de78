/** What each step of the swap does to the state, as functions on values.

    A step takes the wallet's and the clock's answers as arguments: `Env` holds
    the ones nearly every step needs.  Session handlers require a session, as the
    callers that dispatch to them check; the rest is total. */
module SwapSpec {
  import opened Wrappers
  import opened SwapTypes

  const SECOND: nat := 1_000_000
  const NOT_READY_POLL: nat := 5 * SECOND
  const NOT_READY_TAPER_AFTER: nat := 60 * SECOND
  const NOT_READY_TAPER_POLL: nat := 15 * SECOND
  const NOT_READY_FAST_WINDOW: nat := 600 * SECOND
  const RETRY_BASE: nat := 60 * SECOND
  const RETRY_CAP: nat := 900 * SECOND
  const BROADCAST_REPOST_MAX: nat := 10
  const AWAIT_STUCK: nat := 180 * SECOND
  const SESSION_STALL: nat := 1800 * SECOND
  const MINE_ORDER_TTL: nat := 86_400 * SECOND
  const REFUND_BACKOFF_BASE: nat := 600 * SECOND
  const REFUND_BACKOFF_CAP: nat := 86_400 * SECOND
  const STALE_BACKDATE: nat := 241 * SECOND

  /** Answers of the environment to one step. */
  datatype Env = Env(
    now: nat,
    queueFree: bool,   // the task queue takes one more task
    diskOk: bool,      // the durable write of this step succeeds
    netOk: bool,       // there is a network connector and signing works
    verified: bool,    // a cancel or reject packet carries a signature the order accepts
    iCanceled: bool,   // ... and it is our own key
    walletOk: bool)    // the wallet connector the step asks for is configured

  // ---- Snapshots -----------------------------------------------------------

  predicate DepositSent(n: NodeState) {
    n.live.Some? && n.live.value.depositSent
  }

  predicate SessionIsTerminal(n: NodeState)
    requires n.sess.Some?
  {
    var s := n.sess.value;
    if s.state == CS_FINISHED then true
    else if s.deposit.refund != Empty && !s.refundDone && (s.state >= CS_CREATED_A || DepositSent(n)) then false
    else if s.await then false
    else n.live.None? || IsOrderTerminal(n.live.value.status) || s.refundDone
  }

  /** The record the swap file would hold now; None when the order is not ours. */
  function Snapshot(n: NodeState): Option<Record> {
    if n.live.Some? && n.live.value.mine then
      Some(Record(n.live.value, if n.sess.Some? && !SessionIsTerminal(n) then n.sess else None, false))
    else if n.hist.Some? && n.hist.value.mine then
      Some(Record(n.hist.value, None, true))
    else None
  }

  /** The durable write: drops the queued snapshot, then writes the current one. */
  function PersistNow(n: NodeState, ok: bool): (r: NodeState)
    ensures r == n.(book := r.book)
  {
    n.(book := Book(if ok then Snapshot(n) else n.book.disk,
                    None,
                    n.book.writing,
                    n.book.overlap || (ok && n.book.writing.Some?),
                    n.book.writeFailed || !ok))
  }

  function Persist(n: NodeState): (r: NodeState)
    ensures r == n.(book := r.book)
  {
    n.(book := n.book.(queued := Some(Snapshot(n))))
  }

  function WriterPop(n: NodeState): (r: NodeState)
    ensures r == n.(book := r.book)
  {
    if n.book.writing.None? && n.book.queued.Some? then
      n.(book := n.book.(writing := n.book.queued, queued := None))
    else n
  }

  function WriterWrite(n: NodeState, ok: bool): (r: NodeState)
    ensures r == n.(book := r.book)
  {
    if n.book.writing.None? then n
    else n.(book := n.book.(writing := None, disk := if ok then n.book.writing.value else n.book.disk))
  }

  // ---- Order book ----------------------------------------------------------

  function SetStatus(n: NodeState, st: Status, now: nat): (r: NodeState)
    ensures r == n.(live := r.live)
  {
    if n.live.None? then n else n.(live := Some(n.live.value.(status := st, updated := now)))
  }

  function MoveToHistory(n: NodeState, st: Status, now: nat): (r: NodeState)
    ensures r == n.(live := None, hist := r.hist)
  {
    if n.live.None? then n
    else n.(live := None,
            hist := if n.hist.Some? then n.hist else Some(n.live.value.(status := st, updated := now)))
  }

  function PruneSessions(n: NodeState): (r: NodeState)
    ensures r == n.(sess := r.sess, refund := r.refund, watch := r.watch)
  {
    if n.sess.Some? && SessionIsTerminal(n) then
      n.(sess := None, refund := RefundQueue(n.refund.tasks, false, 0, 0),
         watch := WatchQueue(n.watch.tasks, false, false))
    else n
  }

  // ---- The await guard and the task queue ----------------------------------

  function TakeGuard(s: Session, now: nat): Session {
    s.(await := true, pace := s.pace.(awaitSince := now))
  }

  function Release(s: Session): Session {
    s.(await := false, pace := s.pace.(awaitSince := 0))
  }

  function Progress(s: Session, now: nat): Session {
    s.(pace := s.pace.(lastProgress := now))
  }

  /** Enqueue w; a full queue drops it and frees the guard. */
  function PostWork(n: NodeState, w: Work, free: bool): (r: NodeState)
    ensures r == n.(sess := r.sess, work := r.work)
  {
    if free then n.(work := n.work + [w])
    else if n.sess.Some? then n.(sess := Some(Release(n.sess.value)))
    else n
  }

  /** A task released as stuck is lost: no result of it arrives later. */
  function ClearStuckAwait(n: NodeState, now: nat): (r: NodeState)
    ensures r == n.(sess := r.sess, work := r.work)
  {
    if n.sess.None? then n else
    var s := n.sess.value;
    if !s.await || s.pace.awaitSince == 0 || now < s.pace.awaitSince || now - s.pace.awaitSince <= AWAIT_STUCK then n
    else n.(sess := Some(Release(s)), work := [])
  }

  // ---- Retry schedules -----------------------------------------------------

  function RetryBackoff(retries: nat): nat {
    var d := RETRY_BASE * (if retries == 0 then 1 else if retries == 1 then 2 else if retries == 2 then 4 else 8);
    if d > RETRY_CAP then RETRY_CAP else d
  }

  function ScheduleDepositRetry(n: NodeState, e: Env): (r: NodeState)
    requires n.sess.Some?
    ensures r == n.(sess := r.sess, book := r.book)
  {
    var s := n.sess.value;
    PersistNow(n.(sess := Some(s.(pace := s.pace.(depositRetries := s.pace.depositRetries + 1,
                                                  depositRetryAt := e.now + RetryBackoff(s.pace.depositRetries),
                                                  lastProgress := e.now)))), e.diskOk)
  }

  function ScheduleClaimRetry(n: NodeState, e: Env): (r: NodeState)
    requires n.sess.Some?
    ensures r == n.(sess := r.sess, book := r.book)
  {
    var s := n.sess.value;
    PersistNow(n.(sess := Some(s.(pace := s.pace.(claimRetries := s.pace.claimRetries + 1,
                                                  claimRetryAt := e.now + RetryBackoff(s.pace.claimRetries),
                                                  lastProgress := e.now)))), e.diskOk)
  }

  function ClearDepositRetry(s: Session): Session {
    s.(pace := s.pace.(depositRetryAt := 0, depositRetries := 0, notReadySince := 0, notReadySeen := false))
  }

  function ClearClaimRetry(s: Session): Session {
    s.(pace := s.pace.(claimRetryAt := 0, claimRetries := 0, notReadySince := 0, notReadySeen := false))
  }

  /** Why a build failed. */
  datatype Failure = SelfCancelErr | NotReady(seen: bool) | OtherErr

  predicate PastFastWindow(s: Session, now: nat) {
    s.pace.notReadySince != 0 && s.pace.notReadySince <= now && now - s.pace.notReadySince >= NOT_READY_FAST_WINDOW
  }

  /** The fast re-poll of a deposit that is not visible yet. */
  function ScheduleNotReady(n: NodeState, isClaim: bool, seen: bool, e: Env): (r: NodeState)
    requires n.sess.Some?
    ensures r == n.(sess := r.sess, book := r.book)
  {
    var s := n.sess.value;
    var since := if s.pace.notReadySince == 0 || s.pace.notReadySince > e.now then e.now else s.pace.notReadySince;
    var poll := if !seen && e.now - since >= NOT_READY_TAPER_AFTER then NOT_READY_TAPER_POLL else NOT_READY_POLL;
    var p := s.pace.(notReadySince := since, notReadySeen := seen, lastProgress := e.now);
    PersistNow(n.(sess := Some(s.(pace := if isClaim then p.(claimRetryAt := e.now + poll)
                                          else p.(depositRetryAt := e.now + poll)))), e.diskOk)
  }

  /** Schedule the next attempt after a failed build: fast re-poll or backoff. */
  function ScheduleAfterFailure(n: NodeState, isClaim: bool, f: Failure, e: Env): (r: NodeState)
    requires n.sess.Some?
    ensures r == n.(sess := r.sess, book := r.book)
  {
    var s := n.sess.value;
    // A not-ready stamp ahead of the clock is pulled back before the window is judged.
    var s1 := if f.NotReady? && s.pace.notReadySince > e.now then s.(pace := s.pace.(notReadySince := e.now)) else s;
    var m := n.(sess := Some(s1));
    if f.NotReady? && !PastFastWindow(s1, e.now) then ScheduleNotReady(m, isClaim, f.seen, e)
    else if isClaim then ScheduleClaimRetry(m, e)
    else ScheduleDepositRetry(m, e)
  }

  // ---- Refunds -------------------------------------------------------------

  predicate RollbackGate(n: NodeState) {
    if n.sess.Some? then n.sess.value.state >= CS_CREATED_A || DepositSent(n)
    else n.live.Some? && n.live.value.refundTx.Some? && n.live.value.depositSent
  }

  function PostRefund(n: NodeState, r: Refund, manual: bool, free: bool): (m: NodeState)
    ensures m == n.(refund := m.refund)
  {
    var known := if n.sess.Some? && n.sess.value.deposit.txid != Empty then true
                 else n.live.Some? && n.live.value.binTxId != Empty;
    if free then
      n.(refund := n.refund.(tasks := n.refund.tasks + [RefundTask(r, manual, known && RollbackGate(n))]))
    else n.(refund := n.refund.(pending := false))
  }

  function MarkPending(n: NodeState): NodeState {
    n.(refund := n.refund.(pending := true))
  }

  predicate RefundBackoffActive(n: NodeState, now: nat) {
    n.refund.retryAt != 0 && now < n.refund.retryAt
  }

  /** 10 minutes doubling per attempt, capped at 24 hours. */
  function RefundDelay(attempts: nat): nat {
    if attempts <= 1 then REFUND_BACKOFF_BASE
    else if RefundDelay(attempts - 1) >= REFUND_BACKOFF_CAP then REFUND_BACKOFF_CAP
    else if 2 * RefundDelay(attempts - 1) > REFUND_BACKOFF_CAP then REFUND_BACKOFF_CAP
    else 2 * RefundDelay(attempts - 1)
  }

  function RecordRefundFailure(n: NodeState, now: nat): (r: NodeState)
    ensures r == n.(refund := r.refund)
  {
    n.(refund := n.refund.(attempts := n.refund.attempts + 1, retryAt := now + RefundDelay(n.refund.attempts + 1)))
  }

  function ClearRefundBackoff(n: NodeState): (r: NodeState)
    ensures r == n.(refund := r.refund)
  {
    n.(refund := n.refund.(attempts := 0, retryAt := 0))
  }

  function EnterSecretHunt(n: NodeState): (r: NodeState)
    requires n.sess.Some?
    ensures r == n.(sess := Some(n.sess.value.(secretHunt := true)), refund := r.refund, book := r.book)
  {
    if n.sess.value.secretHunt then n
    else Persist(ClearRefundBackoff(n.(sess := Some(n.sess.value.(secretHunt := true)))))
  }

  function EnqueueRefund(n: NodeState, manual: bool, free: bool): (r: NodeState)
    ensures r == n.(refund := r.refund)
  {
    if n.sess.Some? && n.sess.value.deposit.refund != Empty then
      if n.sess.value.state < CS_CREATED_A && !DepositSent(n) then n
      else PostRefund(MarkPending(n), RefundOf(n.sess.value.deposit), manual, free)
    else if n.live.None? || n.live.value.refundTx.None? || !n.live.value.depositSent then n
    else PostRefund(n, n.live.value.refundTx.value, true, free)
  }

  /** The sweep over live sessions. */
  function ScanRefunds(n: NodeState, e: Env): (r: NodeState)
    ensures r == n.(refund := r.refund)
  {
    if n.sess.None? then n else
    var s := n.sess.value;
    if s.refundDone || s.deposit.refund == Empty || s.state == CS_FINISHED then n
    else if s.secretHunt then n
    else if s.isMaker && s.state >= CS_CONFIRMED_A then n
    else if !s.isMaker && s.state >= CS_CONFIRMED_B then n
    else if RefundBackoffActive(n, e.now) then n
    else if s.state < CS_CREATED_A && !DepositSent(n) then n
    else if n.refund.pending then n
    else PostRefund(MarkPending(n), RefundOf(s.deposit), false, e.queueFree)
  }

  /** A refund the tracker has already broadcast: settle its order once confirmed. */
  function SettleWatchedRefund(n: NodeState, confirmed: bool, now: nat): (r: NodeState)
    requires n.live.Some?
    ensures r == n.(live := r.live, refund := r.refund, book := r.book)
  {
    var seen := confirmed && RollbackGate(n);
    var n1 := if seen && (!IsOrderTerminal(n.live.value.status) || n.live.value.status == Canceled)
              then SetStatus(n, RolledBack, now) else n;
    var n2 := ClearRefundBackoff(n1);
    if seen then Persist(n2) else n2
  }

  /** The sweep over stored orders with no live session. */
  function ScanStoredRefunds(n: NodeState, watched: bool, confirmed: bool, e: Env): (r: NodeState)
    ensures r == n.(live := r.live, refund := r.refund, book := r.book)
  {
    if n.live.None? then n else
    var o := n.live.value;
    if !o.mine || o.refundTx.None? || !o.depositSent then n
    else if o.status in {Finished, Dropped, Invalid, RolledBack} then n
    else if n.sess.Some? then n
    else if RefundBackoffActive(n, e.now) then n
    else if watched then SettleWatchedRefund(n, confirmed, e.now)
    else if !e.walletOk || n.refund.pending then n
    else PostRefund(MarkPending(n), o.refundTx.value, false, e.queueFree)
  }

  /** How a refund attempt ended. */
  datatype RefundResult = RefundSent | RefundDeferred | RefundFailed | DepositSpent

  function FailRefund(n: NodeState, manual: bool, now: nat): (r: NodeState)
    ensures r == n.(live := r.live, refund := r.refund, book := r.book)
  {
    var n1 := if RollbackGate(n) then
                Persist(if n.live.Some? && !IsOrderTerminal(n.live.value.status)
                           && n.live.value.status != RollbackFailed
                        then SetStatus(n, RollbackFailed, now) else n)
              else n;
    if manual then n1 else RecordRefundFailure(n1, now)
  }

  /** The session and the order after a refund went out, before the write and the prune. */
  function MarkRefunded(n: NodeState, now: nat): (r: NodeState)
    ensures r == n.(sess := r.sess, live := r.live, refund := r.refund)
    ensures r.sess == if n.sess.Some? then Some(n.sess.value.(refundDone := true)) else None
  {
    var n1 := ClearRefundBackoff(n);
    var n2 := if n1.sess.Some? then n1.(sess := Some(n1.sess.value.(refundDone := true))) else n1;
    if RollbackGate(n2) && n2.live.Some?
       && (!IsOrderTerminal(n2.live.value.status) || n2.live.value.status == Canceled)
       && n2.live.value.status != RolledBack
    then SetStatus(n2, RolledBack, now) else n2
  }

  function CompleteRefund(n: NodeState, now: nat): NodeState {
    PruneSessions(Persist(MarkRefunded(n, now)))
  }

  /** The refund task at i is off the queue. */
  function TakeRefund(n: NodeState, i: nat): (r: NodeState)
    requires i < |n.refund.tasks|
    ensures r == n.(refund := r.refund)
  {
    n.(refund := n.refund.(tasks := n.refund.tasks[..i] + n.refund.tasks[i + 1..], pending := false))
  }

  function ApplyRefund(n: NodeState, i: nat, r: RefundResult, now: nat): NodeState
    requires i < |n.refund.tasks|
  {
    var t := n.refund.tasks[i];
    var m := TakeRefund(n, i);
    if r.DepositSpent? && t.proveSpend && m.sess.Some? && !m.sess.value.isMaker then EnterSecretHunt(m)
    else if r.DepositSpent? && t.proveSpend && m.sess.None? then
      if t.manual then m else RecordRefundFailure(m, now)
    else if r.DepositSpent? || r.RefundFailed? then FailRefund(m, t.manual, now)
    else if r.RefundDeferred? then m
    else CompleteRefund(m, now)
  }

  // ---- Cancels -------------------------------------------------------------

  /** A cancel packet, from the hub, the counterparty or ourselves. */
  function RemoteCancel(n: NodeState, e: Env): (r: NodeState)
    ensures r == n.(live := r.live, hist := r.hist, refund := r.refund, book := r.book)
  {
    if n.live.None? || !e.verified || !e.walletOk then n else
    var o := n.live.value;
    if o.mine && Ordinal(o.status) <= 2 && !e.iCanceled then
      n.(live := Some(o.(updated := if e.now >= STALE_BACKDATE then e.now - STALE_BACKDATE else 0)))
    else if Ordinal(o.status) < 6 then MoveToHistory(n, Canceled, e.now)
    else if o.status == Canceled then n
    else if !o.depositSent then Persist(SetStatus(n, Canceled, e.now))
    else if o.counterpartyRedeemed then n
    else if o.refundTx.None? then Persist(SetStatus(n, Canceled, e.now))
    else Persist(EnqueueRefund(SetStatus(n, Canceled, e.now), false, e.queueFree))
  }

  /** Our own Cancel: local rollback first, then the durable write, then the wire.
      Whether the order still accepts our key is left to the environment. */
  function SelfCancel(n: NodeState, e: Env): (r: NodeState)
    ensures r == n.(live := r.live, hist := r.hist, refund := r.refund, book := r.book)
  {
    if !e.netOk then n else PersistNow(RemoteCancel(n, e), e.diskOk)
  }

  /** dxCancelOrder, from the point where it runs on the engine; that the order is ours was
      checked before and is not checked again. */
  function CancelOrder(n: NodeState, e: Env): (r: NodeState)
    ensures r == n.(live := r.live, refund := r.refund, book := r.book)
  {
    if n.live.None? || !e.walletOk then n
    else if Ordinal(n.live.value.status) > 6 then n
    else if n.sess.None? || !e.netOk then n
    else Persist(EnqueueRefund(SetStatus(n, Canceled, e.now), false, e.queueFree))
  }

  /** A hub Reject restores the order to the open book; it is no longer ours. */
  function RemoteReject(n: NodeState, e: Env): (r: NodeState)
    ensures r == n.(live := r.live, book := r.book)
  {
    if n.live.None? || !e.verified then n else
    var o := n.live.value;
    if !o.roleB || Ordinal(o.status) > 3 then n
    else Persist(n.(live := Some(o.(status := Open, mine := false, roleB := false))))
  }

  /** The rebroadcast sweep found a funding output spent. */
  function FundingSpent(n: NodeState, e: Env): (r: NodeState)
    ensures r == n.(live := r.live, book := r.book)
  {
    if n.sess.Some? && n.sess.value.isMaker && n.sess.value.state == CS_MAKER
       && n.live.Some? && n.live.value.mine && n.live.value.status == Open
    then Persist(SetStatus(n, Canceled, e.now)) else n
  }

  function TouchOrder(n: NodeState, now: nat): (r: NodeState)
    ensures r == n.(live := r.live)
  {
    if n.live.None? then n else n.(live := Some(n.live.value.(updated := now)))
  }

  // ---- Expiry and garbage collection ---------------------------------------

  predicate InSwap(n: NodeState) {
    n.sess.Some? && n.sess.value.state > CS_MAKER
    && (n.sess.value.isMaker || (n.live.Some? && n.live.value.status != Open))
  }

  /** `expired` is the verdict of the TTLs; only open and created orders are swept. */
  function PruneExpired(n: NodeState, expired: bool, now: nat): (r: NodeState)
    ensures r == n.(live := r.live, hist := r.hist)
  {
    if n.live.Some? && !InSwap(n) && n.live.value.status in {Created, Open} && expired
    then MoveToHistory(n, Expired, now) else n
  }

  function GcStaleMineOrders(n: NodeState, tracked: bool, now: nat): (r: NodeState)
    ensures r == n.(live := r.live, hist := r.hist)
  {
    if n.live.None? then n else
    var o := n.live.value;
    if !o.mine || IsOrderTerminal(o.status) || o.depositSent || n.sess.Some? || tracked
       || now < o.updated || now - o.updated <= MINE_ORDER_TTL
    then n else MoveToHistory(n, Dropped, now)
  }

  predicate Stalled(n: NodeState, now: nat) {
    n.sess.Some? &&
    var s := n.sess.value;
    && s.state != CS_FINISHED && !s.refundDone && !s.await && s.claim.hex == Empty && !s.secretHunt
    && s.pace.lastProgress != 0 && now >= s.pace.lastProgress && now - s.pace.lastProgress > SESSION_STALL
    && !(n.live.Some? && (IsOrderTerminal(n.live.value.status)
                          || n.live.value.status in {RolledBack, RollbackFailed}
                          || n.live.value.counterpartyRedeemed))
    && !RefundBackoffActive(n, now)
  }

  function WatchStalled(n: NodeState, e: Env): (r: NodeState)
    ensures r == n.(live := r.live, hist := r.hist, refund := r.refund, book := r.book)
  {
    if Stalled(n, e.now) then SelfCancel(n, e) else n
  }

  // ---- Handshake packets ---------------------------------------------------

  /** The payload verdicts a handshake packet brings. */
  datatype Packet =
    | HoldPkt(ok: bool)                              // amounts and source address check out
    | InitPkt(ok: bool)
    | CreateAPkt(keyGiven: bool)
    | CreateBPkt(depositGiven: bool, keyGiven: bool)
    | ConfirmAPkt(depositGiven: bool)
    | ConfirmBPkt(payTxGiven: bool)
    | FinishedPkt

  /** The response leaves only over a live connector, and only once the state is durable. */
  function Reply(n: NodeState, e: Env): (r: NodeState)
    ensures r == n.(book := r.book)
  {
    if e.netOk then PersistNow(n, e.diskOk) else n
  }

  function OnHold(n: NodeState, ok: bool, e: Env): (r: NodeState)
    requires n.sess.Some?
    ensures r == n.(sess := r.sess, live := r.live, book := r.book)
  {
    var s := n.sess.value;
    if s.state >= CS_HOLD_APPLIED || !ok then n else
    var n1 := if s.isMaker then Persist(n) else n;
    Reply(SetStatus(n1.(sess := Some(s.(state := CS_HOLD_APPLIED))), Status.Hold, e.now), e)
  }

  function OnInit(n: NodeState, ok: bool, e: Env): (r: NodeState)
    requires n.sess.Some?
    ensures r == n.(sess := r.sess, live := r.live, book := r.book)
  {
    var s := n.sess.value;
    if s.state >= CS_INITIALIZED || !ok then n else
    Reply(SetStatus(n.(sess := Some(s.(state := CS_INITIALIZED))), Initialized, e.now), e)
  }

  /** Take the guard and hand w to a worker. */
  function Dispatch(n: NodeState, s: Session, w: Work, e: Env): (r: NodeState)
    requires n.sess.Some?
    ensures r == n.(sess := r.sess, work := r.work)
  {
    PostWork(n.(sess := Some(TakeGuard(s, e.now))), w, e.queueFree)
  }

  function OnCreateA(n: NodeState, keyGiven: bool, e: Env): (r: NodeState)
    requires n.sess.Some?
    ensures r == n.(sess := r.sess, work := r.work)
  {
    var s := n.sess.value;
    if !s.isMaker || s.state >= CS_CREATED_A || s.await || !keyGiven then n
    else Dispatch(n, s.(peer := s.peer.(pub := true)), DepositBuild, e)
  }

  function OnCreateB(n: NodeState, depositGiven: bool, keyGiven: bool, e: Env): NodeState
    requires n.sess.Some?
  {
    var s := n.sess.value;
    if s.state >= CS_CREATED_B || s.await || s.isMaker then n
    else if !depositGiven then SelfCancel(n, e)
    else if s.peer.pub || !keyGiven then n
    else Dispatch(n, s.(peer := s.peer.(pub := true, deposit := true)), DepositBuild, e)
  }

  function OnConfirmA(n: NodeState, depositGiven: bool, e: Env): (r: NodeState)
    requires n.sess.Some?
    ensures r == n.(sess := r.sess, work := r.work)
  {
    var s := n.sess.value;
    if s.state >= CS_CONFIRMED_A || !s.isMaker || s.await then n
    else Dispatch(n, s.(peer := s.peer.(deposit := depositGiven)), ClaimBuild(true), e)
  }

  function OnConfirmB(n: NodeState, payTxGiven: bool, e: Env): (r: NodeState)
    requires n.sess.Some?
    ensures r == n.(sess := r.sess, work := r.work, book := r.book)
  {
    var s := n.sess.value;
    if s.state >= CS_CONFIRMED_B || s.await then n else
    var t := s.(peer := s.peer.(payTx := payTxGiven));
    Dispatch(Persist(n.(sess := Some(t))), t, ClaimBuild(false), e)
  }

  predicate FinishedMayTerminate(n: NodeState)
    requires n.sess.Some?
  {
    if n.sess.value.state >= CS_CONFIRMED_A then true
    else if n.live.Some? && n.live.value.counterpartyRedeemed then true
    else n.sess.value.state < CS_CREATED_A && !DepositSent(n)
  }

  function OnFinished(n: NodeState, e: Env): NodeState
    requires n.sess.Some?
  {
    if !FinishedMayTerminate(n) then n else
    var n1 := MoveToHistory(n, Finished, e.now);
    PruneSessions(Persist(n1.(sess := Some(n.sess.value.(state := CS_FINISHED)))))
  }

  /** Dispatch of a hub packet that passed the signature gate. */
  function ProcessSwap(n: NodeState, p: Packet, e: Env): NodeState {
    if n.sess.None? then n else
    var m := n.(sess := Some(Progress(n.sess.value, e.now)));
    if m.sess.value.await then m else
    match p
    case HoldPkt(ok) => OnHold(m, ok, e)
    case InitPkt(ok) => OnInit(m, ok, e)
    case CreateAPkt(k) => OnCreateA(m, k, e)
    case CreateBPkt(d, k) => OnCreateB(m, d, k, e)
    case ConfirmAPkt(d) => OnConfirmA(m, d, e)
    case ConfirmBPkt(t) => OnConfirmB(m, t, e)
    case FinishedPkt => OnFinished(m, e)
  }

  // ---- Deposits ------------------------------------------------------------

  predicate PreCreated(s: Session) {
    if s.isMaker then s.state < CS_CREATED_A else s.state < CS_CREATED_B
  }

  function ReleaseGuard(n: NodeState): (r: NodeState)
    requires n.sess.Some?
    ensures r == n.(sess := r.sess)
  {
    n.(sess := Some(Release(n.sess.value)))
  }

  function ApplyDepositFailure(n: NodeState, f: Failure, e: Env): NodeState {
    if n.sess.None? then n else
    var m := ReleaseGuard(n);
    if f.SelfCancelErr? && !m.sess.value.isMaker then SelfCancel(m, e)
    else if m.sess.value.deposit.txid == Empty then ScheduleAfterFailure(m, false, f, e)
    else m
  }

  /** The session and the order adopt a freshly built deposit. */
  function AdoptBuild(n: NodeState, d: Deposit): (r: NodeState)
    requires n.sess.Some?
    ensures r == n.(sess := r.sess, live := r.live)
  {
    var s := ClearDepositRetry(n.sess.value);
    n.(sess := Some(s.(deposit := d, peer := s.peer.(validated := s.peer.validated || !s.isMaker))),
       live := if n.live.None? then None
               else Some(n.live.value.(binTxId := d.txid, depositSent := false, refundTx := Some(RefundOf(d)))))
  }

  /** Durable intent before the broadcast: a failed write withholds the deposit. */
  function ApplyDepositBuild(n: NodeState, d: Deposit, e: Env): (r: NodeState)
    ensures r == n.(sess := r.sess, live := r.live, work := r.work, book := r.book)
  {
    if n.sess.None? then n else
    var n1 := PersistNow(AdoptBuild(n, d), e.diskOk);
    if !e.diskOk then ReleaseGuard(n1) else PostWork(n1, DepositSend(d), e.queueFree)
  }

  /** The session and the order once the deposit counts as out. */
  function MarkSent(n: NodeState, now: nat): (r: NodeState)
    requires n.sess.Some?
    ensures r == n.(sess := r.sess, live := r.live)
  {
    var s := ClearDepositRetry(n.sess.value);
    n.(sess := Some(s.(state := if s.isMaker then CS_CREATED_A else CS_CREATED_B)),
       live := if n.live.None? then None
               else Some(n.live.value.(depositSent := true, status := Created, updated := now)))
  }

  function ConfirmDeposit(n: NodeState, e: Env): (r: NodeState)
    requires n.sess.Some?
    ensures r == n.(sess := r.sess, live := r.live, work := r.work, book := r.book)
  {
    Reply(Persist(MarkSent(n, e.now)), e)
  }

  function ApplyDepositSend(n: NodeState, ok: bool, e: Env): (r: NodeState)
    ensures r == n.(sess := r.sess, live := r.live, work := r.work, book := r.book)
  {
    if n.sess.None? then n else
    var m := ReleaseGuard(n);
    if ok then ConfirmDeposit(m.(sess := Some(Progress(m.sess.value, e.now))), e)
    else if m.sess.value.deposit.txid != Empty && m.sess.value.deposit.hex != Empty then ScheduleDepositRetry(m, e)
    else m
  }

  function DepositRetryAt(s: Session, at: nat): Session {
    s.(pace := s.pace.(depositRetryAt := at))
  }

  /** A sweep re-posts w: a full queue leaves the retry due one base delay later. */
  function RepostDeposit(n: NodeState, w: Work, e: Env): (r: NodeState)
    requires n.sess.Some?
    ensures r == n.(sess := r.sess, work := r.work)
  {
    var h := TakeGuard(Progress(DepositRetryAt(n.sess.value, 0), e.now), e.now);
    if e.queueFree then PostWork(n.(sess := Some(h)), w, true)
    else n.(sess := Some(DepositRetryAt(Release(h), e.now + RETRY_BASE)))
  }

  /** Repost the identical bytes, or adopt the confirmation the chain shows. */
  function AdoptOrRepostDeposit(n: NodeState, onChain: bool, e: Env): (r: NodeState)
    requires n.sess.Some?
    ensures r == n.(sess := r.sess, live := r.live, work := r.work, book := r.book)
  {
    var s := n.sess.value;
    if e.walletOk && onChain then ConfirmDeposit(ReleaseGuard(n.(sess := Some(DepositRetryAt(s, 0)))), e)
    else if s.pace.depositRetries >= BROADCAST_REPOST_MAX then n.(sess := Some(DepositRetryAt(s, 0)))
    else if !e.walletOk then n.(sess := Some(DepositRetryAt(s, e.now + RETRY_BASE)))
    else RepostDeposit(n, DepositSend(s.deposit), e)
  }

  predicate BuildDue(s: Session, now: nat) {
    if s.pace.depositRetryAt == 0 then s.pace.lastProgress == 0 || s.pace.lastProgress + RETRY_BASE <= now
    else s.pace.depositRetryAt <= now
  }

  function RetryFailedDepositBuilds(n: NodeState, onChain: bool, e: Env): (r: NodeState)
    ensures r == n.(sess := r.sess, live := r.live, work := r.work, book := r.book)
  {
    if n.sess.None? then n else
    var s := n.sess.value;
    if s.await then n
    else if s.deposit.txid != Empty && s.deposit.hex != Empty then
      if !PreCreated(s) || DepositSent(n) || s.pace.depositRetryAt == 0 || s.pace.depositRetryAt > e.now then n
      else AdoptOrRepostDeposit(n, onChain, e)
    else if s.deposit.txid != Empty then n
    else if ((s.isMaker && s.state < CS_CREATED_A && s.peer.pub)
             || (!s.isMaker && s.state < CS_CREATED_B && s.peer.deposit)) && BuildDue(s, e.now)
    then RepostDeposit(n, DepositBuild, e)
    else n
  }

  // ---- Claims --------------------------------------------------------------

  function ApplyClaimFailure(n: NodeState, makerSide: bool, f: Failure, e: Env): NodeState {
    if n.sess.None? then n else
    var m := ReleaseGuard(n);
    if f.SelfCancelErr? && makerSide then SelfCancel(m, e)
    else if m.sess.value.claim.txid == Empty then ScheduleAfterFailure(m, true, f, e)
    else m
  }

  function AdoptClaim(s: Session, makerSide: bool, c: Claim): Session {
    var t := ClearClaimRetry(s);
    t.(claim := c, peer := t.peer.(validated := t.peer.validated || makerSide,
                                   secretKnown := t.peer.secretKnown || !makerSide))
  }

  function ApplyClaimBuild(n: NodeState, makerSide: bool, c: Claim, e: Env): (r: NodeState)
    ensures r == n.(sess := r.sess, live := r.live, work := r.work, book := r.book)
  {
    if n.sess.None? then n else
    var n1 := PersistNow(n.(sess := Some(AdoptClaim(n.sess.value, makerSide, c))), e.diskOk);
    if !e.diskOk then ReleaseGuard(n1) else PostWork(n1, ClaimSend(c), e.queueFree)
  }

  function MarkClaimed(n: NodeState, now: nat): (r: NodeState)
    requires n.sess.Some?
    ensures r == n.(sess := r.sess, live := r.live)
  {
    n.(sess := Some(ClearClaimRetry(n.sess.value).(state := CS_FINISHED)),
       live := if n.live.None? then None
               else Some(n.live.value.(status := Finished, counterpartyRedeemed := true, updated := now)))
  }

  function ConfirmClaim(n: NodeState, e: Env): (r: NodeState)
    requires n.sess.Some?
    ensures r == n.(sess := r.sess, live := r.live, work := r.work, book := r.book)
  {
    Reply(Persist(MarkClaimed(n, e.now)), e)
  }

  function ApplyClaimSend(n: NodeState, ok: bool, e: Env): (r: NodeState)
    ensures r == n.(sess := r.sess, live := r.live, work := r.work, book := r.book)
  {
    if n.sess.None? then n else
    var m := ReleaseGuard(n);
    if ok then ConfirmClaim(m.(sess := Some(Progress(m.sess.value, e.now))), e)
    else if m.sess.value.claim.txid != Empty && m.sess.value.claim.hex != Empty then ScheduleClaimRetry(m, e)
    else m
  }

  function ClaimRetryAt(s: Session, at: nat): Session {
    s.(pace := s.pace.(claimRetryAt := at))
  }

  function RepostClaim(n: NodeState, w: Work, e: Env): (r: NodeState)
    requires n.sess.Some?
    ensures r == n.(sess := r.sess, work := r.work)
  {
    var h := TakeGuard(Progress(ClaimRetryAt(n.sess.value, 0), e.now), e.now);
    if e.queueFree then PostWork(n.(sess := Some(h)), w, true)
    else n.(sess := Some(ClaimRetryAt(Release(h), e.now + RETRY_BASE)))
  }

  function AdoptOrRepostClaim(n: NodeState, onChain: bool, e: Env): (r: NodeState)
    requires n.sess.Some?
    ensures r == n.(sess := r.sess, live := r.live, work := r.work, book := r.book)
  {
    var s := n.sess.value;
    if e.walletOk && onChain then ConfirmClaim(ReleaseGuard(n.(sess := Some(ClaimRetryAt(s, 0)))), e)
    else if s.pace.claimRetries >= BROADCAST_REPOST_MAX then n.(sess := Some(ClaimRetryAt(s, 0)))
    else if !e.walletOk then n.(sess := Some(ClaimRetryAt(s, e.now + RETRY_BASE)))
    else RepostClaim(n, ClaimSend(s.claim), e)
  }

  predicate PreConfirmed(s: Session) {
    if s.isMaker then s.state in {CS_CREATED_A, CS_CONFIRMED_A} else s.state in {CS_CREATED_B, CS_CONFIRMED_B}
  }

  function RetryFailedClaimBuilds(n: NodeState, onChain: bool, e: Env): (r: NodeState)
    ensures r == n.(sess := r.sess, live := r.live, work := r.work, book := r.book)
  {
    if n.sess.None? then n else
    var s := n.sess.value;
    if s.await || s.pace.claimRetryAt == 0 || s.pace.claimRetryAt > e.now then n
    else if s.claim.txid != Empty && s.claim.hex != Empty then
      if PreConfirmed(s) then AdoptOrRepostClaim(n, onChain, e)
      else n.(sess := Some(ClaimRetryAt(s, 0)))
    else if s.claim.txid != Empty then n
    else if (!s.isMaker && s.state == CS_CREATED_B && s.peer.payTx) || (s.isMaker && s.state == CS_CREATED_A)
    then RepostClaim(n, ClaimBuild(s.isMaker), e)
    else n
  }

  // ---- Deposit watches -----------------------------------------------------

  /** Two blocks of patience, in one-minute rounds, within 3..12. */
  function DepositWatchVanishThreshold(blockTimeSec: int): nat {
    if blockTimeSec <= 0 then 6 else
    var k := (2 * blockTimeSec + 59) / 60 + 1;
    if k < 3 then 3 else if k > 12 then 12 else k
  }

  /** The window in which the counterparty deposit is watched. */
  predicate Watchable(n: NodeState)
    requires n.sess.Some?
  {
    var s := n.sess.value;
    && !s.await && s.claim.hex == Empty && s.claim.txid == Empty && !s.secretHunt
    && (if s.isMaker then CS_CREATED_A <= s.state < CS_CONFIRMED_A else CS_CREATED_B <= s.state < CS_CONFIRMED_B)
    && !(n.live.Some? && (IsOrderTerminal(n.live.value.status) || n.live.value.counterpartyRedeemed
                          || n.live.value.status in {RolledBack, RollbackFailed}))
  }

  function Misses(n: NodeState, misses: nat): (r: NodeState)
    requires n.sess.Some?
    ensures r == n.(sess := Some(n.sess.value.(vanishMisses := misses)))
  {
    n.(sess := Some(n.sess.value.(vanishMisses := misses)))
  }

  function WatchCounterparty(n: NodeState, threshold: nat, e: Env): (r: NodeState)
    ensures r == n.(sess := r.sess, watch := r.watch)
  {
    if n.sess.None? then n else
    var s := n.sess.value;
    if !s.peer.deposit || !Watchable(n) || !s.peer.validated then Misses(n, 0)
    else if n.watch.pending then n
    else if e.queueFree then
      n.(watch := n.watch.(pending := true,
                           tasks := n.watch.tasks + [WatchTask(threshold, s.deposit.txid != Empty && RollbackGate(n)
                                                                          && s.vanishMisses + 1 >= threshold)]))
    else n.(watch := n.watch.(pending := false))
  }

  datatype Probe = Visible | Blind | Absent

  function TakeWatch(n: NodeState, i: nat): (r: NodeState)
    requires i < |n.watch.tasks|
    ensures r == n.(watch := r.watch)
  {
    n.(watch := n.watch.(tasks := n.watch.tasks[..i] + n.watch.tasks[i + 1..], pending := false))
  }

  /** `spent` is the own-deposit verdict, read only on a decisive probe. */
  function ApplyWatch(n: NodeState, i: nat, p: Probe, spent: bool, e: Env): NodeState
    requires i < |n.watch.tasks|
  {
    var t := n.watch.tasks[i];
    var m := TakeWatch(n, i);
    if m.sess.None? then m
    else if !p.Absent? || !Watchable(m) then Misses(m, 0)
    else if m.sess.value.vanishMisses + 1 < t.threshold then Misses(m, m.sess.value.vanishMisses + 1)
    else if t.decisive && spent && !m.sess.value.isMaker then EnterSecretHunt(Misses(m, 0))
    else SelfCancel(Misses(m, 0), e)
  }

  /** The taker's watch over its own deposit. */
  function WatchOwnDeposit(n: NodeState, hashKnown: bool, e: Env): (r: NodeState)
    ensures r == n.(watch := r.watch)
  {
    if n.sess.None? then n else
    var s := n.sess.value;
    if s.isMaker || s.await then n
    else if !(s.state == CS_CREATED_B || (s.secretHunt && DepositSent(n))) then n
    else if s.deposit.txid == Empty || s.claim.txid != Empty || s.peer.secretKnown || !hashKnown || n.watch.ownPending
    then n
    else n.(watch := n.watch.(ownPending := e.queueFree))
  }

  /** One round's findings: a claim of our deposit, a hunt proven wrong, a readable mempool. */
  function ApplyOwnWatch(n: NodeState, spender: bool, depositLive: bool, readable: bool, e: Env): NodeState {
    var m := n.(watch := n.watch.(ownPending := false));
    if m.sess.None? then m else
    var m1 := if !spender && m.sess.value.secretHunt && depositLive
              then Persist(m.(sess := Some(m.sess.value.(secretHunt := false)))) else m;
    if readable && spender then OnConfirmB(m1, true, e) else m1
  }

  // ---- Crash and restore ---------------------------------------------------

  /** A refund is owed although no claim was ever broadcast. */
  predicate StillOwed(r: Record) {
    r.order.depositSent && r.order.refundTx.Some? && !(r.sess.Some? && r.sess.value.refundDone)
  }

  predicate RefundPending(r: Record) {
    r.order.status == Canceled && StillOwed(r)
  }

  predicate FinishedRefundPending(r: Record) {
    && r.order.status == Finished && StillOwed(r)
    && (r.sess.None? || r.sess.value.claim.txid == Empty) && !r.order.counterpartyRedeemed
  }

  /** The record goes to history instead of the live book. */
  predicate FiledAway(r: Record) {
    var state := if r.sess.Some? then r.sess.value.state else CS_IDLE;
    var settled := r.sess.None? || r.sess.value.refundDone || r.sess.value.deposit.refund == Empty
                   || state < CS_CREATED_A;
    && (r.historical || state == CS_FINISHED || (IsOrderTerminal(r.order.status) && settled))
    && !RefundPending(r) && !FinishedRefundPending(r)
  }

  function RestoreSession(r: Record, now: nat): (s: Session)
    requires r.sess.Some?
    ensures !s.await && s.vanishMisses == 0
    ensures s.deposit == r.sess.value.deposit && s.claim == r.sess.value.claim && s.isMaker == r.sess.value.isMaker
    ensures s.refundDone == r.sess.value.refundDone && s.secretHunt == r.sess.value.secretHunt
    ensures s.peer == r.sess.value.peer && s.pace.depositRetries == r.sess.value.pace.depositRetries
    ensures !FinishedRefundPending(r) ==> s.state == r.sess.value.state
  {
    var s := r.sess.value;
    var st := if FinishedRefundPending(r) then (if s.isMaker then CS_CREATED_A else CS_CREATED_B) else s.state;
    var rearm := st in {CS_CONFIRMED_A, CS_CONFIRMED_B} && s.claim.txid != Empty && s.claim.hex != Empty
                 && s.pace.claimRetryAt == 0;
    s.(state := st, await := false, vanishMisses := 0,
       pace := s.pace.(awaitSince := 0, lastProgress := now,
                       claimRetryAt := if rearm then now else s.pace.claimRetryAt))
  }

  /** The node a restart builds from the swap file, before any sweep has run. */
  function RestoreRecord(b: Book, now: nat): (m: NodeState)
    ensures m.work == [] && m.refund == RefundQueue([], false, 0, 0) && m.watch == WatchQueue([], false, false)
    ensures m.book == Book(b.disk, None, None, b.overlap, b.writeFailed)
    ensures m.sess.Some? <==> b.disk.Some? && b.disk.value.sess.Some? && !FiledAway(b.disk.value)
    ensures m.sess.Some? ==> m.sess.value == RestoreSession(b.disk.value, now) && m.live.Some?
    ensures m.live.None? || m.hist.None?
  {
    var blank := NodeState(None, None, None, [], RefundQueue([], false, 0, 0), WatchQueue([], false, false),
                           Book(b.disk, None, None, b.overlap, b.writeFailed));
    if b.disk.None? then blank else
    var r := b.disk.value;
    var o := r.order.(mine := true);
    if FiledAway(r) then blank.(hist := Some(o)) else
    blank.(live := Some(if FinishedRefundPending(r) then o.(status := Created, updated := now) else o),
           sess := if r.sess.None? then None else Some(RestoreSession(r, now)))
  }

  /** A deposit the chain shows although no confirmation was recorded is marked sent. */
  function ReconcileUnconfirmed(n: NodeState, onChain: bool): (r: NodeState)
    ensures r == n.(live := r.live)
  {
    if n.sess.None? then n else
    var s := n.sess.value;
    if s.deposit.refund == Empty || s.refundDone || s.state >= CS_CREATED_A then n
    else if DepositSent(n) || s.deposit.txid == Empty then n
    else if !onChain || n.live.None? then n
    else n.(live := Some(n.live.value.(depositSent := true)))
  }

  function Restart(n: NodeState, onChain: bool, now: nat): NodeState {
    ReconcileUnconfirmed(RestoreRecord(n.book, now), onChain)
  }
}
