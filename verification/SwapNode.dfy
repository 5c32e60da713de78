/** The node's side of one swap as the source keeps it: a session object and the queues
    around it, changed field by field.  Every method is proved to take the node's value
    (`View`) where the step of the same name in SwapSpec takes it. */
module SwapNode {
  import opened Wrappers
  import opened SwapTypes
  import S = SwapSpec

  class SwapSession {
    var isMaker: bool
    var state: ClientState
    var await: bool
    var deposit: Deposit
    var claim: Claim
    var refundDone: bool
    var secretHunt: bool
    var peer: Peer
    var pace: Pace
    var vanishMisses: nat

    function View(): Session
      reads this
    {
      Session(isMaker, state, await, deposit, claim, refundDone, secretHunt, peer, pace, vanishMisses)
    }

    constructor (s: Session)
      ensures View() == s
    {
      isMaker, state, await, deposit, claim := s.isMaker, s.state, s.await, s.deposit, s.claim;
      refundDone, secretHunt, peer, pace, vanishMisses := s.refundDone, s.secretHunt, s.peer, s.pace, s.vanishMisses;
    }

    method HoldAwait(now: nat)
      modifies this
      ensures View() == S.TakeGuard(old(View()), now)
    {
      await := true;
      pace := pace.(awaitSince := now);
    }

    method ReleaseAwait()
      modifies this
      ensures View() == S.Release(old(View()))
    {
      await := false;
      pace := pace.(awaitSince := 0);
    }

    method ClearDepositRetry()
      modifies this
      ensures View() == S.ClearDepositRetry(old(View()))
    {
      pace := pace.(depositRetryAt := 0, depositRetries := 0);
      pace := pace.(notReadySince := 0, notReadySeen := false);
    }

    method ClearClaimRetry()
      modifies this
      ensures View() == S.ClearClaimRetry(old(View()))
    {
      pace := pace.(claimRetryAt := 0, claimRetries := 0);
      pace := pace.(notReadySince := 0, notReadySeen := false);
    }
  }

  class Node {
    var session: SwapSession?
    var live: Option<Order>
    var hist: Option<Order>
    var tasks: seq<Work>
    var refund: RefundQueue
    var watch: WatchQueue
    var book: Book

    ghost function View(): NodeState
      reads this, session
    {
      NodeState(if session == null then None else Some(session.View()), live, hist, tasks, refund, watch, book)
    }

    // ---- Snapshots ---------------------------------------------------------

    function OrderDepositSent(): (b: bool)
      reads this, session
      ensures b == S.DepositSent(View())
    {
      live.Some? && live.value.depositSent
    }

    function SessionIsTerminal(): (b: bool)
      requires session != null
      reads this, session
      ensures b == S.SessionIsTerminal(View())
    {
      if session.state == CS_FINISHED then true
      else if session.deposit.refund != Empty && !session.refundDone && (session.state >= CS_CREATED_A || OrderDepositSent())
      then false
      else if session.await then false
      else live.None? || IsOrderTerminal(live.value.status) || session.refundDone
    }

    method SnapshotSwaps() returns (r: Option<Record>)
      ensures r == S.Snapshot(View())
    {
      hide S.SessionIsTerminal;
      if live.Some? && live.value.mine {
        if session != null && !SessionIsTerminal() {
          return Some(Record(live.value, Some(session.View()), false));
        }
        return Some(Record(live.value, None, false));
      }
      if hist.Some? && hist.value.mine { return Some(Record(hist.value, None, true)); }
      return None;
    }

    method PersistNow(ok: bool)
      modifies this
      ensures View() == S.PersistNow(old(View()), ok) && session == old(session)
    {
      book := book.(queued := None);
      var snap := SnapshotSwaps();
      if ok {
        book := book.(disk := snap, overlap := book.overlap || book.writing.Some?);
      } else {
        book := book.(writeFailed := true);
      }
    }

    method Persist()
      modifies this
      ensures View() == S.Persist(old(View())) && session == old(session)
    {
      hide S.Snapshot;
      var snap := SnapshotSwaps();
      book := book.(queued := Some(snap));
    }

    /** First half of the background write: the slot is emptied before the write lock is taken. */
    method PopLatest()
      modifies this
      ensures View() == S.WriterPop(old(View())) && session == old(session)
    {
      if book.writing.None? && book.queued.Some? {
        book := book.(writing := book.queued, queued := None);
      }
    }

    method WritePopped(ok: bool)
      modifies this
      ensures View() == S.WriterWrite(old(View()), ok) && session == old(session)
    {
      if book.writing.None? { return; }
      if ok { book := book.(disk := book.writing.value); }
      book := book.(writing := None);
    }

    // ---- Book and queues ---------------------------------------------------

    method SetOrderStatus(st: Status, now: nat)
      modifies this
      ensures View() == S.SetStatus(old(View()), st, now) && session == old(session)
    {
      if live.Some? { live := Some(live.value.(status := st, updated := now)); }
    }

    method MoveToHistory(st: Status, now: nat)
      modifies this
      ensures View() == S.MoveToHistory(old(View()), st, now) && session == old(session)
    {
      if live.None? { return; }
      var o := live.value;
      live := None;
      if hist.None? { hist := Some(o.(status := st, updated := now)); }
    }

    method PruneSessions()
      modifies this
      ensures View() == S.PruneSessions(old(View()))
      ensures session == old(session) || session == null
    {
      hide S.SessionIsTerminal;
      if session != null && SessionIsTerminal() {
        session := null;
        refund := refund.(pending := false, attempts := 0, retryAt := 0);
        watch := watch.(pending := false, ownPending := false);
      }
    }

    method PostTask(w: Work, free: bool) returns (ok: bool)
      modifies this, session
      ensures View() == S.PostWork(old(View()), w, free) && session == old(session) && ok == free
    {
      if free {
        tasks := tasks + [w];
        return true;
      }
      if session != null { session.ReleaseAwait(); }
      return false;
    }

    method ClearStuckAwait(now: nat)
      modifies this, session
      ensures View() == S.ClearStuckAwait(old(View()), now) && session == old(session)
    {
      if session == null { return; }
      var s := session;
      if !s.await || s.pace.awaitSince == 0 || now < s.pace.awaitSince || now - s.pace.awaitSince <= S.AWAIT_STUCK {
        return;
      }
      s.ReleaseAwait();
      tasks := [];   // the result is lost
    }

    // ---- Retry schedules ---------------------------------------------------

    method ScheduleDepositRetry(e: S.Env)
      requires session != null
      modifies this, session
      ensures View() == S.ScheduleDepositRetry(old(View()), e) && session == old(session)
    {
      hide S.PersistNow, S.RetryBackoff;
      var s := session;
      var delay := S.RetryBackoff(s.pace.depositRetries);
      s.pace := s.pace.(depositRetries := s.pace.depositRetries + 1);
      s.pace := s.pace.(depositRetryAt := e.now + delay, lastProgress := e.now);
      PersistNow(e.diskOk);
    }

    method ScheduleClaimRetry(e: S.Env)
      requires session != null
      modifies this, session
      ensures View() == S.ScheduleClaimRetry(old(View()), e) && session == old(session)
    {
      hide S.PersistNow, S.RetryBackoff;
      var s := session;
      var delay := S.RetryBackoff(s.pace.claimRetries);
      s.pace := s.pace.(claimRetries := s.pace.claimRetries + 1);
      s.pace := s.pace.(claimRetryAt := e.now + delay, lastProgress := e.now);
      PersistNow(e.diskOk);
    }

    /** A not-ready stamp ahead of the clock is pulled back to it. */
    static function PulledBack(n: NodeState, f: S.Failure, now: nat): (m: NodeState)
      requires n.sess.Some?
      ensures m == n.(sess := m.sess) && m.sess.Some?
    {
      var s := n.sess.value;
      n.(sess := Some(if f.NotReady? && s.pace.notReadySince > now then s.(pace := s.pace.(notReadySince := now)) else s))
    }

    method FastRepoll(isClaim: bool, seen: bool, e: S.Env)
      requires session != null && session.pace.notReadySince <= e.now
      modifies this, session
      ensures View() == S.ScheduleNotReady(old(View()), isClaim, seen, e) && session == old(session)
    {
      hide S.PersistNow;
      var s := session;
      var p := s.pace;
      if p.notReadySince == 0 { p := p.(notReadySince := e.now); }
      p := p.(notReadySeen := seen, lastProgress := e.now);
      var poll := S.NOT_READY_POLL;
      if !seen && e.now - p.notReadySince >= S.NOT_READY_TAPER_AFTER { poll := S.NOT_READY_TAPER_POLL; }
      s.pace := if isClaim then p.(claimRetryAt := e.now + poll) else p.(depositRetryAt := e.now + poll);
      PersistNow(e.diskOk);
    }

    /** The fast re-poll, refused for other errors and past its window. */
    method ScheduleNotReady(isClaim: bool, f: S.Failure, e: S.Env) returns (done: bool)
      requires session != null
      modifies this, session
      ensures session == old(session)
      ensures done == (f.NotReady? && !S.PastFastWindow(PulledBack(old(View()), f, e.now).sess.value, e.now))
      ensures View() == if done then S.ScheduleNotReady(PulledBack(old(View()), f, e.now), isClaim, f.seen, e)
                        else PulledBack(old(View()), f, e.now)
    {
      hide S.ScheduleNotReady;
      if !f.NotReady? { return false; }
      var s := session;
      if s.pace.notReadySince > e.now { s.pace := s.pace.(notReadySince := e.now); }
      assert View() == PulledBack(old(View()), f, e.now);
      if s.pace.notReadySince != 0 && e.now - s.pace.notReadySince >= S.NOT_READY_FAST_WINDOW { return false; }
      FastRepoll(isClaim, f.seen, e);
      return true;
    }

    method ScheduleAfterFailure(isClaim: bool, f: S.Failure, e: S.Env)
      requires session != null
      modifies this, session
      ensures View() == S.ScheduleAfterFailure(old(View()), isClaim, f, e) && session == old(session)
    {
      hide S.ScheduleNotReady, S.ScheduleClaimRetry, S.ScheduleDepositRetry, S.PastFastWindow;
      var done := ScheduleNotReady(isClaim, f, e);
      if !done {
        if isClaim { ScheduleClaimRetry(e); } else { ScheduleDepositRetry(e); }
      }
    }

    // ---- Refunds -----------------------------------------------------------

    function RollbackGate(): (b: bool)
      reads this, session
      ensures b == S.RollbackGate(View())
    {
      if session != null then session.state >= CS_CREATED_A || OrderDepositSent()
      else live.Some? && live.value.refundTx.Some? && live.value.depositSent
    }

    method PostRefundTask(r: Refund, manual: bool, free: bool)
      modifies this
      ensures View() == S.PostRefund(old(View()), r, manual, free) && session == old(session)
    {
      hide S.RollbackGate;
      var known := if session != null && session.deposit.txid != Empty then true
                   else live.Some? && live.value.binTxId != Empty;
      if free {
        refund := refund.(tasks := refund.tasks + [RefundTask(r, manual, known && RollbackGate())]);
      } else {
        refund := refund.(pending := false);
      }
    }

    function RefundBackoffActive(now: nat): (b: bool)
      reads this, session
      ensures b == S.RefundBackoffActive(View(), now)
    {
      refund.retryAt != 0 && now < refund.retryAt
    }

    method RecordRefundFailure(now: nat)
      modifies this
      ensures View() == S.RecordRefundFailure(old(View()), now) && session == old(session)
    {
      var a := refund.attempts + 1;
      var delay := S.REFUND_BACKOFF_BASE;
      var i := 1;
      while i < a && delay < S.REFUND_BACKOFF_CAP
        invariant 1 <= i <= a
        invariant S.RefundDelay(i) == if delay > S.REFUND_BACKOFF_CAP then S.REFUND_BACKOFF_CAP else delay
        decreases a - i
      {
        delay := delay * 2;
        i := i + 1;
      }
      RefundDelayStaysCapped(i, a);
      if delay > S.REFUND_BACKOFF_CAP { delay := S.REFUND_BACKOFF_CAP; }
      refund := refund.(attempts := a, retryAt := now + delay);
    }

    method ClearRefundBackoff()
      modifies this
      ensures View() == S.ClearRefundBackoff(old(View())) && session == old(session)
    {
      refund := refund.(attempts := 0, retryAt := 0);
    }

    method EnterSecretHunt()
      requires session != null
      modifies this, session
      ensures View() == S.EnterSecretHunt(old(View())) && session == old(session)
    {
      hide S.Snapshot;
      if !session.secretHunt {
        session.secretHunt := true;
        ClearRefundBackoff();
        Persist();
      }
    }

    method EnqueueRefund(manual: bool, free: bool)
      modifies this
      ensures View() == S.EnqueueRefund(old(View()), manual, free) && session == old(session)
    {
      hide S.PostRefund;
      var s := session;
      if s != null && s.deposit.refund != Empty {
        if s.state < CS_CREATED_A && !OrderDepositSent() { return; }
        refund := refund.(pending := true);
        PostRefundTask(RefundOf(s.deposit), manual, free);
        return;
      }
      if live.None? || live.value.refundTx.None? || !live.value.depositSent { return; }
      PostRefundTask(live.value.refundTx.value, true, free);
    }

    method ScanRefunds(e: S.Env)
      modifies this
      ensures View() == S.ScanRefunds(old(View()), e) && session == old(session)
    {
      hide S.PostRefund;
      var s := session;
      if s == null || s.refundDone || s.deposit.refund == Empty || s.state == CS_FINISHED { return; }
      if s.secretHunt { return; }
      if s.isMaker && s.state >= CS_CONFIRMED_A { return; }
      if !s.isMaker && s.state >= CS_CONFIRMED_B { return; }
      if RefundBackoffActive(e.now) { return; }
      if s.state < CS_CREATED_A && !OrderDepositSent() { return; }
      if refund.pending { return; }
      refund := refund.(pending := true);
      PostRefundTask(RefundOf(s.deposit), false, e.queueFree);
    }

    method SettleWatchedRefund(confirmed: bool, now: nat)
      requires live.Some?
      modifies this
      ensures View() == S.SettleWatchedRefund(old(View()), confirmed, now) && session == old(session)
    {
      hide S.Snapshot, S.RollbackGate;
      var dirty := confirmed && RollbackGate();
      if dirty && (!IsOrderTerminal(live.value.status) || live.value.status == Canceled) {
        SetOrderStatus(RolledBack, now);
      }
      ClearRefundBackoff();
      if dirty { Persist(); }
    }

    method ScanStoredRefunds(watched: bool, confirmed: bool, e: S.Env)
      modifies this
      ensures View() == S.ScanStoredRefunds(old(View()), watched, confirmed, e) && session == old(session)
    {
      hide S.PostRefund, S.SettleWatchedRefund;
      if live.None? { return; }
      var o := live.value;
      if !o.mine || o.refundTx.None? || !o.depositSent { return; }
      if o.status in {Finished, Dropped, Invalid, RolledBack} { return; }
      if session != null { return; }
      if RefundBackoffActive(e.now) { return; }
      if watched {
        SettleWatchedRefund(confirmed, e.now);
        return;
      }
      if !e.walletOk || refund.pending { return; }
      refund := refund.(pending := true);
      PostRefundTask(o.refundTx.value, false, e.queueFree);
    }

    method FailRefund(manual: bool, now: nat)
      modifies this
      ensures View() == S.FailRefund(old(View()), manual, now) && session == old(session)
    {
      hide S.Snapshot, S.RollbackGate, S.RefundDelay;
      if RollbackGate() {
        if live.Some? && !IsOrderTerminal(live.value.status) && live.value.status != RollbackFailed {
          SetOrderStatus(RollbackFailed, now);
        }
        Persist();
      }
      if !manual { RecordRefundFailure(now); }
    }

    method MarkRefunded(now: nat)
      modifies this, session
      ensures View() == S.MarkRefunded(old(View()), now) && session == old(session)
    {
      hide S.RollbackGate;
      ClearRefundBackoff();
      if session != null { session.refundDone := true; }
      if RollbackGate() && live.Some? && (!IsOrderTerminal(live.value.status) || live.value.status == Canceled)
         && live.value.status != RolledBack
      {
        SetOrderStatus(RolledBack, now);
      }
    }

    /** The result of the refund task at i comes in. */
    method ApplyRefund(i: nat, r: S.RefundResult, now: nat)
      requires i < |refund.tasks|
      modifies this, session
      ensures View() == S.ApplyRefund(old(View()), i, r, now)
      ensures session == old(session) || session == null
    {
      hide S.EnterSecretHunt, S.RecordRefundFailure, S.FailRefund, S.MarkRefunded, S.Persist, S.PruneSessions;
      var t := refund.tasks[i];
      refund := refund.(tasks := refund.tasks[..i] + refund.tasks[i + 1..], pending := false);
      if r.DepositSpent? && t.proveSpend && session != null && !session.isMaker {
        EnterSecretHunt();
      } else if r.DepositSpent? && t.proveSpend && session == null {
        if !t.manual { RecordRefundFailure(now); }
      } else if r.DepositSpent? || r.RefundFailed? {
        FailRefund(t.manual, now);
      } else if r.RefundSent? {
        MarkRefunded(now);
        Persist();
        PruneSessions();
      }
    }

    // ---- Cancels -----------------------------------------------------------

    method HandleRemoteCancel(e: S.Env)
      modifies this
      ensures View() == S.RemoteCancel(old(View()), e) && session == old(session)
    {
      hide S.MoveToHistory, S.Persist, S.EnqueueRefund;
      if live.None? || !e.verified || !e.walletOk { return; }
      var o := live.value;
      if o.mine && Ordinal(o.status) <= 2 && !e.iCanceled {
        live := Some(o.(updated := if e.now >= S.STALE_BACKDATE then e.now - S.STALE_BACKDATE else 0));
      } else if Ordinal(o.status) < 6 {
        MoveToHistory(Canceled, e.now);
      } else if o.status == Canceled {
        return;
      } else if !o.depositSent {
        SetOrderStatus(Canceled, e.now);
        Persist();
      } else if o.counterpartyRedeemed {
        return;
      } else if o.refundTx.None? {
        SetOrderStatus(Canceled, e.now);
        Persist();
      } else {
        SetOrderStatus(Canceled, e.now);
        EnqueueRefund(false, e.queueFree);
        Persist();
      }
    }

    method SendSelfCancel(e: S.Env)
      modifies this
      ensures View() == S.SelfCancel(old(View()), e) && session == old(session)
    {
      hide S.RemoteCancel, S.PersistNow;
      if !e.netOk { return; }
      HandleRemoteCancel(e);
      PersistNow(e.diskOk);
    }

    method CancelOrder(e: S.Env)
      modifies this
      ensures View() == S.CancelOrder(old(View()), e) && session == old(session)
    {
      hide S.Persist, S.EnqueueRefund;
      if live.None? || !e.walletOk { return; }
      if Ordinal(live.value.status) > 6 { return; }
      if session == null || !e.netOk { return; }
      SetOrderStatus(Canceled, e.now);
      EnqueueRefund(false, e.queueFree);
      Persist();
    }

    method HandleRemoteReject(e: S.Env)
      modifies this
      ensures View() == S.RemoteReject(old(View()), e) && session == old(session)
    {
      hide S.Persist;
      if live.None? || !e.verified { return; }
      if !live.value.roleB || Ordinal(live.value.status) > 3 { return; }
      live := Some(live.value.(status := Open, mine := false, roleB := false));
      Persist();
    }

    method FundingSpent(e: S.Env)
      modifies this
      ensures View() == S.FundingSpent(old(View()), e) && session == old(session)
    {
      hide S.Persist;
      if session != null && session.isMaker && session.state == CS_MAKER
         && live.Some? && live.value.mine && live.value.status == Open
      {
        SetOrderStatus(Canceled, e.now);
        Persist();
      }
    }

    method TouchOrder(now: nat)
      modifies this
      ensures View() == S.TouchOrder(old(View()), now) && session == old(session)
    {
      if live.Some? { live := Some(live.value.(updated := now)); }
    }

    // ---- Expiry and garbage collection -------------------------------------

    method PruneExpired(expired: bool, now: nat)
      modifies this
      ensures View() == S.PruneExpired(old(View()), expired, now) && session == old(session)
    {
      hide S.MoveToHistory;
      if live.None? { return; }
      if session != null && session.state > CS_MAKER && (session.isMaker || live.value.status != Open) { return; }
      if live.value.status in {Created, Open} && expired { MoveToHistory(Expired, now); }
    }

    method GcStaleMineOrders(tracked: bool, now: nat)
      modifies this
      ensures View() == S.GcStaleMineOrders(old(View()), tracked, now) && session == old(session)
    {
      hide S.MoveToHistory;
      if live.None? { return; }
      var o := live.value;
      if !o.mine || IsOrderTerminal(o.status) || o.depositSent { return; }
      if session != null || tracked { return; }
      if now < o.updated || now - o.updated <= S.MINE_ORDER_TTL { return; }
      MoveToHistory(Dropped, now);
    }

    method WatchStalledSessions(e: S.Env)
      modifies this
      ensures View() == S.WatchStalled(old(View()), e) && session == old(session)
    {
      hide S.SelfCancel;
      var s := session;
      if s == null || s.state == CS_FINISHED || s.refundDone || s.await || s.claim.hex != Empty || s.secretHunt { return; }
      if s.pace.lastProgress == 0 { return; }
      var silent := if e.now >= s.pace.lastProgress then e.now - s.pace.lastProgress else 0;
      if silent <= S.SESSION_STALL { return; }
      if live.Some? && (IsOrderTerminal(live.value.status) || live.value.status in {RolledBack, RollbackFailed}
                        || live.value.counterpartyRedeemed) { return; }
      if RefundBackoffActive(e.now) { return; }
      SendSelfCancel(e);
    }

    // ---- Handshake packets -------------------------------------------------

    /** Persist, then respond; without a connector nothing happens. */
    method Respond(e: S.Env)
      modifies this
      ensures View() == S.Reply(old(View()), e) && session == old(session)
    {
      if e.netOk { PersistNow(e.diskOk); }
    }

    /** Take the guard and hand w to a worker. */
    method Dispatch(w: Work, e: S.Env)
      requires session != null
      modifies this, session
      ensures View() == S.Dispatch(old(View()), old(session.View()), w, e) && session == old(session)
    {
      hide S.PostWork;
      session.HoldAwait(e.now);
      var posted := PostTask(w, e.queueFree);
    }

    method OnHold(ok: bool, e: S.Env)
      requires session != null
      modifies this, session
      ensures View() == S.OnHold(old(View()), ok, e) && session == old(session)
    {
      hide S.Persist, S.Reply;
      var s := session;
      if s.state >= CS_HOLD_APPLIED || !ok { return; }
      if s.isMaker { Persist(); }
      s.state := CS_HOLD_APPLIED;
      SetOrderStatus(Status.Hold, e.now);
      Respond(e);
    }

    method OnInit(ok: bool, e: S.Env)
      requires session != null
      modifies this, session
      ensures View() == S.OnInit(old(View()), ok, e) && session == old(session)
    {
      hide S.Reply;
      var s := session;
      if s.state >= CS_INITIALIZED || !ok { return; }
      s.state := CS_INITIALIZED;
      SetOrderStatus(Initialized, e.now);
      Respond(e);
    }

    method OnCreateA(keyGiven: bool, e: S.Env)
      requires session != null
      modifies this, session
      ensures View() == S.OnCreateA(old(View()), keyGiven, e) && session == old(session)
    {
      var s := session;
      if !s.isMaker || s.state >= CS_CREATED_A || s.await || !keyGiven { return; }
      s.peer := s.peer.(pub := true);
      Dispatch(DepositBuild, e);
    }

    method OnCreateB(depositGiven: bool, keyGiven: bool, e: S.Env)
      requires session != null
      modifies this, session
      ensures View() == S.OnCreateB(old(View()), depositGiven, keyGiven, e) && session == old(session)
    {
      hide S.SelfCancel;
      var s := session;
      if s.state >= CS_CREATED_B || s.await || s.isMaker { return; }
      if !depositGiven {
        SendSelfCancel(e);
        return;
      }
      if s.peer.pub || !keyGiven { return; }
      s.peer := s.peer.(pub := true, deposit := true);
      Dispatch(DepositBuild, e);
    }

    method OnConfirmA(depositGiven: bool, e: S.Env)
      requires session != null
      modifies this, session
      ensures View() == S.OnConfirmA(old(View()), depositGiven, e) && session == old(session)
    {
      var s := session;
      if s.state >= CS_CONFIRMED_A || !s.isMaker || s.await { return; }
      s.peer := s.peer.(deposit := depositGiven);
      Dispatch(ClaimBuild(true), e);
    }

    method OnConfirmB(payTxGiven: bool, e: S.Env)
      requires session != null
      modifies this, session
      ensures View() == S.OnConfirmB(old(View()), payTxGiven, e) && session == old(session)
    {
      hide S.Dispatch, S.Persist;
      var s := session;
      if s.state >= CS_CONFIRMED_B || s.await { return; }
      s.peer := s.peer.(payTx := payTxGiven);
      Persist();
      Dispatch(ClaimBuild(false), e);
    }

    function FinishedMayTerminate(): (b: bool)
      requires session != null
      reads this, session
      ensures b == S.FinishedMayTerminate(View())
    {
      if session.state >= CS_CONFIRMED_A then true
      else if live.Some? && live.value.counterpartyRedeemed then true
      else session.state < CS_CREATED_A && !OrderDepositSent()
    }

    method OnFinished(e: S.Env)
      requires session != null
      modifies this, session
      ensures View() == S.OnFinished(old(View()), e)
      ensures session == old(session) || session == null
    {
      hide S.FinishedMayTerminate, S.MoveToHistory, S.Persist, S.PruneSessions;
      if !FinishedMayTerminate() { return; }
      MoveToHistory(Finished, e.now);
      session.state := CS_FINISHED;
      Persist();
      PruneSessions();
    }

    method ProcessSwap(p: S.Packet, e: S.Env)
      modifies this, session
      ensures View() == S.ProcessSwap(old(View()), p, e)
      ensures session == old(session) || session == null
    {
      hide S.OnHold, S.OnInit, S.OnCreateA, S.OnCreateB, S.OnConfirmA, S.OnConfirmB, S.OnFinished;
      if session == null { return; }
      session.pace := session.pace.(lastProgress := e.now);
      if session.await { return; }
      match p
      case HoldPkt(ok) => OnHold(ok, e);
      case InitPkt(ok) => OnInit(ok, e);
      case CreateAPkt(k) => OnCreateA(k, e);
      case CreateBPkt(d, k) => OnCreateB(d, k, e);
      case ConfirmAPkt(d) => OnConfirmA(d, e);
      case ConfirmBPkt(x) => OnConfirmB(x, e);
      case FinishedPkt => OnFinished(e);
    }

    // ---- Deposits ----------------------------------------------------------

    method ApplyDepositFailure(f: S.Failure, e: S.Env)
      modifies this, session
      ensures View() == S.ApplyDepositFailure(old(View()), f, e) && session == old(session)
    {
      hide S.SelfCancel, S.ScheduleAfterFailure;
      if session == null { return; }
      session.ReleaseAwait();
      if f.SelfCancelErr? && !session.isMaker {
        SendSelfCancel(e);
        return;
      }
      if session.deposit.txid == Empty { ScheduleAfterFailure(false, f, e); }
    }

    method AdoptBuild(d: Deposit)
      requires session != null
      modifies this, session
      ensures View() == S.AdoptBuild(old(View()), d) && session == old(session)
    {
      var s := session;
      s.ClearDepositRetry();
      s.deposit := d;
      if !s.isMaker { s.peer := s.peer.(validated := true); }
      if live.Some? {
        live := Some(live.value.(binTxId := d.txid, depositSent := false));
        live := Some(live.value.(refundTx := Some(RefundOf(d))));
      }
    }

    /** A deposit was built: record it, make it durable, only then post its broadcast. */
    method ApplyDepositBuild(d: Deposit, e: S.Env)
      modifies this, session
      ensures View() == S.ApplyDepositBuild(old(View()), d, e) && session == old(session)
    {
      hide S.AdoptBuild, S.PersistNow, S.PostWork;
      if session == null { return; }
      AdoptBuild(d);
      PersistNow(e.diskOk);
      if !e.diskOk {
        session.ReleaseAwait();
        return;
      }
      var posted := PostTask(DepositSend(d), e.queueFree);
    }

    method ConfirmDeposit(e: S.Env)
      requires session != null
      modifies this, session
      ensures View() == S.ConfirmDeposit(old(View()), e) && session == old(session)
    {
      hide S.Persist, S.Reply;
      var s := session;
      s.ClearDepositRetry();
      if live.Some? { live := Some(live.value.(depositSent := true)); }
      s.state := if s.isMaker then CS_CREATED_A else CS_CREATED_B;
      SetOrderStatus(Created, e.now);
      assert View() == S.MarkSent(old(View()), e.now);
      Persist();
      Respond(e);
    }

    method ApplyDepositSend(ok: bool, e: S.Env)
      modifies this, session
      ensures View() == S.ApplyDepositSend(old(View()), ok, e) && session == old(session)
    {
      hide S.ConfirmDeposit, S.ScheduleDepositRetry;
      var s := session;
      if s == null { return; }
      if ok { s.pace := s.pace.(lastProgress := e.now); }
      s.ReleaseAwait();
      if ok {
        ConfirmDeposit(e);
      } else if s.deposit.txid != Empty && s.deposit.hex != Empty {
        ScheduleDepositRetry(e);
      }
    }

    /** A sweep re-posts w: a full queue leaves the retry due one base delay later. */
    method RepostDeposit(w: Work, e: S.Env)
      requires session != null
      modifies this, session
      ensures View() == S.RepostDeposit(old(View()), w, e) && session == old(session)
    {
      var s := session;
      s.pace := s.pace.(depositRetryAt := 0);
      s.HoldAwait(e.now);
      s.pace := s.pace.(lastProgress := e.now);
      var posted := PostTask(w, e.queueFree);
      if !posted {
        s.ReleaseAwait();
        s.pace := s.pace.(depositRetryAt := e.now + S.RETRY_BASE);
      }
    }

    method AdoptOrRepostDeposit(onChain: bool, e: S.Env)
      requires session != null
      modifies this, session
      ensures View() == S.AdoptOrRepostDeposit(old(View()), onChain, e) && session == old(session)
    {
      hide S.ConfirmDeposit, S.RepostDeposit;
      var s := session;
      if e.walletOk && onChain {
        s.pace := s.pace.(depositRetryAt := 0);
        s.ReleaseAwait();
        ConfirmDeposit(e);
        return;
      }
      if s.pace.depositRetries >= S.BROADCAST_REPOST_MAX {
        s.pace := s.pace.(depositRetryAt := 0);
        return;
      }
      if !e.walletOk {
        s.pace := s.pace.(depositRetryAt := e.now + S.RETRY_BASE);
        return;
      }
      RepostDeposit(DepositSend(s.deposit), e);
    }

    method RetryFailedDepositBuilds(onChain: bool, e: S.Env)
      modifies this, session
      ensures View() == S.RetryFailedDepositBuilds(old(View()), onChain, e) && session == old(session)
    {
      hide S.AdoptOrRepostDeposit, S.RepostDeposit;
      var s := session;
      if s == null || s.await { return; }
      if s.deposit.txid != Empty && s.deposit.hex != Empty {
        var rolePreCreated := (s.isMaker && s.state < CS_CREATED_A) || (!s.isMaker && s.state < CS_CREATED_B);
        if !rolePreCreated || OrderDepositSent() { return; }
        if s.pace.depositRetryAt == 0 || s.pace.depositRetryAt > e.now { return; }
        AdoptOrRepostDeposit(onChain, e);
        return;
      }
      if s.deposit.txid != Empty { return; }
      if !((s.isMaker && s.state < CS_CREATED_A && s.peer.pub) || (!s.isMaker && s.state < CS_CREATED_B && s.peer.deposit)) {
        return;
      }
      if s.pace.depositRetryAt == 0 {
        if s.pace.lastProgress != 0 && s.pace.lastProgress + S.RETRY_BASE > e.now { return; }
      } else if s.pace.depositRetryAt > e.now { return; }
      RepostDeposit(DepositBuild, e);
    }

    // ---- Claims ------------------------------------------------------------

    method ApplyClaimFailure(makerSide: bool, f: S.Failure, e: S.Env)
      modifies this, session
      ensures View() == S.ApplyClaimFailure(old(View()), makerSide, f, e) && session == old(session)
    {
      hide S.SelfCancel, S.ScheduleAfterFailure;
      if session == null { return; }
      session.ReleaseAwait();
      if f.SelfCancelErr? && makerSide {
        SendSelfCancel(e);
        return;
      }
      if session.claim.txid == Empty { ScheduleAfterFailure(true, f, e); }
    }

    method ApplyClaimBuild(makerSide: bool, c: Claim, e: S.Env)
      modifies this, session
      ensures View() == S.ApplyClaimBuild(old(View()), makerSide, c, e) && session == old(session)
    {
      hide S.PersistNow, S.PostWork;
      var s := session;
      if s == null { return; }
      s.ClearClaimRetry();
      s.claim := c;
      if makerSide { s.peer := s.peer.(validated := true); } else { s.peer := s.peer.(secretKnown := true); }
      PersistNow(e.diskOk);
      if !e.diskOk {
        s.ReleaseAwait();
        return;
      }
      var posted := PostTask(ClaimSend(c), e.queueFree);
    }

    method ConfirmClaim(e: S.Env)
      requires session != null
      modifies this, session
      ensures View() == S.ConfirmClaim(old(View()), e) && session == old(session)
    {
      hide S.Persist, S.Reply;
      var s := session;
      s.ClearClaimRetry();
      s.state := CS_FINISHED;
      SetOrderStatus(Finished, e.now);
      if live.Some? { live := Some(live.value.(counterpartyRedeemed := true)); }
      assert View() == S.MarkClaimed(old(View()), e.now);
      Persist();
      Respond(e);
    }

    method ApplyClaimSend(ok: bool, e: S.Env)
      modifies this, session
      ensures View() == S.ApplyClaimSend(old(View()), ok, e) && session == old(session)
    {
      hide S.ConfirmClaim, S.ScheduleClaimRetry;
      var s := session;
      if s == null { return; }
      if ok { s.pace := s.pace.(lastProgress := e.now); }
      s.ReleaseAwait();
      if ok {
        ConfirmClaim(e);
      } else if s.claim.txid != Empty && s.claim.hex != Empty {
        ScheduleClaimRetry(e);
      }
    }

    method RepostClaim(w: Work, e: S.Env)
      requires session != null
      modifies this, session
      ensures View() == S.RepostClaim(old(View()), w, e) && session == old(session)
    {
      var s := session;
      s.pace := s.pace.(claimRetryAt := 0);
      s.HoldAwait(e.now);
      s.pace := s.pace.(lastProgress := e.now);
      var posted := PostTask(w, e.queueFree);
      if !posted {
        s.ReleaseAwait();
        s.pace := s.pace.(claimRetryAt := e.now + S.RETRY_BASE);
      }
    }

    method AdoptOrRepostClaim(onChain: bool, e: S.Env)
      requires session != null
      modifies this, session
      ensures View() == S.AdoptOrRepostClaim(old(View()), onChain, e) && session == old(session)
    {
      hide S.ConfirmClaim, S.RepostClaim;
      var s := session;
      if e.walletOk && onChain {
        s.pace := s.pace.(claimRetryAt := 0);
        s.ReleaseAwait();
        ConfirmClaim(e);
        return;
      }
      if s.pace.claimRetries >= S.BROADCAST_REPOST_MAX {
        s.pace := s.pace.(claimRetryAt := 0);
        return;
      }
      if !e.walletOk {
        s.pace := s.pace.(claimRetryAt := e.now + S.RETRY_BASE);
        return;
      }
      RepostClaim(ClaimSend(s.claim), e);
    }

    method RetryFailedClaimBuilds(onChain: bool, e: S.Env)
      modifies this, session
      ensures View() == S.RetryFailedClaimBuilds(old(View()), onChain, e) && session == old(session)
    {
      hide S.AdoptOrRepostClaim, S.RepostClaim;
      var s := session;
      if s == null || s.await || s.pace.claimRetryAt == 0 || s.pace.claimRetryAt > e.now { return; }
      if s.claim.txid != Empty && s.claim.hex != Empty {
        var rolePreConfirmed := (s.isMaker && (s.state == CS_CREATED_A || s.state == CS_CONFIRMED_A))
                                || (!s.isMaker && (s.state == CS_CREATED_B || s.state == CS_CONFIRMED_B));
        if !rolePreConfirmed {
          s.pace := s.pace.(claimRetryAt := 0);
          return;
        }
        AdoptOrRepostClaim(onChain, e);
        return;
      }
      if s.claim.txid != Empty { return; }
      if !s.isMaker && s.state == CS_CREATED_B && s.peer.payTx {
        RepostClaim(ClaimBuild(false), e);
      } else if s.isMaker && s.state == CS_CREATED_A {
        RepostClaim(ClaimBuild(true), e);
      }
    }

    // ---- Deposit watches ---------------------------------------------------

    function Watchable(): (b: bool)
      requires session != null
      reads this, session
      ensures b == S.Watchable(View())
    {
      && !session.await && session.claim.hex == Empty && session.claim.txid == Empty && !session.secretHunt
      && (if session.isMaker then CS_CREATED_A <= session.state < CS_CONFIRMED_A
          else CS_CREATED_B <= session.state < CS_CONFIRMED_B)
      && !(live.Some? && (IsOrderTerminal(live.value.status) || live.value.counterpartyRedeemed
                          || live.value.status in {RolledBack, RollbackFailed}))
    }

    method WatchCounterpartyDeposits(threshold: nat, e: S.Env)
      modifies this, session
      ensures View() == S.WatchCounterparty(old(View()), threshold, e) && session == old(session)
    {
      hide S.Watchable;
      var s := session;
      if s == null { return; }
      if !s.peer.deposit || !Watchable() || !s.peer.validated {
        s.vanishMisses := 0;
        return;
      }
      if watch.pending { return; }
      watch := watch.(pending := true);
      if e.queueFree {
        var decisive := s.deposit.txid != Empty && RollbackGate() && s.vanishMisses + 1 >= threshold;
        watch := watch.(tasks := watch.tasks + [WatchTask(threshold, decisive)]);
      } else {
        watch := watch.(pending := false);
      }
    }

    /** The probe of the watch task at i comes in. */
    method ApplyDepositWatch(i: nat, p: S.Probe, spent: bool, e: S.Env)
      requires i < |watch.tasks|
      modifies this, session
      ensures View() == S.ApplyWatch(old(View()), i, p, spent, e) && session == old(session)
    {
      hide S.Watchable, S.EnterSecretHunt, S.SelfCancel;
      var t := watch.tasks[i];
      watch := watch.(tasks := watch.tasks[..i] + watch.tasks[i + 1..], pending := false);
      var s := session;
      if s == null { return; }
      if !p.Absent? || !Watchable() {
        s.vanishMisses := 0;
        return;
      }
      s.vanishMisses := s.vanishMisses + 1;
      if s.vanishMisses < t.threshold { return; }
      s.vanishMisses := 0;
      if t.decisive && spent && !s.isMaker {
        EnterSecretHunt();
        return;
      }
      SendSelfCancel(e);
    }

    method WatchOwnDepositSpends(hashKnown: bool, e: S.Env)
      modifies this
      ensures View() == S.WatchOwnDeposit(old(View()), hashKnown, e) && session == old(session)
    {
      var s := session;
      if s == null || s.isMaker || s.await { return; }
      if !(s.state == CS_CREATED_B || (s.secretHunt && OrderDepositSent())) { return; }
      if s.deposit.txid == Empty || s.claim.txid != Empty || s.peer.secretKnown || !hashKnown { return; }
      if watch.ownPending { return; }
      watch := watch.(ownPending := e.queueFree);
    }

    /** A round of the own-deposit watch comes in. */
    method ApplyOwnWatch(spender: bool, depositLive: bool, readable: bool, e: S.Env)
      modifies this, session
      ensures View() == S.ApplyOwnWatch(old(View()), spender, depositLive, readable, e) && session == old(session)
    {
      hide S.Persist, S.OnConfirmB;
      watch := watch.(ownPending := false);
      var s := session;
      if s == null { return; }
      if !spender && s.secretHunt && depositLive {
        s.secretHunt := false;
        Persist();
      }
      if readable && spender { OnConfirmB(true, e); }
    }

    // ---- Crash and restore -------------------------------------------------

    /** A new process over the swap file of the last one, before any sweep has run. */
    constructor Restore(b: Book, now: nat)
      ensures View() == S.RestoreRecord(b, now)
      ensures session == null || fresh(session)
    {
      session, live, hist, tasks := null, None, None, [];
      refund, watch := RefundQueue([], false, 0, 0), WatchQueue([], false, false);
      book := Book(b.disk, None, None, b.overlap, b.writeFailed);
      new;
      if b.disk.Some? { RestoreSwap(b.disk.value, now); }
    }

    method RestoreSwap(r: Record, now: nat)
      requires session == null && live.None? && hist.None? && book.disk == Some(r)
      requires tasks == [] && refund == RefundQueue([], false, 0, 0) && watch == WatchQueue([], false, false)
      requires book.queued.None? && book.writing.None?
      modifies this
      ensures View() == S.RestoreRecord(old(book), now)
      ensures session == null || fresh(session)
    {
      hide S.RestoreSession, S.FiledAway;
      var o := r.order.(mine := true);
      if S.FiledAway(r) {
        hist := Some(o);
        return;
      }
      if S.FinishedRefundPending(r) { o := o.(status := Created, updated := now); }
      live := Some(o);
      if r.sess.Some? { session := new SwapSession(S.RestoreSession(r, now)); }
    }

    method ReconcileUnconfirmedDeposits(onChain: bool)
      modifies this
      ensures View() == S.ReconcileUnconfirmed(old(View()), onChain) && session == old(session)
    {
      var s := session;
      if s == null || s.deposit.refund == Empty || s.refundDone || s.state >= CS_CREATED_A { return; }
      if OrderDepositSent() || s.deposit.txid == Empty { return; }
      if !onChain || live.None? { return; }
      live := Some(live.value.(depositSent := true));
    }
  }

  /** Once the doubling reaches the cap, further attempts wait no longer. */
  lemma {:induction false} RefundDelayStaysCapped(i: nat, a: nat)
    requires 1 <= i <= a
    requires i == a || S.RefundDelay(i) >= S.REFUND_BACKOFF_CAP
    ensures S.RefundDelay(a) == S.RefundDelay(i)
  {
    if i < a { RefundDelayStaysCapped(i, a - 1); }
  }
}
