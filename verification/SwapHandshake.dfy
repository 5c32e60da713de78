/** Handshake packets, deposits, claims, watches and restarts keep the invariant. */
module SwapHandshake {
  import opened Wrappers
  import opened SwapTypes
  import opened SwapSpec
  import opened SwapRun
  import opened SwapInvariant

  // ---- Schedules -----------------------------------------------------------

  lemma DepositRetryKeeps(n: NodeState, h: History, e: Env)
    requires Good(n, h) && n.sess.Some? && n.sess.value.deposit == NO_DEPOSIT
    ensures Good(ScheduleDepositRetry(n, e), h)
  {
    hide BookFits; hide HistoryFits; hide PersistNow; hide RetryBackoff;
    var s := n.sess.value;
    var t := s.(pace := s.pace.(depositRetries := s.pace.depositRetries + 1,
                                depositRetryAt := e.now + RetryBackoff(s.pace.depositRetries),
                                lastProgress := e.now));
    assert Good(n.(sess := Some(t)), h);
    PersistNowKeeps(n.(sess := Some(t)), h, e.diskOk);
  }

  lemma ClaimRetryKeeps(n: NodeState, h: History, e: Env)
    requires Good(n, h) && n.sess.Some?
    ensures Good(ScheduleClaimRetry(n, e), h)
    ensures ScheduleClaimRetry(n, e).sess.Some? && ScheduleClaimRetry(n, e).sess.value.await == n.sess.value.await
  {
    hide LiveSessionFits; hide OrderFits; hide BookFits; hide HistoryFits; hide PersistNow; hide RetryBackoff;
    var s := n.sess.value;
    var t := s.(pace := s.pace.(claimRetries := s.pace.claimRetries + 1,
                                claimRetryAt := e.now + RetryBackoff(s.pace.claimRetries),
                                lastProgress := e.now));
    SessionKeeps(n, h, t);
    PersistNowKeeps(n.(sess := Some(t)), h, e.diskOk);
  }

  lemma NotReadyKeeps(n: NodeState, h: History, isClaim: bool, seen: bool, e: Env)
    requires Good(n, h) && n.sess.Some?
    requires isClaim || n.sess.value.deposit == NO_DEPOSIT
    ensures Good(ScheduleNotReady(n, isClaim, seen, e), h)
    ensures ScheduleNotReady(n, isClaim, seen, e).sess.Some?
    ensures ScheduleNotReady(n, isClaim, seen, e).sess.value.await == n.sess.value.await
  {
    hide LiveSessionFits; hide OrderFits; hide BookFits; hide HistoryFits; hide PersistNow;
    var t := ScheduleNotReady(n, isClaim, seen, e).sess.value;
    SessionKeeps(n, h, t);
    PersistNowKeeps(n.(sess := Some(t)), h, e.diskOk);
  }

  lemma ScheduleKeeps(n: NodeState, h: History, isClaim: bool, f: Failure, e: Env)
    requires Good(n, h) && n.sess.Some?
    requires isClaim || n.sess.value.deposit == NO_DEPOSIT
    ensures Good(ScheduleAfterFailure(n, isClaim, f, e), h)
    ensures ScheduleAfterFailure(n, isClaim, f, e).sess.Some?
    ensures ScheduleAfterFailure(n, isClaim, f, e).sess.value.await == n.sess.value.await
  {
    hide LiveSessionFits; hide OrderFits; hide BookFits; hide HistoryFits;
    hide ScheduleNotReady; hide ScheduleClaimRetry; hide PastFastWindow; hide PersistNow;
    var s := n.sess.value;
    var s1 := if f.NotReady? && s.pace.notReadySince > e.now then s.(pace := s.pace.(notReadySince := e.now)) else s;
    var m := n.(sess := Some(s1));
    SessionKeeps(n, h, s1);
    if f.NotReady? { NotReadyKeeps(m, h, isClaim, f.seen, e); }
    if isClaim { ClaimRetryKeeps(m, h, e); } else { DepositRetryKeeps(m, h, e); }
  }

  /** The work a session waits for is off the queue; its result is being applied. */
  predicate Popped(n: NodeState, h: History, w: Work) {
    && Good(n, h) && n.work == []
    && n.sess.Some? && n.sess.value.await && WorkFits(w, n.sess.value, h)
  }

  lemma ReleaseKeeps(n: NodeState, h: History)
    requires Good(n, h) && n.sess.Some? && n.work == []
    ensures Inv(ReleaseGuard(n), h)
  {
    hide LiveSessionFits; hide OrderFits; hide BookFits; hide HistoryFits;
    SessionKeeps(n, h, Release(n.sess.value));
  }

  lemma IdleInv(n: NodeState, h: History)
    requires Good(n, h) && n.work == [] && (n.sess.Some? ==> !n.sess.value.await)
    ensures Inv(n, h)
  {
  }

  // ---- Deposits ------------------------------------------------------------

  lemma DepositFailureIs(n: NodeState, f: Failure, e: Env)
    requires n.sess.Some?
    ensures var m := ReleaseGuard(n);
            ApplyDepositFailure(n, f, e) == if f.SelfCancelErr? && !n.sess.value.isMaker then SelfCancel(m, e)
                                            else if n.sess.value.deposit.txid == Empty then ScheduleAfterFailure(m, false, f, e)
                                            else m
  {
    hide SelfCancel; hide ScheduleAfterFailure;
  }

  lemma DepositFailureKeeps(n: NodeState, h: History, f: Failure, e: Env)
    requires Popped(n, h, DepositBuild)
    ensures Inv(ApplyDepositFailure(n, f, e), Judge(h, ApplyDepositFailure(n, f, e)))
  {
    hide Good; hide SelfCancel; hide ScheduleAfterFailure; hide WorkFits; hide Judge; hide ApplyDepositFailure; hide Inv;
    var m := ReleaseGuard(n);
    DepositFailureIs(n, f, e);
    ReleaseKeeps(n, h);
    UnfoldInv(m, h);
    if f.SelfCancelErr? && !n.sess.value.isMaker {
      SelfCancelKeeps(m, h, e);
      IdleInv(SelfCancel(m, e), Judge(h, SelfCancel(m, e)));
    } else if n.sess.value.deposit.txid == Empty {
      NoTxidNoDeposit(n, h);
      ScheduleKeeps(m, h, false, f, e);
      JudgeGood(ScheduleAfterFailure(m, false, f, e), h);
      IdleInv(ScheduleAfterFailure(m, false, f, e), h);
    } else {
      JudgeGood(m, h);
    }
  }

  lemma NoTxidNoDeposit(n: NodeState, h: History)
    requires Good(n, h) && n.sess.Some? && n.sess.value.deposit.txid == Empty
    ensures n.sess.value.deposit == NO_DEPOSIT
  {
  }

  /** The history once a build's intent was written, or was not. */
  function Intended(h: History, d: Deposit, ok: bool): History {
    h.(intent := if ok then Some(d) else None)
  }

  lemma IntendedRecord(r: Option<Record>, h: History, d: Deposit, ok: bool, overlap: bool, clean: bool)
    requires RecordFits(r, h, overlap, clean)
    ensures ok ==> RecordFits(r, Intended(h, d, ok), true, false)
    ensures !ok ==> RecordFits(r, Intended(h, d, ok), overlap, false)
  {
  }

  lemma AdoptedSession(n: NodeState, h: History, d: Deposit, ok: bool)
    requires Popped(n, h, DepositBuild) && WellBuilt(d)
    ensures AdoptBuild(n, d).sess.Some?
    ensures LiveSessionFits(AdoptBuild(n, d).sess.value, Intended(h, d, ok))
    ensures HistoryFits(Intended(h, d, ok), n.book)
  {
    hide BookFits;
  }

  lemma AdoptedOrder(n: NodeState, h: History, d: Deposit, ok: bool)
    requires Popped(n, h, DepositBuild) && WellBuilt(d)
    ensures var m := AdoptBuild(n, d); OrderFits(m.sess, m.live, m.hist, Intended(h, d, ok))
  {
    hide BookFits; hide HistoryFits;
  }

  lemma BuiltBook(n: NodeState, m: NodeState, h: History, d: Deposit, ok: bool)
    requires BookFits(n.book, h) && m.book == n.book && HistoryFits(h, n.book)
    requires var g := Intended(h, d, ok);
             && m.sess.Some? && LiveSessionFits(m.sess.value, g)
             && OrderFits(m.sess, m.live, m.hist, g)
    ensures BookFits(PersistNow(m, ok).book, Intended(h, d, ok))
  {
    hide LiveSessionFits; hide OrderFits; hide RecordFits;
    var g := Intended(h, d, ok);
    var b := PersistNow(m, ok).book;
    SnapshotFits(m, g, b.overlap, Clean(b));
    IntendedRecord(n.book.disk, h, d, ok, n.book.overlap, Clean(n.book));
    if n.book.writing.Some? { IntendedRecord(n.book.writing.value, h, d, ok, n.book.overlap, Clean(n.book)); }
  }

  lemma BuildPersistKeeps(n: NodeState, h: History, d: Deposit, ok: bool)
    requires Popped(n, h, DepositBuild) && WellBuilt(d)
    ensures Good(PersistNow(AdoptBuild(n, d), ok), Intended(h, d, ok))
  {
    hide LiveSessionFits; hide OrderFits; hide BookFits; hide AdoptBuild; hide Snapshot;
    var g := Intended(h, d, ok);
    var m := AdoptBuild(n, d);
    AdoptedSession(n, h, d, ok);
    AdoptedOrder(n, h, d, ok);
    BuiltBook(n, m, h, d, ok);
  }

  lemma DepositBuildKeeps(n: NodeState, h: History, d: Deposit, e: Env)
    requires Popped(n, h, DepositBuild) && WellBuilt(d)
    ensures var r := ApplyDepositBuild(n, d, e); Inv(r, Judge(Intended(h, d, e.diskOk), r))
  {
    hide LiveSessionFits; hide OrderFits; hide BookFits; hide HistoryFits; hide PersistNow;
    var g := Intended(h, d, e.diskOk);
    var m := PersistNow(AdoptBuild(n, d), e.diskOk);
    BuildPersistKeeps(n, h, d, e.diskOk);
    ReleaseKeeps(m, g);
    var r := ApplyDepositBuild(n, d, e);
    JudgeGood(r, g);
  }

  lemma SentSession(n: NodeState, h: History, now: nat)
    requires Good(n, h) && n.sess.Some? && !n.sess.value.await
    requires PreCreated(n.sess.value) && n.sess.value.deposit != NO_DEPOSIT
    ensures Good(MarkSent(n, now), h)
    ensures MarkSent(n, now).sess.Some? && !MarkSent(n, now).sess.value.await
  {
  }

  lemma ConfirmDepositKeeps(n: NodeState, h: History, e: Env)
    requires Inv(n, h) && n.sess.Some? && !n.sess.value.await
    requires PreCreated(n.sess.value) && n.sess.value.deposit != NO_DEPOSIT
    ensures var r := ConfirmDeposit(n, e);
            Inv(r, Judge(h, r))
  {
    hide LiveSessionFits; hide OrderFits; hide BookFits; hide HistoryFits;
    hide MarkSent; hide Persist; hide Reply;
    var g := h;
    var m := MarkSent(n, e.now);
    SentSession(n, h, e.now);
    PersistKeeps(m, g);
    ReplyKeeps(Persist(m), g, e);
    var r := ConfirmDeposit(n, e);
    JudgeGood(r, g);
    IdleInv(r, g);
  }

  /** One more broadcast failed. */
  function Failed(h: History): History {
    h.(fails := h.fails + 1, runFails := h.runFails + 1)
  }

  function BumpDeposit(s: Session, e: Env): Session {
    s.(await := false,
       pace := s.pace.(awaitSince := 0, depositRetries := s.pace.depositRetries + 1,
                       depositRetryAt := e.now + RetryBackoff(s.pace.depositRetries), lastProgress := e.now))
  }

  lemma BumpedSession(n: NodeState, h: History, d: Deposit, e: Env)
    requires Popped(n, h, DepositSend(d))
    ensures LiveSessionFits(BumpDeposit(n.sess.value, e), Failed(h))
    ensures HistoryFits(Failed(h), n.book)
    ensures OrderFits(Some(BumpDeposit(n.sess.value, e)), n.live, n.hist, Failed(h))
    ensures d != NO_DEPOSIT && d.txid != Empty && d.hex != Empty
  {
    hide RecordFits; hide RetryBackoff;
  }

  lemma FailedRecord(r: Option<Record>, h: History, overlap: bool, clean: bool)
    requires RecordFits(r, h, overlap, clean)
    ensures RecordFits(r, Failed(h), true, false) && RecordFits(r, Failed(h), overlap, false)
  {
  }

  lemma SendFailureKeeps(n: NodeState, h: History, d: Deposit, e: Env)
    requires Popped(n, h, DepositSend(d))
    ensures var r := ApplyDepositSend(n, false, e); Inv(r, Judge(Failed(h), r))
  {
    hide LiveSessionFits; hide OrderFits; hide RecordFits; hide Snapshot; hide RetryBackoff; hide HistoryFits;
    var g := Failed(h);
    var m := n.(sess := Some(BumpDeposit(n.sess.value, e)));
    BumpedSession(n, h, d, e);
    var r := PersistNow(m, e.diskOk);
    assert ApplyDepositSend(n, false, e) == r;
    var b := r.book;
    DirtierHistory(g, n.book, b);
    SnapshotFits(m, g, b.overlap, Clean(b));
    FailedRecord(n.book.disk, h, n.book.overlap, Clean(n.book));
    if n.book.writing.Some? { FailedRecord(n.book.writing.value, h, n.book.overlap, Clean(n.book)); }
    JudgeGood(r, g);
  }

  lemma DirtierHistory(h: History, b: Book, c: Book)
    requires HistoryFits(h, b)
    requires b.overlap ==> c.overlap
    requires b.writeFailed ==> c.writeFailed
    ensures HistoryFits(h, c)
  {
  }

  lemma ProgressKeeps(n: NodeState, h: History, now: nat)
    requires Inv(n, h) && n.sess.Some?
    ensures Inv(n.(sess := Some(Progress(n.sess.value, now))), h)
  {
    hide LiveSessionFits; hide OrderFits; hide BookFits; hide HistoryFits;
    SessionKeeps(n, h, Progress(n.sess.value, now));
  }

  lemma SendSuccessKeeps(n: NodeState, h: History, d: Deposit, e: Env)
    requires Popped(n, h, DepositSend(d))
    ensures var r := ApplyDepositSend(n, true, e); Inv(r, Judge(h, r))
  {
    hide LiveSessionFits; hide OrderFits; hide BookFits; hide ConfirmDeposit;
    var m := ReleaseGuard(n);
    ReleaseKeeps(n, h);
    ProgressKeeps(m, h, e.now);
    ConfirmDepositKeeps(m.(sess := Some(Progress(m.sess.value, e.now))), h, e);
  }

  lemma RetryAtKeeps(n: NodeState, h: History, at: nat)
    requires Inv(n, h) && n.sess.Some?
    requires at == 0 || n.sess.value.pace.depositRetryAt != 0
    ensures Inv(n.(sess := Some(DepositRetryAt(n.sess.value, at))), h)
  {
    hide LiveSessionFits; hide OrderFits; hide BookFits; hide HistoryFits;
    SessionKeeps(n, h, DepositRetryAt(n.sess.value, at));
  }

  lemma AdoptOrRepostKeeps(n: NodeState, h: History, onChain: bool, e: Env)
    requires Inv(n, h) && n.sess.Some? && !n.sess.value.await
    requires PreCreated(n.sess.value) && n.sess.value.deposit != NO_DEPOSIT && n.sess.value.pace.depositRetryAt != 0
    ensures var r := AdoptOrRepostDeposit(n, onChain, e);
            Inv(r, Judge(h, r))
  {
    hide OrderFits; hide BookFits; hide HistoryFits; hide ConfirmDeposit; hide RepostDeposit;
    hide SessionFits; hide Counts; hide Inv;
    assert WorkHeld(n, h) && LiveSessionFits(n.sess.value, h) by { assert Good(n, h) by { UnfoldInv(n, h); } UnfoldInv(n, h); }
    var s := n.sess.value;
    var r := AdoptOrRepostDeposit(n, onChain, e);
    RetryAtKeeps(n, h, 0);
    RetryAtKeeps(n, h, e.now + RETRY_BASE);
    if e.walletOk && onChain {
      var m := n.(sess := Some(DepositRetryAt(s, 0)));
      UnfoldInv(m, h);
      ReleaseKeeps(m, h);
      ConfirmDepositKeeps(ReleaseGuard(m), h, e);
    } else {
      if s.pace.depositRetries < BROADCAST_REPOST_MAX { RepostDepositKeeps(n, h, DepositSend(s.deposit), e); }
      UnfoldInv(r, h);
      JudgeGood(r, h);
    }
  }

  lemma UnfoldInv(n: NodeState, h: History)
    requires Inv(n, h)
    ensures Good(n, h) && WorkHeld(n, h)
  {
  }

  lemma DepositRetriesKeep(n: NodeState, h: History, onChain: bool, e: Env)
    requires Inv(n, h)
    ensures var r := RetryFailedDepositBuilds(n, onChain, e);
            Inv(r, Judge(h, r))
  {
    hide OrderFits; hide BookFits; hide HistoryFits; hide AdoptOrRepostDeposit; hide RepostDeposit;
    hide Counts; hide CarriesIntent; hide BuildDue; hide WorkHeld;
    var r := RetryFailedDepositBuilds(n, onChain, e);
    JudgeGood(n, h);
    if n.sess.Some? && !n.sess.value.await && PreCreated(n.sess.value) {
      var s := n.sess.value;
      if s.deposit == NO_DEPOSIT {
        if WorkFits(DepositBuild, s, h) {
          RepostDepositKeeps(n, h, DepositBuild, e);
          JudgeGood(RepostDeposit(n, DepositBuild, e), h);
        }
      } else if s.pace.depositRetryAt != 0 {
        AdoptOrRepostKeeps(n, h, onChain, e);
      }
    }
  }

  // ---- Claims --------------------------------------------------------------

  lemma ClaimFailureKeeps(n: NodeState, h: History, makerSide: bool, f: Failure, e: Env)
    requires Popped(n, h, ClaimBuild(makerSide))
    ensures var r := ApplyClaimFailure(n, makerSide, f, e); Inv(r, Judge(h, r))
  {
    hide OrderFits; hide BookFits; hide HistoryFits; hide LiveSessionFits;
    hide SelfCancel; hide ScheduleAfterFailure;
    var m := ReleaseGuard(n);
    ReleaseKeeps(n, h);
    SelfCancelKeeps(m, h, e);
    ScheduleKeeps(m, h, true, f, e);
    var r := ApplyClaimFailure(n, makerSide, f, e);
    if !f.SelfCancelErr? || !makerSide { JudgeGood(r, h); }
    IdleInv(r, Judge(h, r));
  }

  lemma AdoptClaimKeeps(n: NodeState, h: History, makerSide: bool, c: Claim)
    requires Popped(n, h, ClaimBuild(makerSide)) && c.txid != Empty && c.hex != Empty
    ensures Good(n.(sess := Some(AdoptClaim(n.sess.value, makerSide, c))), h)
  {
    hide BookFits; hide HistoryFits;
  }

  lemma ClaimBuildKeeps(n: NodeState, h: History, makerSide: bool, c: Claim, e: Env)
    requires Popped(n, h, ClaimBuild(makerSide)) && c.txid != Empty && c.hex != Empty
    ensures Inv(ApplyClaimBuild(n, makerSide, c, e), h)
  {
    hide LiveSessionFits; hide OrderFits; hide BookFits; hide HistoryFits; hide PersistNow;
    var m := n.(sess := Some(AdoptClaim(n.sess.value, makerSide, c)));
    AdoptClaimKeeps(n, h, makerSide, c);
    PersistNowKeeps(m, h, e.diskOk);
    ReleaseKeeps(PersistNow(m, e.diskOk), h);
  }

  /** The claim is out: the swap is settled and the deposit no longer owed. */
  function Claimed(h: History, live: Option<Order>): History {
    h.(claimed := true, booked := live.Some?, settled := true, steady := false)
  }

  lemma MarkClaimedKeeps(n: NodeState, h: History, now: nat)
    requires Good(n, h) && n.sess.Some? && !n.sess.value.await && n.sess.value.state != CS_FINISHED
    ensures Good(MarkClaimed(n, now), Claimed(h, n.live))
    ensures MarkClaimed(n, now).sess.Some? && !MarkClaimed(n, now).sess.value.await
  {
  }

  lemma ConfirmClaimKeeps(n: NodeState, h: History, e: Env)
    requires Inv(n, h) && n.sess.Some? && !n.sess.value.await && n.sess.value.state != CS_FINISHED
    ensures Inv(ConfirmClaim(n, e), Claimed(h, n.live))
  {
    hide LiveSessionFits; hide OrderFits; hide BookFits; hide HistoryFits;
    hide MarkClaimed; hide Persist; hide Reply;
    var g := Claimed(h, n.live);
    var m := MarkClaimed(n, e.now);
    MarkClaimedKeeps(n, h, e.now);
    PersistKeeps(m, g);
    ReplyKeeps(Persist(m), g, e);
    IdleInv(ConfirmClaim(n, e), g);
  }

  lemma ClaimSendKeeps(n: NodeState, h: History, c: Claim, ok: bool, e: Env)
    requires Popped(n, h, ClaimSend(c))
    ensures Inv(ApplyClaimSend(n, ok, e), if ok then Claimed(h, n.live) else h)
  {
    hide LiveSessionFits; hide OrderFits; hide BookFits; hide HistoryFits;
    hide ConfirmClaim; hide ScheduleClaimRetry;
    var m := ReleaseGuard(n);
    ReleaseKeeps(n, h);
    if ok {
      ProgressKeeps(m, h, e.now);
      ConfirmClaimKeeps(m.(sess := Some(Progress(m.sess.value, e.now))), h, e);
    } else {
      ClaimRetryKeeps(m, h, e);
      IdleInv(ScheduleClaimRetry(m, e), h);
    }
  }

  lemma ClaimRetryAtKeeps(n: NodeState, h: History, at: nat)
    requires Inv(n, h) && n.sess.Some?
    ensures Inv(n.(sess := Some(ClaimRetryAt(n.sess.value, at))), h)
  {
    hide LiveSessionFits; hide OrderFits; hide BookFits; hide HistoryFits;
    SessionKeeps(n, h, ClaimRetryAt(n.sess.value, at));
  }

  lemma AdoptOrRepostClaimKeeps(n: NodeState, h: History, onChain: bool, e: Env)
    requires Inv(n, h) && n.sess.Some? && !n.sess.value.await
    requires PreConfirmed(n.sess.value) && n.sess.value.claim != NO_CLAIM
    ensures Inv(AdoptOrRepostClaim(n, onChain, e), if e.walletOk && onChain then Claimed(h, n.live) else h)
  {
    hide Inv; hide ConfirmClaim; hide RepostClaim;
    ClaimRetryAtKeeps(n, h, 0);
    ClaimRetryAtKeeps(n, h, e.now + RETRY_BASE);
    if e.walletOk && onChain {
      var m := n.(sess := Some(ClaimRetryAt(n.sess.value, 0)));
      hide Good; hide WorkHeld;
      UnfoldInv(m, h);
      IdleWork(m, h);
      ReleaseKeeps(m, h);
      ConfirmClaimKeeps(ReleaseGuard(m), h, e);
    } else {
      RepostClaimKeeps(n, h, ClaimSend(n.sess.value.claim), e);
    }
  }

  lemma IdleWork(n: NodeState, h: History)
    requires WorkHeld(n, h) && n.sess.Some? && !n.sess.value.await
    ensures n.work == []
  {
  }

  lemma ClaimRetriesKeep(n: NodeState, h: History, onChain: bool, e: Env)
    requires Inv(n, h)
    ensures Inv(RetryFailedClaimBuilds(n, onChain, e),
                if AdoptsClaim(n, RetryClaims(onChain), e) then Claimed(h, n.live) else h)
  {
    hide Inv; hide AdoptOrRepostClaim; hide RepostClaim;
    if n.sess.Some? && !n.sess.value.await {
      var s := n.sess.value;
      ClaimFits(n, h);
      ClaimRetryAtKeeps(n, h, 0);
      if s.claim != NO_CLAIM && PreConfirmed(s) { AdoptOrRepostClaimKeeps(n, h, onChain, e); }
      if s.state != CS_FINISHED { RepostClaimKeeps(n, h, ClaimBuild(s.isMaker), e); }
    }
  }

  lemma ClaimFits(n: NodeState, h: History)
    requires Inv(n, h) && n.sess.Some?
    ensures var c := n.sess.value.claim; c == NO_CLAIM || (c.txid != Empty && c.hex != Empty)
  {
  }

  // ---- Packets -------------------------------------------------------------

  lemma AdvanceKeeps(n: NodeState, h: History, k: ClientState)
    requires Good(n, h) && n.sess.Some? && n.sess.value.state < k && k in {CS_HOLD_APPLIED, CS_INITIALIZED}
    ensures Good(n.(sess := Some(n.sess.value.(state := k))), h)
    ensures !h.claimed
  {
    hide BookFits; hide HistoryFits;
  }

  lemma HoldKeeps(n: NodeState, h: History, ok: bool, e: Env)
    requires Inv(n, h) && n.sess.Some? && !n.sess.value.await
    ensures var r := OnHold(n, ok, e); Inv(r, h)
  {
    hide LiveSessionFits; hide OrderFits; hide BookFits; hide HistoryFits;
    hide Persist; hide Reply; hide SetStatus;
    var s := n.sess.value;
    if s.state < CS_HOLD_APPLIED && ok {
      PersistKeeps(n, h);
      var n1 := if s.isMaker then Persist(n) else n;
      AdvanceKeeps(n1, h, CS_HOLD_APPLIED);
      var n2 := n1.(sess := Some(s.(state := CS_HOLD_APPLIED)));
      StatusKeeps(n2, h, Status.Hold, e.now);
      ReplyKeeps(SetStatus(n2, Status.Hold, e.now), h, e);
      IdleInv(OnHold(n, ok, e), h);
    }
  }

  lemma InitKeeps(n: NodeState, h: History, ok: bool, e: Env)
    requires Inv(n, h) && n.sess.Some? && !n.sess.value.await
    ensures var r := OnInit(n, ok, e); Inv(r, h)
  {
    hide LiveSessionFits; hide OrderFits; hide BookFits; hide HistoryFits;
    hide Reply; hide SetStatus;
    var s := n.sess.value;
    if s.state < CS_INITIALIZED && ok {
      AdvanceKeeps(n, h, CS_INITIALIZED);
      var n2 := n.(sess := Some(s.(state := CS_INITIALIZED)));
      StatusKeeps(n2, h, Initialized, e.now);
      ReplyKeeps(SetStatus(n2, Initialized, e.now), h, e);
      IdleInv(OnInit(n, ok, e), h);
    }
  }

  lemma CreateAKeeps(n: NodeState, h: History, keyGiven: bool, e: Env)
    requires Inv(n, h) && n.sess.Some?
    ensures Inv(OnCreateA(n, keyGiven, e), h)
  {
    hide Inv; hide Dispatch;
    var s := n.sess.value;
    if s.isMaker && s.state < CS_CREATED_A && !s.await {
      DispatchKeeps(n, h, s.(peer := s.peer.(pub := true)), DepositBuild, e);
    }
  }

  lemma CreateBKeeps(n: NodeState, h: History, depositGiven: bool, keyGiven: bool, e: Env)
    requires Inv(n, h) && n.sess.Some? && !n.sess.value.await
    ensures var r := OnCreateB(n, depositGiven, keyGiven, e); Inv(r, Judge(h, r))
  {
    hide OrderFits; hide BookFits; hide HistoryFits; hide CarriesIntent; hide Counts;
    hide SelfCancel; hide Dispatch;
    var s := n.sess.value;
    var r := OnCreateB(n, depositGiven, keyGiven, e);
    JudgeGood(n, h);
    SelfCancelKeeps(n, h, e);
    if !depositGiven {
      IdleInv(SelfCancel(n, e), Judge(h, SelfCancel(n, e)));
    } else if !s.isMaker && s.state < CS_CREATED_B && !s.peer.pub {
      DispatchKeeps(n, h, s.(peer := s.peer.(pub := true, deposit := true)), DepositBuild, e);
      JudgeGood(Dispatch(n, s.(peer := s.peer.(pub := true, deposit := true)), DepositBuild, e), h);
    }
  }

  lemma ConfirmAKeeps(n: NodeState, h: History, depositGiven: bool, e: Env)
    requires Inv(n, h) && n.sess.Some?
    ensures Inv(OnConfirmA(n, depositGiven, e), h)
  {
    hide Inv; hide Dispatch;
    var s := n.sess.value;
    if s.isMaker && s.state < CS_CONFIRMED_A && !s.await {
      DispatchKeeps(n, h, s.(peer := s.peer.(deposit := depositGiven)), ClaimBuild(true), e);
    }
  }

  lemma ConfirmBKeeps(n: NodeState, h: History, payTxGiven: bool, e: Env)
    requires Inv(n, h) && n.sess.Some?
    ensures Inv(OnConfirmB(n, payTxGiven, e), h)
  {
    hide LiveSessionFits; hide OrderFits; hide BookFits; hide HistoryFits;
    hide Dispatch; hide Persist;
    var s := n.sess.value;
    if s.state < CS_CONFIRMED_B && !s.await {
      var t := s.(peer := s.peer.(payTx := payTxGiven));
      PaymentCore(s, payTxGiven, e.now);
      hide SameCore; hide TakeGuard;
      SessionKeeps(n, h, t);
      PersistKeeps(n.(sess := Some(t)), h);
      DispatchKeeps(Persist(n.(sess := Some(t))), h, t, ClaimBuild(false), e);
    }
  }

  lemma PaymentCore(s: Session, payTxGiven: bool, now: nat)
    requires !s.await && s.state != CS_FINISHED
    ensures var t := s.(peer := s.peer.(payTx := payTxGiven)); SameCore(s, t) && SameCore(s, TakeGuard(t, now))
  {
  }

  lemma FinishSession(n: NodeState, h: History)
    requires Good(n, h) && n.sess.Some? && !n.sess.value.await && !h.steady
    ensures Good(n.(sess := Some(n.sess.value.(state := CS_FINISHED))), h)
  {
    hide BookFits; hide HistoryFits;
  }

  lemma NothingOwed(n: NodeState, h: History)
    requires Good(n, h) && n.sess.Some? && FinishedMayTerminate(n)
    ensures h.claimed && h.booked && n.live.Some? ==> Settled(n.live.value.(status := Finished))
  {
  }

  lemma FinishedKeeps(n: NodeState, h: History, e: Env)
    requires Inv(n, h) && n.sess.Some? && !n.sess.value.await
    ensures var r := OnFinished(n, e); Inv(r, Judge(h, r))
  {
    hide LiveSessionFits; hide OrderFits; hide BookFits; hide HistoryFits;
    hide Persist; hide PruneSessions; hide FinishedMayTerminate; hide MoveToHistory;
    if FinishedMayTerminate(n) {
      var u := Unsteady(h);
      UnsteadyKeeps(n, h);
      NothingOwed(n, u);
      var n1 := MoveToHistory(n, Finished, e.now);
      ShelveKeeps(n, u, Finished, e.now);
      FinishSession(n1, u);
      var n2 := n1.(sess := Some(n.sess.value.(state := CS_FINISHED)));
      PersistKeeps(n2, u);
      IdleInv(Persist(n2), u);
      PruneKeeps(Persist(n2), u);
    } else {
      JudgeGood(n, h);
    }
  }

  lemma PacketKeeps(n: NodeState, h: History, p: Packet, e: Env)
    requires Inv(n, h)
    ensures var r := ProcessSwap(n, p, e); Inv(r, Judge(h, r))
  {
    hide Inv; hide OnHold; hide OnInit; hide OnCreateA; hide OnCreateB; hide OnConfirmA; hide OnConfirmB; hide OnFinished;
    hide Judge;
    JudgeInv(n, h);
    if n.sess.Some? {
      var m := n.(sess := Some(Progress(n.sess.value, e.now)));
      ProgressKeeps(n, h, e.now);
      JudgeInv(m, h);
      if !m.sess.value.await {
        match p {
          case HoldPkt(ok) => HoldKeeps(m, h, ok, e); JudgeInv(OnHold(m, ok, e), h);
          case InitPkt(ok) => InitKeeps(m, h, ok, e); JudgeInv(OnInit(m, ok, e), h);
          case CreateAPkt(k) => CreateAKeeps(m, h, k, e); JudgeInv(OnCreateA(m, k, e), h);
          case CreateBPkt(d, k) => CreateBKeeps(m, h, d, k, e);
          case ConfirmAPkt(d) => ConfirmAKeeps(m, h, d, e); JudgeInv(OnConfirmA(m, d, e), h);
          case ConfirmBPkt(t) => ConfirmBKeeps(m, h, t, e); JudgeInv(OnConfirmB(m, t, e), h);
          case FinishedPkt => FinishedKeeps(m, h, e);
        }
      }
    }
  }

  lemma JudgeInv(n: NodeState, h: History)
    requires Inv(n, h)
    ensures Judge(h, n) == h
  {
  }
}
