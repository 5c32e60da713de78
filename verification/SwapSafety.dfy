/** Every reachable state keeps the invariant, and what follows from it. */
module SwapSafety {
  import opened Wrappers
  import opened SwapTypes
  import opened SwapSpec
  import opened SwapRun
  import opened SwapInvariant
  import opened SwapHandshake

  // ---- Watches -------------------------------------------------------------

  /** The run of absent probes as the history counts it. */
  function Watched(h: History, absent: nat): History {
    h.(absent := absent)
  }

  lemma MissesKeep(n: NodeState, h: History, misses: nat, absent: nat)
    requires Inv(n, h) && n.sess.Some? && misses <= absent
    ensures Inv(Misses(n, misses), Watched(h, absent))
  {
    hide LiveSessionFits; hide BookFits; hide HistoryFits;
    SessionAgain(n.sess.value, misses, h, absent);
    BookAgain(n.book, h, absent);
  }

  lemma SessionAgain(s: Session, misses: nat, h: History, absent: nat)
    requires LiveSessionFits(s, h) && misses <= absent
    ensures LiveSessionFits(s.(vanishMisses := misses), Watched(h, absent))
  {
  }

  lemma BookAgain(b: Book, h: History, absent: nat)
    requires BookFits(b, h) && HistoryFits(h, b)
    ensures BookFits(b, Watched(h, absent)) && HistoryFits(Watched(h, absent), b)
  {
    hide SessionFits; hide Counts;
  }

  /** With no session the count is free. */
  lemma AbsentFree(n: NodeState, h: History, absent: nat)
    requires Inv(n, h) && n.sess.None?
    ensures Inv(n, Watched(h, absent))
  {
    hide LiveSessionFits; hide BookFits; hide HistoryFits;
    BookAgain(n.book, h, absent);
  }

  lemma WatchPostKeeps(n: NodeState, h: History, bt: int, e: Env)
    requires Inv(n, h)
    ensures Inv(WatchCounterparty(n, DepositWatchVanishThreshold(bt), e), Watched(h, AbsentRun(n, h, SweepWatch(bt))))
  {
    hide Inv; hide Watchable; hide RollbackGate; hide DepositWatchVanishThreshold;
    if n.sess.Some? { MissesKeep(n, h, 0, 0); }
    assert Watched(h, h.absent) == h;
    TaskFrame(n, h, n.(watch := WatchCounterparty(n, DepositWatchVanishThreshold(bt), e).watch));
  }

  lemma TaskFrame(n: NodeState, h: History, m: NodeState)
    requires Inv(n, h) && m == n.(refund := m.refund, watch := m.watch)
    ensures Inv(m, h)
  {
    hide LiveSessionFits; hide OrderFits; hide BookFits; hide HistoryFits;
  }

  lemma WatchDoneKeeps(n: NodeState, h: History, i: nat, p: Probe, spent: bool, e: Env)
    requires Inv(n, h) && i < |n.watch.tasks|
    ensures var r := ApplyWatch(n, i, p, spent, e);
            Inv(r, Judge(Watched(h, AbsentRun(n, h, WatchDone(i, p, spent))), r))
  {
    hide Inv; hide EnterSecretHunt; hide SelfCancel; hide TakeWatch;
    var m := TakeWatch(n, i);
    var a := AbsentRun(n, h, WatchDone(i, p, spent));
    TaskFrame(n, h, m);
    assert Watchable2(n, m);
    if m.sess.None? {
      AbsentFree(m, h, a);
      JudgeInv(m, Watched(h, a));
    } else {
      var s := m.sess.value;
      MissesBelow(n, h);
      if p.Absent? && Watchable(m) && s.vanishMisses + 1 < n.watch.tasks[i].threshold {
        MissesKeep(m, h, s.vanishMisses + 1, a);
        JudgeInv(Misses(m, s.vanishMisses + 1), Watched(h, a));
      } else {
        MissesKeep(m, h, 0, a);
        var k := Misses(m, 0);
        JudgeInv(k, Watched(h, a));
        HuntInv(k, Watched(h, a));
        SelfCancelInv(k, Watched(h, a), e);
      }
    }
  }

  /** Taking a watch task off the queue changes nothing the window looks at. */
  predicate Watchable2(n: NodeState, m: NodeState) {
    m.sess == n.sess && (n.sess.Some? ==> (Watchable(m) <==> Watchable(n)))
  }

  lemma MissesBelow(n: NodeState, h: History)
    requires Inv(n, h) && n.sess.Some?
    ensures n.sess.value.vanishMisses <= h.absent
  {
  }

  lemma HuntInv(n: NodeState, h: History)
    requires Inv(n, h) && n.sess.Some?
    ensures var r := EnterSecretHunt(n); Inv(r, h) && Judge(h, r) == h
  {
    hide LiveSessionFits; hide OrderFits; hide BookFits; hide HistoryFits; hide EnterSecretHunt;
    HuntKeeps(n, h);
    JudgeGood(EnterSecretHunt(n), h);
  }

  lemma SelfCancelInv(n: NodeState, h: History, e: Env)
    requires Inv(n, h)
    ensures var r := SelfCancel(n, e); Inv(r, Judge(h, r))
  {
    hide LiveSessionFits; hide OrderFits; hide BookFits; hide HistoryFits; hide SelfCancel;
    SelfCancelKeeps(n, h, e);
  }

  lemma OwnWatchKeeps(n: NodeState, h: History, spender: bool, depositLive: bool, readable: bool, e: Env)
    requires Inv(n, h)
    ensures Inv(ApplyOwnWatch(n, spender, depositLive, readable, e), h)
  {
    hide LiveSessionFits; hide OrderFits; hide BookFits; hide HistoryFits;
    hide Persist; hide OnConfirmB;
    var m := n.(watch := n.watch.(ownPending := false));
    TaskFrame(n, h, m);
    if m.sess.Some? {
      ConfirmBKeeps(m, h, true, e);
      var t := m.sess.value.(secretHunt := false);
      SessionKeeps(m, h, t);
      var k := m.(sess := Some(t));
      PersistKeeps(k, h);
      ConfirmBKeeps(Persist(k), h, true, e);
    }
  }

  // ---- Restart -------------------------------------------------------------

  /** The history of the process that a crash starts. */
  function Reborn(n: NodeState, h: History, m: NodeState): History {
    h.(intent := if m.sess.None? then h.intent
                 else if m.sess.value.deposit == NO_DEPOSIT then None else Some(m.sess.value.deposit),
       claimed := false, booked := false, runFails := 0, absent := 0, steady := h.steady && Steady(m),
       astray := h.astray || Strays(n.book.disk, h.intent), miscounted := h.miscounted || Undercounts(n.book.disk, h.fails))
  }

  lemma RestoredSession(n: NodeState, h: History, onChain: bool, now: nat)
    requires Inv(n, h)
    requires var m := Restart(n, onChain, now); m.sess.Some?
    ensures var m := Restart(n, onChain, now);
            && LiveSessionFits(m.sess.value, Reborn(n, h, m))
            && n.book.disk.Some? && n.book.disk.value.sess.Some? && !FinishedRefundPending(n.book.disk.value)
            && m.sess.value.deposit == n.book.disk.value.sess.value.deposit
            && m.live.Some? && m.live.value.status == n.book.disk.value.order.status
            && Returns(n.book.disk)
  {
    hide HistoryFits; hide RestoreSession; hide OrderFits; hide WorkHeld;
  }

  lemma RestoredOrder(n: NodeState, h: History, onChain: bool, now: nat)
    requires Inv(n, h)
    ensures var m := Restart(n, onChain, now);
            && OrderFits(m.sess, m.live, m.hist, Reborn(n, h, m))
            && m.work == [] && m.book == Book(n.book.disk, None, None, n.book.overlap, n.book.writeFailed)
  {
    hide HistoryFits; hide LiveSessionFits; hide WorkHeld; hide Counts; hide CarriesIntent; hide RestoreSession;
  }

  lemma RestartKeeps(n: NodeState, h: History, onChain: bool, now: nat)
    requires Inv(n, h)
    ensures var m := Restart(n, onChain, now); Inv(m, Reborn(n, h, m))
  {
    hide Restart; hide LiveSessionFits; hide OrderFits;
    var m := Restart(n, onChain, now);
    RestoredOrder(n, h, onChain, now);
    if m.sess.Some? {
      RestoredSession(n, h, onChain, now);
      RestartIdle(n, onChain, now);
    }
    RebornBook(n, h, m);
  }

  lemma RestartIdle(n: NodeState, onChain: bool, now: nat)
    ensures var m := Restart(n, onChain, now); m.sess.Some? ==> !m.sess.value.await
  {
    hide RestoreRecord; hide RestoreSession; hide ReconcileUnconfirmed;
  }

  lemma RebornBook(n: NodeState, h: History, m: NodeState)
    requires BookFits(n.book, h) && HistoryFits(h, n.book)
    requires m.book == Book(n.book.disk, None, None, n.book.overlap, n.book.writeFailed)
    requires m.sess.Some? ==>
               && n.book.disk.Some? && n.book.disk.value.sess.Some?
               && m.sess.value.deposit == n.book.disk.value.sess.value.deposit
               && m.live.Some? && m.live.value.status == n.book.disk.value.order.status
    requires m.sess.Some? ==> Returns(n.book.disk)
    ensures BookFits(m.book, Reborn(n, h, m)) && HistoryFits(Reborn(n, h, m), m.book)
  {
    hide FiledAway;
    assert Clean(n.book) ==> !Undercounts(n.book.disk, h.fails) || h.maker;
  }

  // ---- The step ------------------------------------------------------------

  /** Events that only judge steadiness anew. */
  predicate IsCalm(n: NodeState, ev: Event, e: Env) {
    && !ev.WorkRun? && !ev.Crash? && !ev.WatchDone? && !ev.SweepWatch?
    && !ConfirmsDeposit(n, ev, e) && !ConfirmsClaim(n, ev, e) && !ConfirmsRefund(n, ev)
    && !(ev.WorkDone? && ev.w.DepositBuilt?) && !IsSend(n, ev, true, false)
  }

  lemma CalmChronicle(n: NodeState, h: History, ev: Event, e: Env, m: NodeState)
    requires Inv(n, h) && Enabled(n, ev) && IsCalm(n, ev, e)
    ensures Chronicle(h, n, ev, e, m) == Judge(h, m)
  {
    hide ConfirmsDeposit; hide ConfirmsClaim; hide IsSend;
    SettledUnsteady(n, h);
  }

  lemma SettledUnsteady(n: NodeState, h: History)
    requires Inv(n, h)
    ensures h.steady ==> !h.settled
  {
  }

  lemma PopWork(n: NodeState, h: History, i: nat)
    requires Inv(n, h) && i < |n.work|
    ensures n.work[..i] + n.work[i + 1..] == []
    ensures Popped(n.(work := n.work[..i] + n.work[i + 1..]), h, n.work[i])
  {
    hide LiveSessionFits; hide OrderFits; hide BookFits; hide HistoryFits;
  }

  lemma BuildChronicle(n: NodeState, h: History, i: nat, w: WorkResult, e: Env, m: NodeState)
    requires Inv(n, h) && Enabled(n, WorkDone(i, w)) && !w.Sent? && n.sess.Some?
    ensures Chronicle(h, n, WorkDone(i, w), e, m) == Judge(if w.DepositBuilt? then Intended(h, w.d, e.diskOk) else h, m)
  {
    SettledUnsteady(n, h);
    hide Inv;
  }

  lemma BuildResultKeeps(n: NodeState, h: History, i: nat, w: WorkResult, e: Env)
    requires Inv(n, h) && Enabled(n, WorkDone(i, w)) && !w.Sent?
    ensures var m := FinishWork(n, i, w, e); Inv(m, Chronicle(h, n, WorkDone(i, w), e, m))
  {
    hide Inv; hide ApplyDepositBuild; hide ApplyClaimBuild; hide ApplyDepositFailure; hide ApplyClaimFailure;
    hide Good; hide WorkFits; hide Chronicle; hide Judge; hide Intended;
    var t := n.work[i];
    var m := n.(work := n.work[..i] + n.work[i + 1..]);
    PopWork(n, h, i);
    BuildChronicle(n, h, i, w, e, FinishWork(n, i, w, e));
    match w {
      case DepositBuilt(d) => DepositBuildKeeps(m, h, d, e);
      case ClaimBuilt(c) =>
        ClaimBuildKeeps(m, h, t.makerSide, c, e);
        JudgeInv(ApplyClaimBuild(m, t.makerSide, c, e), h);
      case BuildFailed(f) =>
        if t.DepositBuild? { DepositFailureKeeps(m, h, f, e); } else { ClaimFailureKeeps(m, h, t.makerSide, f, e); }
    }
  }

  lemma SendChronicle(n: NodeState, h: History, i: nat, ok: bool, e: Env, m: NodeState)
    requires Inv(n, h) && Enabled(n, WorkDone(i, Sent(ok))) && n.sess.Some?
    ensures Chronicle(h, n, WorkDone(i, Sent(ok)), e, m) ==
            if n.work[i].DepositSend? then Judge(if ok then h else Failed(h), m)
            else if ok then Claimed(h, n.live) else Judge(h, m)
  {
    SettledUnsteady(n, h);
    hide Inv;
  }

  lemma SendResultKeeps(n: NodeState, h: History, i: nat, ok: bool, e: Env)
    requires Inv(n, h) && Enabled(n, WorkDone(i, Sent(ok)))
    ensures var m := FinishWork(n, i, Sent(ok), e); Inv(m, Chronicle(h, n, WorkDone(i, Sent(ok)), e, m))
  {
    hide Inv; hide ApplyDepositSend; hide ApplyClaimSend; hide Good; hide Chronicle; hide Judge; hide Failed; hide Claimed;
    var t := n.work[i];
    var m := n.(work := n.work[..i] + n.work[i + 1..]);
    var r := FinishWork(n, i, Sent(ok), e);
    PopWork(n, h, i);
    SendChronicle(n, h, i, ok, e, r);
    if t.DepositSend? {
      if ok { SendSuccessKeeps(m, h, t.out, e); } else { SendFailureKeeps(m, h, t.out, e); }
    } else {
      ClaimSendKeeps(m, h, t.claim, ok, e);
      if !ok { JudgeInv(r, h); }
    }
  }

  lemma RunKeeps(n: NodeState, h: History, i: nat, e: Env)
    requires Inv(n, h) && Enabled(n, WorkRun(i))
    ensures Inv(n, Chronicle(h, n, WorkRun(i), e, n))
  {
    hide LiveSessionFits; hide RecordFits;
    var g := Chronicle(h, n, WorkRun(i), e, n);
    assert g == h.(handed := g.handed) && (g.handed == h.handed || (h.intent.Some? && g.handed == h.handed + {h.intent.value}));
    HandedAgain(n, h, g.handed);
  }

  lemma HandedAgain(n: NodeState, h: History, handed: set<Deposit>)
    requires Good(n, h)
    ensures n.sess.Some? ==> LiveSessionFits(n.sess.value, h.(handed := handed))
    ensures BookFits(n.book, h.(handed := handed))
  {
  }

  lemma SweepKeeps(n: NodeState, h: History, ev: Event, e: Env)
    requires Inv(n, h)
    requires ev.SweepRefunds? || ev.SweepStored? || ev.SweepOwn? || ev.RefundRpc? || ev.Touched?
             || ev.QueueSnapshot? || ev.WriteSnapshot? || ev.Pop? || ev.Write?
    ensures Inv(Step(n, ev, e), h)
  {
    hide LiveSessionFits; hide OrderFits; hide BookFits; hide HistoryFits;
    hide ScanRefunds; hide ScanStoredRefunds; hide WatchOwnDeposit; hide EnqueueRefund; hide TouchOrder;
    hide Persist; hide PersistNow; hide WriterPop; hide WriterWrite;
    match ev {
      case SweepStored(watched, confirmed) => StoredKeeps(n, h, watched, confirmed, e);
      case Touched => TouchKeeps(n, h, e.now);
      case QueueSnapshot => PersistKeeps(n, h);
      case WriteSnapshot => PersistNowKeeps(n, h, e.diskOk);
      case Pop => WriterKeeps(n, h, e.diskOk);
      case Write => WriterKeeps(n, h, e.diskOk);
      case _ =>
    }
  }

  /** Events that may cancel, shelve or give up the order. */
  predicate IsDecision(ev: Event) {
    ev.SweepStalled? || ev.SweepStale? || ev.SweepExpired? || ev.CancelPkt? || ev.RejectPkt? || ev.CancelRpc?
    || ev.FundingGone?
  }

  lemma DecisionKeeps(n: NodeState, h: History, ev: Event, e: Env)
    requires Inv(n, h)
    requires IsDecision(ev)
    ensures Inv(Step(n, ev, e), Judge(h, Step(n, ev, e)))
  {
    hide LiveSessionFits; hide OrderFits; hide BookFits; hide HistoryFits;
    hide WatchStalled; hide GcStaleMineOrders; hide PruneExpired; hide RemoteCancel; hide RemoteReject;
    hide CancelOrder; hide FundingSpent;
    match ev {
      case SweepStalled => StalledKeeps(n, h, e);
      case SweepStale(tracked) => GarbageKeeps(n, h, tracked, e.now);
      case SweepExpired(x) => ExpiryKeeps(n, h, x, e.now);
      case CancelPkt => RemoteCancelKeeps(n, h, e);
      case RejectPkt => RejectKeeps(n, h, e);
      case CancelRpc => CancelOrderKeeps(n, h, e);
      case FundingGone => FundingSpentKeeps(n, h, e);
    }
  }

  lemma StuckKeeps(n: NodeState, h: History, now: nat)
    requires Inv(n, h)
    ensures Inv(ClearStuckAwait(n, now), h)
  {
    hide LiveSessionFits; hide OrderFits; hide BookFits; hide HistoryFits;
    if n.sess.Some? { SessionKeeps(n, h, Release(n.sess.value)); }
  }

  lemma RefundDoneKeeps(n: NodeState, h: History, j: nat, r: RefundResult, e: Env)
    requires Inv(n, h) && j < |n.refund.tasks|
    ensures var m := ApplyRefund(n, j, r, e.now); Inv(m, Chronicle(h, n, RefundDone(j, r), e, m))
  {
    hide Inv; hide ApplyRefund;
    var m := ApplyRefund(n, j, r, e.now);
    ApplyRefundKeeps(n, h, j, r, e.now);
    if r.RefundSent? {
      assert Chronicle(h, n, RefundDone(j, r), e, m) == Refunded(h);
    } else {
      CalmChronicle(n, h, RefundDone(j, r), e, m);
      JudgeInv(m, h);
    }
  }

  lemma RetriesChronicle(n: NodeState, h: History, ev: Event, e: Env, m: NodeState)
    requires Inv(n, h) && (ev.RetryClaims? || ev.RetryDeposits?)
    ensures Chronicle(h, n, ev, e, m)
            == (if AdoptsClaim(n, ev, e) then Claimed(h, n.live)
                else Judge(h, m))
  {
    SettledUnsteady(n, h);
    hide Inv;
  }

  lemma RetriesKeep(n: NodeState, h: History, ev: Event, e: Env)
    requires Inv(n, h) && (ev.RetryClaims? || ev.RetryDeposits?)
    ensures var m := Step(n, ev, e); Inv(m, Chronicle(h, n, ev, e, m))
  {
    hide Inv; hide RetryFailedClaimBuilds; hide RetryFailedDepositBuilds; hide AdoptsClaim; hide AdoptsDeposit;
    hide Chronicle; hide Judge;
    var m := Step(n, ev, e);
    RetriesChronicle(n, h, ev, e, m);
    match ev {
      case RetryClaims(onChain) =>
        ClaimRetriesKeep(n, h, onChain, e);
        NotDepositRetry(n, ev, e);
        if !AdoptsClaim(n, ev, e) { JudgeInv(m, h); }
      case RetryDeposits(onChain) =>
        DepositRetriesKeep(n, h, onChain, e);
        NotClaimRetry(n, ev, e);
    }
  }

  lemma NotDepositRetry(n: NodeState, ev: Event, e: Env)
    requires ev.RetryClaims?
    ensures !AdoptsDeposit(n, ev, e)
  {
  }

  lemma NotClaimRetry(n: NodeState, ev: Event, e: Env)
    requires ev.RetryDeposits?
    ensures !AdoptsClaim(n, ev, e)
  {
  }

  lemma WatchChronicle(n: NodeState, h: History, ev: Event, e: Env, m: NodeState)
    requires Inv(n, h) && Enabled(n, ev) && (ev.WatchDone? || ev.SweepWatch?)
    ensures Chronicle(h, n, ev, e, m) == Judge(Watched(h, AbsentRun(n, h, ev)), m)
  {
    hide AbsentRun;
    SettledUnsteady(n, h);
    hide Inv;
  }

  lemma CrashChronicle(n: NodeState, h: History, ev: Event, e: Env, m: NodeState)
    requires Inv(n, h) && ev.Crash?
    ensures Chronicle(h, n, ev, e, m) == Reborn(n, h, m)
  {
    SettledUnsteady(n, h);
    hide Inv;
  }

  /** Every event keeps the invariant. */
  lemma NextKeeps(t: Trace, ev: Event, e: Env)
    requires Inv(t.n, t.h) && Enabled(t.n, ev)
    ensures Inv(Next(t, ev, e).n, Next(t, ev, e).h)
  {
    var n, h := t.n, t.h;
    var m := Step(n, ev, e);
    hide Inv; hide Chronicle; hide FinishWork; hide Judge; hide Watched; hide Restart;
    match ev {
      case WorkDone(i, w) =>
        if w.Sent? { SendResultKeeps(n, h, i, w.ok, e); } else { BuildResultKeeps(n, h, i, w, e); }
      case WorkRun(i) => RunKeeps(n, h, i, e);
      case RefundDone(j, r) => RefundDoneKeeps(n, h, j, r, e);
      case RetryClaims(_) => RetriesKeep(n, h, ev, e);
      case RetryDeposits(_) => RetriesKeep(n, h, ev, e);
      case WatchDone(k, p, spent) => WatchDoneKeeps(n, h, k, p, spent, e); WatchChronicle(n, h, ev, e, m);
      case SweepWatch(th) =>
        WatchPostKeeps(n, h, th, e);
        WatchChronicle(n, h, ev, e, m);
        JudgeInv(m, Watched(h, AbsentRun(n, h, ev)));
      case Crash(c) => RestartKeeps(n, h, c, e.now); CrashChronicle(n, h, ev, e, m);
      case _ => CalmKeeps(n, h, ev, e);
    }
  }

  predicate IsPlain(ev: Event) {
    !ev.WorkDone? && !ev.WorkRun? && !ev.RefundDone? && !ev.RetryClaims? && !ev.RetryDeposits?
    && !ev.WatchDone? && !ev.SweepWatch? && !ev.Crash?
  }

  lemma PlainIsCalm(n: NodeState, ev: Event, e: Env)
    requires IsPlain(ev)
    ensures IsCalm(n, ev, e)
  {
  }

  lemma CalmKeeps(n: NodeState, h: History, ev: Event, e: Env)
    requires Inv(n, h) && Enabled(n, ev) && IsPlain(ev)
    ensures Inv(Step(n, ev, e), Chronicle(h, n, ev, e, Step(n, ev, e)))
  {
    hide Inv; hide Chronicle; hide Judge; hide IsCalm; hide Step;
    var m := Step(n, ev, e);
    PlainIsCalm(n, ev, e);
    CalmChronicle(n, h, ev, e, m);
    if IsDecision(ev) {
      DecisionKeeps(n, h, ev, e);
    } else if ev.PacketIn? || ev.ClearStuck? || ev.SweepPrune? || ev.OwnDone? {
      SessionEventKeeps(n, h, ev, e);
    } else {
      SweepKeeps(n, h, ev, e);
      JudgeInv(m, h);
    }
  }

  lemma SessionEventKeeps(n: NodeState, h: History, ev: Event, e: Env)
    requires Inv(n, h) && Enabled(n, ev)
    requires ev.PacketIn? || ev.ClearStuck? || ev.SweepPrune? || ev.OwnDone?
    ensures Inv(Step(n, ev, e), Judge(h, Step(n, ev, e)))
  {
    hide Inv; hide Judge; hide ProcessSwap; hide ApplyOwnWatch; hide ClearStuckAwait; hide PruneSessions;
    var m := Step(n, ev, e);
    match ev {
      case PacketIn(p) => PacketKeeps(n, h, p, e);
      case ClearStuck => StuckKeeps(n, h, e.now); JudgeInv(m, h);
      case SweepPrune => PruneKeeps(n, h); JudgeInv(m, h);
      case OwnDone(s, d, r) => OwnWatchKeeps(n, h, s, d, r, e); JudgeInv(m, h);
    }
  }

  lemma InitialInv(t: Trace)
    requires Initial(t)
    ensures Inv(t.n, t.h)
  {
  }

  /** Every state of every run satisfies the invariant. */
  lemma {:induction false} RunInv(ts: seq<Trace>, ms: seq<Move>, i: nat)
    requires IsRun(ts, ms) && i < |ts|
    ensures Inv(ts[i].n, ts[i].h)
  {
    hide Inv; hide Next; hide Initial;
    if i == 0 {
      InitialInv(ts[0]);
    } else {
      RunInv(ts, ms, i - 1);
      assert ts[i - 1 + 1] == Next(ts[i - 1], ms[i - 1].ev, ms[i - 1].e);
      NextKeeps(ts[i - 1], ms[i - 1].ev, ms[i - 1].e);
    }
  }
}
