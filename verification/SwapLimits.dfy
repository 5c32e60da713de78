/** Where the guarantees end: concrete runs in which a condition of a theorem fails and its
    conclusion with it. */
module SwapLimits {
  import opened Wrappers
  import opened SwapTypes
  import opened SwapSpec
  import opened SwapRun
  import opened SwapInvariant
  import opened SwapSafety
  import opened SwapTheorems
  import opened SwapDescent
  import opened SwapDebt
  import opened SwapRecovery

  /** Some run ends in t. */
  ghost predicate Reachable(t: Trace) {
    exists ts: seq<Trace>, ms: seq<Move> :: IsRun(ts, ms) && ts[|ms|] == t
  }

  lemma StartReachable(t: Trace)
    requires Initial(t)
    ensures Reachable(t)
  {
    var ts, ms: seq<Move> := [t], [];
    assert IsRun(ts, ms) && ts[|ms|] == t;
  }

  lemma NextReachable(t: Trace, ev: Event, e: Env) returns (u: Trace)
    requires Reachable(t) && Possible(t, ev, e)
    ensures u == Next(t, ev, e) && Reachable(u)
  {
    hide Initial; hide Next; hide Enabled; hide Honest;
    u := Next(t, ev, e);
    var ts: seq<Trace>, ms: seq<Move> :| IsRun(ts, ms) && ts[|ms|] == t;
    var us, vs := ts + [u], ms + [Move(ev, e)];
    assert forall i | 0 <= i < |ts| :: us[i] == ts[i];
    assert forall i | 0 <= i < |ms| :: vs[i] == ms[i];
    assert IsRun(us, vs);
    assert us[|vs|] == u;
  }

  lemma CrashReachable(t: Trace, onChain: bool, e: Env) returns (u: Trace)
    requires Reachable(t) && Inv(t.n, t.h) && Honest(t.debt, t.n, Crash(onChain), e)
    ensures Reachable(u) && u.n == Restart(t.n, onChain, e.now) && u.h == Reborn(t.n, t.h, u.n)
    ensures u.debt == Account(t.debt, t.n, Crash(onChain), e)
  {
    hide Reachable; hide Inv; hide Chronicle; hide Restart; hide Account; hide Honest; hide Reborn;
    u := NextReachable(t, Crash(onChain), e);
    CrashChronicle(t.n, t.h, Crash(onChain), e, u.n);
  }

  /** An event on which the network takes nothing and no debt is settled or begun. */
  predicate Unnoticed(t: Trace, ev: Event, e: Env)
    requires Enabled(t.n, ev)
  {
    Taken(t.n, ev, e).None? && !ConfirmsRefund(t.n, ev) && !Settles(t.n, t.debt, ev, e) && Incurred(t.n, t.debt, ev, e).None?
  }

  lemma UnnoticedDebt(t: Trace, ev: Event, e: Env)
    requires Enabled(t.n, ev) && Unnoticed(t, ev, e)
    ensures Honest(t.debt, t.n, ev, e)
    ensures var u := Account(t.debt, t.n, ev, e);
            u == t.debt.(lapsed := t.debt.owed.Some? && (t.debt.lapsed || Loses(t.n, t.debt.owed.value, ev, e)))
  {
    hide Loses; hide Taken; hide Incurred; hide Settles;
  }

  /** Events that are neither an answer of a worker or a sweep's finding nor a restart. */
  predicate IsQuiet(ev: Event) {
    !ev.WorkRun? && !ev.WorkDone? && !ev.RefundDone? && !ev.RetryDeposits? && !ev.RetryClaims? && !ev.Crash?
  }

  lemma QuietUnnoticed(t: Trace, ev: Event, e: Env)
    requires Enabled(t.n, ev) && IsQuiet(ev)
    ensures Unnoticed(t, ev, e) && !ConfirmsClaim(t.n, ev, e) && !ConfirmsRefund(t.n, ev)
  {
    hide PreCreated; hide PreConfirmed;
  }

  /** A quiet event hands nothing out and settles nothing. */
  lemma StepReachable(t: Trace, ev: Event, e: Env) returns (u: Trace)
    requires Reachable(t) && Enabled(t.n, ev) && IsQuiet(ev)
    ensures Reachable(u) && u.n == Step(t.n, ev, e)
    ensures u.h.maker == t.h.maker && u.h.handed == t.h.handed && u.h.settled == t.h.settled
    ensures u.debt == t.debt.(lapsed := t.debt.owed.Some? && (t.debt.lapsed || Loses(t.n, t.debt.owed.value, ev, e)))
  {
    QuietUnnoticed(t, ev, e);
    hide Reachable; hide Step; hide ConfirmsDeposit; hide ConfirmsClaim; hide IsSend; hide Loses; hide Account; hide Honest;
    hide Unnoticed;
    UnnoticedDebt(t, ev, e);
    u := NextReachable(t, ev, e);
  }

  /** Every answer of the environment is the good one. */
  function Fine(now: nat): Env {
    Env(now, true, true, true, true, true, true)
  }

  function Fresh(maker: bool, st: Status): Trace {
    var s := if maker then NewMakerSession(true, 1) else NewTakerSession(1);
    Trace(NodeState(Some(s), Some(Order(true, !maker, st, 1, false, None, Empty, false)), None, [],
                    RefundQueue([], false, 0, 0), WatchQueue([], false, false), Book(None, None, None, false, false)),
          History(maker, {}, None, false, false, false, true, 0, 0, 0, false, false),
          Debt(None, None, None, false))
  }

  lemma FreshReachable(maker: bool, st: Status)
    requires !IsOrderTerminal(st)
    ensures Reachable(Fresh(maker, st))
    ensures var n := Fresh(maker, st).n; Snapshot(n) == Some(Record(n.live.value, n.sess, false))
  {
    hide Reachable;
    StartReachable(Fresh(maker, st));
  }

  /** The deposit request of the handshake reaches an idle session. */
  lemma Ask(t: Trace, e: Env) returns (u: Trace)
    requires Reachable(t) && e == Fine(e.now)
    requires t.n.work == [] && t.n.sess.Some? && !t.n.sess.value.await
    requires var s := t.n.sess.value; PreCreated(s) && (!s.isMaker ==> !s.peer.pub)
    ensures Reachable(u) && u.h == t.h.(steady := u.h.steady)
    ensures u.debt == t.debt.(lapsed := t.debt.owed.Some? && (t.debt.lapsed || t.n.sess.value.isMaker))
    ensures u.n == t.n.(sess := u.n.sess, work := [DepositBuild]) && u.n.sess.Some?
    ensures var s, r := t.n.sess.value, u.n.sess.value;
            r == s.(await := true, peer := r.peer, pace := r.pace)
  {
    hide Reachable;
    var ev := PacketIn(if t.n.sess.value.isMaker then CreateAPkt(true) else CreateBPkt(true, true));
    UnnoticedDebt(t, ev, e);
    u := NextReachable(t, ev, e);
  }

  /** The build's result is made durable and the bytes are handed out. */
  lemma BuildAndSend(t: Trace, d: Deposit, e: Env) returns (u: Trace)
    requires Reachable(t) && e == Fine(e.now) && WellBuilt(d)
    requires t.n.work == [DepositBuild] && t.n.sess.Some? && t.n.sess.value.await
    ensures Reachable(u) && u.h == t.h.(intent := Some(d), handed := t.h.handed + {d}, steady := u.h.steady)
    ensures u.debt == t.debt.(lapsed := u.debt.lapsed) && (u.debt.lapsed ==> t.debt.owed.Some?)
    ensures t.debt.owed.Some? && t.debt.lapsed ==> u.debt.lapsed
    ensures u.n == t.n.(sess := u.n.sess, live := u.n.live, work := [DepositSend(d)], book := u.n.book) && u.n.sess.Some?
    ensures var s, r := t.n.sess.value, u.n.sess.value;
            r == s.(deposit := d, peer := r.peer, pace := r.pace) && r.pace.depositRetries == 0
    ensures u.n.live == (if t.n.live.None? then None
                         else Some(t.n.live.value.(binTxId := d.txid, depositSent := false, refundTx := Some(RefundOf(d)))))
    ensures u.n.book == Book(Snapshot(u.n.(work := [])), None, t.n.book.writing,
                             t.n.book.overlap || t.n.book.writing.Some?, t.n.book.writeFailed)
  {
    hide Reachable; hide Snapshot; hide Step; hide Loses;
    var t2 := BuildOne(t, d, e);
    u := HandOut(t2, d, e);
  }

  lemma BuildOne(t: Trace, d: Deposit, e: Env) returns (u: Trace)
    requires Reachable(t) && e == Fine(e.now) && WellBuilt(d)
    requires t.n.work == [DepositBuild] && t.n.sess.Some? && t.n.sess.value.await
    ensures Reachable(u) && u.h == t.h.(intent := Some(d), steady := u.h.steady)
    ensures u.debt == t.debt.(lapsed := u.debt.lapsed) && (u.debt.lapsed ==> t.debt.owed.Some?)
    ensures t.debt.owed.Some? && t.debt.lapsed ==> u.debt.lapsed
    ensures u.n == t.n.(sess := u.n.sess, live := u.n.live, work := [DepositSend(d)], book := u.n.book) && u.n.sess.Some?
    ensures var s, r := t.n.sess.value, u.n.sess.value;
            r == s.(deposit := d, peer := r.peer, pace := r.pace) && r.pace.depositRetries == 0
    ensures u.n.live == (if t.n.live.None? then None
                         else Some(t.n.live.value.(binTxId := d.txid, depositSent := false, refundTx := Some(RefundOf(d)))))
    ensures u.n.book == Book(Snapshot(u.n.(work := [])), None, t.n.book.writing,
                             t.n.book.overlap || t.n.book.writing.Some?, t.n.book.writeFailed)
  {
    hide Reachable; hide Loses; hide Honest; hide Account;
    UnnoticedDebt(t, WorkDone(0, DepositBuilt(d)), e);
    u := NextReachable(t, WorkDone(0, DepositBuilt(d)), e);
  }

  lemma RunUnnoticed(t: Trace, e: Env)
    requires Enabled(t.n, WorkRun(0))
    ensures Unnoticed(t, WorkRun(0), e) && !ConfirmsClaim(t.n, WorkRun(0), e) && !ConfirmsRefund(t.n, WorkRun(0))
    ensures forall d :: !Loses(t.n, d, WorkRun(0), e)
  {
    hide Shelves; hide PreCreated; hide PreConfirmed;
  }

  lemma HandOut(t: Trace, d: Deposit, e: Env) returns (u: Trace)
    requires Reachable(t) && t.n.work == [DepositSend(d)] && t.n.sess.Some? && t.h.intent == Some(d)
    ensures Reachable(u) && u.h == t.h.(handed := t.h.handed + {d}, steady := u.h.steady) && u.n == t.n
    ensures u.debt == t.debt.(lapsed := t.debt.owed.Some? && t.debt.lapsed)
  {
    RunUnnoticed(t, e);
    hide Reachable; hide Honest; hide Account; hide Unnoticed; hide ConfirmsDeposit; hide ConfirmsClaim; hide IsSend; hide Loses;
    UnnoticedDebt(t, WorkRun(0), e);
    u := NextReachable(t, WorkRun(0), e);
  }

  /** A maker's order is cancelled while its deposit is with a worker to be built. */
  predicate CancelledBuilding(t: Trace) {
    && t.n.work == [DepositBuild] && t.n.sess.Some? && t.n.sess.value.await && t.n.sess.value.isMaker
    && t.n.sess.value.state < CS_CREATED_A && !t.n.sess.value.refundDone
    && t.n.live.Some? && t.n.live.value.mine && t.n.live.value.status == Canceled && t.n.hist.None?
    && t.n.book.writing.None? && Clean(t.n.book)
  }

  lemma CancelWhileBuilding() returns (t: Trace)
    ensures Reachable(t) && CancelledBuilding(t)
  {
    hide Reachable; hide Loses;
    FreshReachable(true, Open);
    var t1 := Ask(Fresh(true, Open), Fine(2));
    t := StepReachable(t1, CancelRpc, Fine(3));
  }

  /** Such an order's record, once the deposit is recorded, is filed away by a restart. */
  lemma CancelledIsForgotten(n: NodeState, disk: Option<Record>, now: nat)
    requires disk.Some? && disk == n.book.disk && disk.value.order.status == Canceled && !disk.value.order.depositSent
    requires disk.value.sess.Some? ==> disk.value.sess.value.state < CS_CREATED_A
    ensures Forgotten(Restart(n, true, now))
  {
    hide RestoreSession;
  }

  /** The operator cancels while the deposit is being built: the broadcast still goes out, and
      a crash then leaves the deposit to no sweep, although its order was still in the live book. */
  lemma CancelMidBuildForgets(d: Deposit) returns (t: Trace)
    requires WellBuilt(d)
    ensures Reachable(t) && d in t.h.handed && t.n.live.Some? && !t.n.book.overlap && !t.n.book.writeFailed
    ensures Forgotten(Restart(t.n, true, 9))
  {
    hide Reachable; hide Restart; hide Forgotten;
    var t1 := CancelWhileBuilding();
    t := BuildAndSend(t1, d, Fine(4));
    CancelledIsForgotten(t.n, t.n.book.disk, 9);
  }

  /** The bytes of d are out, their intent is on disk and nothing else has happened. */
  predicate JustSent(t: Trace, d: Deposit, maker: bool) {
    && t.h.maker == maker && d in t.h.handed && !t.h.settled
    && t.n.sess.Some? && t.n.sess.value.isMaker == maker && t.n.sess.value.deposit == d && !t.n.sess.value.refundDone
    && t.n.sess.value.state < CS_HOLD_APPLIED && !t.n.sess.value.secretHunt
    && t.n.live.Some? && t.n.live.value.mine && !IsOrderTerminal(t.n.live.value.status)
    && !t.n.live.value.depositSent && t.n.live.value.refundTx == Some(RefundOf(d)) && t.n.live.value.binTxId == d.txid
    && t.n.hist.None? && t.n.refund == RefundQueue([], false, 0, 0)
    && t.n.sess.value.await && t.n.book == Book(Snapshot(t.n), None, None, false, false)
    && t.debt == Debt(None, None, None, false)
  }

  lemma SendFirst(d: Deposit, maker: bool) returns (t: Trace)
    requires WellBuilt(d)
    ensures Reachable(t) && JustSent(t, d, maker) && t.n.live.value.status == Accepting
    ensures t.h.fails == 0 && t.n.work == [DepositSend(d)] && t.n.sess.value.pace.depositRetries == 0
    ensures t.n.sess.value.claim == NO_CLAIM
  {
    hide Reachable;
    var t0 := Fresh(maker, Accepting);
    FreshReachable(maker, Accepting);
    var t1 := Ask(t0, Fine(2));
    t := BuildAndSend(t1, d, Fine(3));
  }

  /** The process dies there and the restarted one finds the deposit on the chain. */
  predicate Reconciled(t: Trace, d: Deposit, maker: bool) {
    && t.h.maker == maker && d in t.h.handed && !t.h.settled
    && t.n.sess.Some? && t.n.sess.value.isMaker == maker && t.n.sess.value.deposit == d && !t.n.sess.value.refundDone
    && t.n.sess.value.state < CS_HOLD_APPLIED && !t.n.sess.value.secretHunt && !t.n.sess.value.await
    && t.n.live.Some? && t.n.live.value.mine && !IsOrderTerminal(t.n.live.value.status)
    && t.n.live.value.depositSent && t.n.live.value.refundTx == Some(RefundOf(d)) && t.n.live.value.binTxId == d.txid
    && t.n.hist.None? && t.n.refund == RefundQueue([], false, 0, 0) && t.n.work == []
    && t.n.book.writing.None? && t.n.book.queued.None? && Clean(t.n.book)
    && t.debt == Debt(Some(d), None, Some(d), false)
  }

  lemma CrashHere(t: Trace, d: Deposit, maker: bool) returns (u: Trace)
    requires Reachable(t) && JustSent(t, d, maker) && WellBuilt(d)
    ensures Reachable(u) && Reconciled(u, d, maker) && u.n.live.value.status == t.n.live.value.status
  {
    ReachableInv(t);
    SentRestart(t, d, maker, 4);
    SentDebt(t, d, maker, Fine(4));
    hide Reachable; hide Steady; hide Inv; hide Restart; hide Account; hide Honest; hide Strays; hide Undercounts;
    u := CrashReachable(t, true, Fine(4));
  }

  lemma SentRestart(t: Trace, d: Deposit, maker: bool, now: nat)
    requires JustSent(t, d, maker) && WellBuilt(d)
    ensures var m := Restart(t.n, true, now); Reconciled(Trace(m, t.h, Debt(Some(d), None, Some(d), false)), d, maker)
    ensures Restart(t.n, true, now).live.value.status == t.n.live.value.status
  {
    hide Steady;
  }

  lemma SentDebt(t: Trace, d: Deposit, maker: bool, e: Env)
    requires JustSent(t, d, maker) && WellBuilt(d)
    ensures Honest(t.debt, t.n, Crash(true), e)
    ensures Account(t.debt, t.n, Crash(true), e) == Debt(Some(d), None, Some(d), false)
  {
    hide Steady;
  }

  /** A cancel packet after a crash, before the hub confirmed the deposit: the session is pruned
      with its deposit on the chain, and nothing in this process refunds it. */
  lemma CancelAfterCrashStrands(d: Deposit) returns (t: Trace)
    requires WellBuilt(d)
    ensures Reachable(t) && d in t.h.handed && !t.h.settled && Clean(t.n.book)
    ensures t.debt == Debt(Some(d), None, Some(d), true)
    ensures Forgotten(t.n) && t.n.refund.tasks == []
    ensures t.n.hist.value.depositSent && t.n.hist.value.refundTx == Some(RefundOf(d))
  {
    hide Reachable; hide Steady; hide JustSent;
    var t1 := SendFirst(d, false);
    var t2 := CrashHere(t1, d, false);
    var t3 := StepReachable(t2, CancelPkt, Fine(5));
    t := StepReachable(t3, SweepPrune, Fine(6));
  }

  /** A redelivered CreateA after a crash has a maker rebuild over the deposit the chain shows:
      the deposit is out, and no session, order, task or record names its refund any more. */
  lemma RebuildOverwrites(d: Deposit, d': Deposit) returns (t: Trace)
    requires WellBuilt(d) && WellBuilt(d') && RefundOf(d) != RefundOf(d')
    ensures Reachable(t) && t.h.maker && d in t.h.handed && !t.h.settled && Clean(t.n.book)
    ensures t.debt == Debt(Some(d), None, Some(d), true)
    ensures Gone(t.n, RefundOf(d))
  {
    hide Reachable; hide Steady; hide JustSent;
    var t1 := SendFirst(d, true);
    var t2 := CrashHere(t1, d, true);
    var t3 := Ask(t2, Fine(6));
    t := BuildAndSend(t3, d', Fine(7));
    OnlyTheOther(t.n, d, d');
  }

  /** A session, order and disk that name d' alone. */
  lemma OnlyTheOther(n: NodeState, d: Deposit, d': Deposit)
    requires RefundOf(d) != RefundOf(d')
    requires n.sess.Some? && n.sess.value.deposit == d' && n.live.Some? && n.live.value.refundTx == Some(RefundOf(d'))
    requires n.hist.None? && n.refund.tasks == [] && n.book.queued.None? && n.book.writing.None?
    requires n.book.disk == Snapshot(n.(work := []))
    ensures Gone(n, RefundOf(d))
  {
    hide SessionIsTerminal;
  }

  /** A restart that brings back a taker's session without the deposit it had handed out lets it
      build and hand out another, and nothing names the first one's refund any more: the first,
      which the network may have taken, is the one that keeps no refund. */
  lemma StrayedSendsAgain(t: Trace, d: Deposit, d': Deposit) returns (u: Trace)
    requires Reachable(t) && !t.h.maker && d in t.h.handed && t.h.intent.Some? && t.h.intent.value != NO_DEPOSIT
    requires Returns(t.n.book.disk) && WellBuilt(d')
    requires var s := t.n.book.disk.value.sess.value;
             s.deposit == NO_DEPOSIT && PreCreated(s) && (s.peer.pub ==> s.peer.deposit)
    ensures Reachable(u) && !u.h.maker && d in u.h.handed && d' in u.h.handed && u.h.astray
    ensures WellBuilt(d) && RefundOf(d) != RefundOf(d') ==> Gone(u.n, RefundOf(d))
  {
    hide Reachable; hide Inv;
    var t1 := CrashStrayed(t);
    hide PreCreated; hide Gone;
    var late := t1.n.sess.value.pace.depositRetryAt + t1.n.sess.value.pace.lastProgress + RETRY_BASE;
    var t2 := AskTaker(t1, Fine(late));
    u := BuildAndSend(t2, d', Fine(late));
    if RefundOf(d) != RefundOf(d') { OnlyTheOther(u.n, d, d'); }
  }

  lemma AskTaker(t: Trace, e: Env) returns (u: Trace)
    requires Reachable(t) && e == Fine(e.now)
    requires t.n.work == [] && t.n.sess.Some? && !t.n.sess.value.await
    requires var s := t.n.sess.value;
             && !s.isMaker && PreCreated(s) && s.deposit == NO_DEPOSIT && (s.peer.pub ==> s.peer.deposit)
             && s.pace.depositRetryAt <= e.now && s.pace.lastProgress + RETRY_BASE <= e.now
    ensures Reachable(u) && u.h == t.h.(steady := u.h.steady)
    ensures u.n == t.n.(sess := u.n.sess, work := [DepositBuild]) && u.n.sess.Some?
    ensures var s, r := t.n.sess.value, u.n.sess.value;
            r == s.(await := true, peer := r.peer, pace := r.pace)
  {
    hide Reachable;
    if t.n.sess.value.peer.pub {
      u := AskAgain(t, e);
    } else {
      u := Ask(t, e);
    }
  }

  lemma CrashStrayed(t: Trace) returns (u: Trace)
    requires Reachable(t) && !t.h.maker && t.h.intent.Some? && t.h.intent.value != NO_DEPOSIT && Returns(t.n.book.disk)
    requires var s := t.n.book.disk.value.sess.value;
             s.deposit == NO_DEPOSIT && PreCreated(s) && (s.peer.pub ==> s.peer.deposit)
    ensures Reachable(u) && !u.h.maker && u.h.handed == t.h.handed && u.h.astray
    ensures u.n.work == [] && u.n.sess.Some? && !u.n.sess.value.await && u.n.sess.value.deposit == NO_DEPOSIT
    ensures !u.n.sess.value.isMaker && PreCreated(u.n.sess.value) && (u.n.sess.value.peer.pub ==> u.n.sess.value.peer.deposit)
    ensures u.n.live.Some? && u.n.hist.None? && u.n.refund.tasks == [] && u.n.book.queued.None? && u.n.book.writing.None?
  {
    ReachableInv(t);
    NotFinished(t.n, t.h);
    RecordRole(t.n, t.h);
    StrayedRestart(t.n, 1);
    StrayUnnoticed(t, Fine(1));
    hide Reachable; hide Inv; hide Steady; hide FiledAway; hide FinishedRefundPending; hide Restart; hide Honest; hide Account;
    hide Unnoticed; hide Chronicle; hide PreCreated; hide Undercounts;
    UnnoticedDebt(t, Crash(false), Fine(1));
    u := CrashReachable(t, false, Fine(1));
  }

  lemma StrayUnnoticed(t: Trace, e: Env)
    requires Returns(t.n.book.disk) && t.n.book.disk.value.sess.value.deposit == NO_DEPOSIT
    ensures Unnoticed(t, Crash(false), e)
  {
    hide FiledAway;
  }

  lemma StrayedRestart(n: NodeState, now: nat)
    requires Returns(n.book.disk) && !FinishedRefundPending(n.book.disk.value)
    ensures var m, s := Restart(n, false, now), n.book.disk.value.sess.value;
            && m.work == [] && m.sess.Some? && !m.sess.value.await && m.sess.value.deposit == s.deposit
            && m.sess.value.isMaker == s.isMaker && m.sess.value.state == s.state && m.sess.value.peer == s.peer
            && m.live.Some? && m.hist.None? && m.refund.tasks == [] && m.book.queued.None? && m.book.writing.None?
  {
    hide FiledAway; hide FinishedRefundPending;
  }

  lemma ReachableInv(t: Trace)
    requires Reachable(t)
    ensures Inv(t.n, t.h)
  {
    hide Inv; hide Next; hide Initial; hide Possible;
    var ts: seq<Trace>, ms: seq<Move> :| IsRun(ts, ms) && ts[|ms|] == t;
    RunInv(ts, ms, |ms|);
  }

  lemma RecordRole(n: NodeState, h: History)
    requires Inv(n, h) && Returns(n.book.disk)
    ensures n.book.disk.value.sess.value.isMaker == h.maker
  {
    hide FiledAway; hide HistoryFits; hide LiveSessionFits; hide OrderFits; hide Counts;
  }

  /** The retry sweep rebuilds for a taker whose staged build was lost. */
  lemma AskAgain(t: Trace, e: Env) returns (u: Trace)
    requires Reachable(t) && e == Fine(e.now)
    requires t.n.work == [] && t.n.sess.Some? && !t.n.sess.value.await
    requires var s := t.n.sess.value;
             && !s.isMaker && PreCreated(s) && s.deposit == NO_DEPOSIT && s.peer.deposit
             && s.pace.depositRetryAt <= e.now && s.pace.lastProgress + RETRY_BASE <= e.now
    ensures Reachable(u) && u.h == t.h.(steady := u.h.steady)
    ensures u.n == t.n.(sess := u.n.sess, work := [DepositBuild]) && u.n.sess.Some?
    ensures var s, r := t.n.sess.value, u.n.sess.value;
            r == s.(await := true, peer := r.peer, pace := r.pace)
  {
    hide Reachable;
    UnnoticedDebt(t, RetryDeposits(false), e);
    u := NextReachable(t, RetryDeposits(false), e);
  }

  /** A snapshot popped by the background writer before a durable write and written after it
      makes a restarted taker do so. */
  lemma StaleSnapshotSendsTwice(d: Deposit, d': Deposit) returns (t: Trace)
    requires WellBuilt(d) && WellBuilt(d')
    ensures Reachable(t) && !t.h.maker && d in t.h.handed && d' in t.h.handed && t.h.astray
    ensures RefundOf(d) != RefundOf(d') ==> Gone(t.n, RefundOf(d))
  {
    hide Reachable; hide Steady; hide Gone;
    var t1 := OvertakenBuild(d);
    UnnoticedDebt(t1, Write, Fine(6));
    var t2 := NextReachable(t1, Write, Fine(6));
    t := StrayedSendsAgain(t2, d, d');
  }

  lemma OvertakenBuild(d: Deposit) returns (t: Trace)
    requires WellBuilt(d)
    ensures Reachable(t) && !t.h.maker && d in t.h.handed && t.h.intent == Some(d)
    ensures var n0 := Fresh(false, Accepting).n; t.n.book.writing == Some(Some(Record(n0.live.value, n0.sess, false)))
  {
    hide Reachable; hide Snapshot;
    var t1 := PoppedSnapshot();
    var t2 := Ask(t1, Fine(4));
    t := BuildAndSend(t2, d, Fine(5));
  }

  lemma PoppedSnapshot() returns (t: Trace)
    ensures Reachable(t) && !t.h.maker
    ensures var n0 := Fresh(false, Accepting).n;
            t.n == n0.(book := Book(None, None, Some(Some(Record(n0.live.value, n0.sess, false))), false, false))
  {
    hide Reachable; hide Snapshot;
    FreshReachable(false, Accepting);
    t := QueueAndPop(Fresh(false, Accepting));
  }

  /** The background writer takes a snapshot off the queue and has not written it yet. */
  lemma QueueAndPop(t: Trace) returns (u: Trace)
    requires Reachable(t) && t.n.book.writing.None?
    ensures Reachable(u) && u.h.maker == t.h.maker && u.h.handed == t.h.handed
    ensures u.n == t.n.(book := t.n.book.(queued := None, writing := Some(Snapshot(t.n))))
  {
    hide Reachable; hide Snapshot; hide Loses;
    var t1 := StepReachable(t, QueueSnapshot, Fine(2));
    u := StepReachable(t1, Pop, Fine(3));
  }

  /** A taker's deposit d is with a worker for the (r + 1)st time; the disk still counts one failure. */
  predicate Sending(t: Trace, d: Deposit, r: nat, disk: Option<Record>) {
    && !t.h.maker && Reposting(t.n.sess, d, r) && t.n.sess.value.await
    && t.n.live.Some? && !t.n.live.value.depositSent && !IsOrderTerminal(t.n.live.value.status)
    && t.n.work == [DepositSend(d)]
    && t.n.book.disk == disk && !t.n.book.overlap && t.n.book.writing.None?
  }

  predicate Reposting(sess: Option<Session>, d: Deposit, r: nat) {
    && sess.Some? && !sess.value.isMaker && sess.value.state < CS_CREATED_A && sess.value.deposit == d
    && sess.value.pace.depositRetries == r && !sess.value.refundDone && sess.value.claim == NO_CLAIM
  }

  /** The environment of a failing disk. */
  function NoDisk(now: nat): Env {
    Fine(now).(diskOk := false)
  }

  lemma SendingDisk(t: Trace, d: Deposit, r: nat, disk: Option<Record>)
    requires Sending(t, d, r, disk)
    ensures t.n.book.disk == disk && !t.n.book.overlap && !t.h.maker
  {
  }

  lemma FailedSend(t: Trace, d: Deposit, r: nat, disk: Option<Record>, e: Env) returns (u: Trace)
    requires Reachable(t) && Sending(t, d, r, disk) && WellBuilt(d)
    ensures Reachable(u) && u.h.fails == t.h.fails + 1 && !u.h.maker
    ensures Reposting(u.n.sess, d, r + 1) && !u.n.sess.value.await
    ensures u.n.sess.value.pace.depositRetryAt == e.now + RetryBackoff(r)
    ensures u.n.live == t.n.live && u.n.work == []
    ensures u.n.book.disk == (if e.diskOk then Snapshot(u.n) else disk) && !u.n.book.overlap && u.n.book.writing.None?
  {
    hide Reachable; hide Steady; hide RetryBackoff;
    UnnoticedDebt(t, WorkDone(0, Sent(false)), e);
    u := NextReachable(t, WorkDone(0, Sent(false)), e);
  }

  lemma Repost(t: Trace, d: Deposit, r: nat, disk: Option<Record>, e: Env) returns (u: Trace)
    requires Reachable(t) && !t.h.maker && Reposting(t.n.sess, d, r) && !t.n.sess.value.await && WellBuilt(d)
    requires r < BROADCAST_REPOST_MAX && e.walletOk && e.queueFree
    requires 0 < t.n.sess.value.pace.depositRetryAt <= e.now
    requires t.n.live.Some? && !t.n.live.value.depositSent && !IsOrderTerminal(t.n.live.value.status) && t.n.work == []
    requires t.n.book.disk == disk && !t.n.book.overlap && t.n.book.writing.None?
    ensures Reachable(u) && Sending(u, d, r, disk) && u.h.fails == t.h.fails
  {
    hide Reachable; hide Steady;
    UnnoticedDebt(t, RetryDeposits(false), e);
    u := NextReachable(t, RetryDeposits(false), e);
  }

  /** k more broadcasts fail while the disk takes no write. */
  lemma {:induction false} FailAgain(t: Trace, d: Deposit, r: nat, disk: Option<Record>, k: nat, now: nat)
    returns (u: Trace)
    requires Reachable(t) && Sending(t, d, r, disk) && WellBuilt(d) && r + k < BROADCAST_REPOST_MAX
    ensures Reachable(u) && Sending(u, d, r + k, disk) && u.h.fails == t.h.fails + k
    decreases k
  {
    hide Reachable; hide Sending; hide Reposting;
    if k == 0 {
      u := t;
    } else {
      var t1 := FailedSend(t, d, r, disk, NoDisk(now)) by { SendingHere(t, d, r, disk); }
      var later := now + RetryBackoff(r);
      SendingHere(t, d, r, disk);
      var t2 := Repost(t1, d, r + 1, disk, Fine(later));
      u := FailAgain(t2, d, r + 1, disk, k - 1, later);
    }
  }

  lemma SendingHere(t: Trace, d: Deposit, r: nat, disk: Option<Record>)
    requires Sending(t, d, r, disk)
    ensures t.n.live.Some? && !t.n.live.value.depositSent && !IsOrderTerminal(t.n.live.value.status)
    ensures t.n.sess.Some? && !t.h.maker
  {
  }

  /** More failures than the cap come from a restart that lost count. */
  lemma OverTheCap(t: Trace)
    requires Reachable(t) && !t.h.maker && t.h.fails > BROADCAST_REPOST_MAX
    ensures t.h.miscounted
  {
    hide Initial; hide Next; hide Possible;
    var ts: seq<Trace>, ms: seq<Move> :| IsRun(ts, ms) && ts[|ms|] == t;
    TakerFailuresCapped(ts, ms, |ms|);
  }

  /** Durable writes that fail lose count of the failed broadcasts: a crash starts the count over. */
  lemma LostCountsExceedTheCap(d: Deposit) returns (t: Trace)
    requires WellBuilt(d)
    ensures Reachable(t) && !t.h.maker && !t.n.book.overlap && t.h.fails > BROADCAST_REPOST_MAX && t.h.miscounted
  {
    hide Reachable; hide Sending; hide RetryBackoff; hide Steady;
    var t1, disk := FirstFailure(d);
    var t2 := FailAgain(t1, d, 1, disk, 8, 2000 * SECOND);
    assert t2.n.book.disk == disk && !t2.n.book.overlap && !t2.h.maker by { SendingDisk(t2, d, 9, disk); }
    var t3 := CrashWhileSending(t2, d, disk);
    t := FailAgain(t3, d, 1, disk, 8, 4000 * SECOND);
    SendingDisk(t, d, 9, disk);
    OverTheCap(t);
  }

  predicate CountedOnce(disk: Option<Record>, d: Deposit) {
    && disk.Some? && !disk.value.historical && disk.value.order.mine && disk.value.order.status == Accepting
    && !disk.value.order.depositSent
    && Reposting(disk.value.sess, d, 1) && disk.value.sess.value.pace.depositRetryAt == 64 * SECOND
  }

  lemma FirstFailure(d: Deposit) returns (t: Trace, disk: Option<Record>)
    requires WellBuilt(d)
    ensures Reachable(t) && Sending(t, d, 1, disk) && CountedOnce(disk, d) && t.h.fails == 1
  {
    hide Reachable; hide Steady;
    var t1 := SendFirst(d, false);
    var t2 := FailedSend(t1, d, 0, t1.n.book.disk, Fine(4 * SECOND));
    disk := t2.n.book.disk;
    t := Repost(t2, d, 1, disk, Fine(1000 * SECOND));
  }

  lemma CrashWhileSending(t: Trace, d: Deposit, disk: Option<Record>) returns (u: Trace)
    requires Reachable(t) && t.n.book.disk == disk && CountedOnce(disk, d) && WellBuilt(d)
    requires !t.h.maker && !t.n.book.overlap
    ensures Reachable(u) && Sending(u, d, 1, disk) && u.h.fails == t.h.fails
  {
    hide Reachable; hide Steady;
    UnnoticedDebt(t, Crash(false), Fine(3000 * SECOND));
    var t1 := NextReachable(t, Crash(false), Fine(3000 * SECOND));
    u := Repost(t1, d, 1, disk, Fine(3100 * SECOND));
  }
}
