# A verified model of go-xbridge

go-xbridge is the client side of a cross-chain atomic swap coordinated by a hub. Each side
locks coins in a hash-and-time-locked deposit, the maker claims the taker's deposit and so
reveals a secret, and the taker claims with it; whoever is left waiting refunds itself when
the lock runs out. The model covers what keeps the coins of a side safe.

- **The swap session.** `SwapTypes` and `SwapSpec` say what every packet, worker result,
  sweep, cancel, restart and background write does to one order, its session, its queues and
  the swap file. `SwapRun` makes runs of these events, with a history of what reached the
  wallet and an account of what the network took and owes us; `SwapInvariant`,
  `SwapHandshake` and `SwapSafety` prove the invariant of every run, `SwapDescent` that no
  step invents a deposit or a refund, `SwapDebt` which steps lose hold of a deposit.
  `SwapTheorems` and `SwapRecovery` draw the guarantees from them, `SwapLimits` builds the
  runs in which a guarantee ends. `SwapNode` is the same program as an object changed field
  by field, and `SwapEngine` its event loop and minute tick; every method is proved against
  its step.
- **Inputs.** `OrderStore` and `TakeExclusion` (takes never share a coin), `UtxoSelect`
  (funding a partial order).
- **On-chain artefacts.** `Script` is a small interpreter of Bitcoin Script (BIP 16
  "Specification", BIP 65 "Detailed Specification"), `Htlc` the deposit script and its two
  spends, `SwapTx` deposit, refund and claim transactions, `Transaction` the wire format,
  `SecretScan` the secret's recovery, `Rescan` the paged search for the spender.
- **Codecs and arithmetic.** `BitGroups`, `Checksum`, `Glyphs`, `SegwitAddress`,
  `CashAddress`, `Substitution` and `AddressErrors` (which mistakes the checksums catch),
  `Base58`, `HexText`; `WireBody`, `BodyTypes`, `WireStack` for packets; `LockTimes` for the
  admission gates and the drift check; `Bytes` for numbers and bytes.

The session model follows one order. What other orders do to it (a full task queue, a
snapshot written for their sake) is an answer of the environment, like the wallet, the chain
and the clock; no theorem needs the clock to be monotone. Assumptions:

- a result whose guard was released as stuck is lost, it does not arrive late;
- the chain does not reorganise: a deposit or claim once seen stays;
- the network takes one deposit of a swap and the refund of no other: every build spends the
  coins recorded on the order (`SwapTx.OneDepositIsMined`), and a refund spends its own deposit;
- a durable write happens at once and wholly, or not at all;
- a successful build yields non-empty bytes and a locktime above zero;
- the hash, the signature check and the frame checksum are parameters; nothing is assumed of
  them but their lengths where a theorem says so.

## Findings

The guarantees hold with conditions, and the conditions are needed:

- **Before the deposit is confirmed, three steps lose hold of it.** Only the sent mark of the
  live order protects a session below the created state, which is where a restart leaves a
  deposit it found on the chain. A cancel, the watchdog's own after thirty silent minutes
  included, shelves the order and the session is pruned; an expiry does the same; a repeated
  CreateA, which does not look at the mark, has a maker build again over the same coins.
  `SwapDebt.LossIsExact` says exactly when. What the cancel shelved comes back with the next
  restart (`SwapRecovery.ShelvedComesBack`, `SwapLimits.CancelAfterCrashStrands`); what expired
  does not; and the refund that a rebuild overwrote is gone for good
  (`SwapLimits.RebuildOverwrites`, `SwapRecovery.GoneForGood`).
- **A cancel while the deposit is being built** turns the order terminal; the bytes still go
  out, and a restart files the swap in history, where no sweep looks
  (`SwapLimits.CancelMidBuildForgets`). `SwapRecovery.RecoveryIsExact` and
  `SwapRecovery.IntentRecovers` say exactly when recovery works.
- **The background writer.** It takes its snapshot before it takes the write lock, so an old
  snapshot can replace a newer durable one. A restarted taker then builds a second deposit over
  the same coins. At most one of the two can be mined; if it is the first, its refund has been
  overwritten and nothing names it (`SwapLimits.StaleSnapshotSendsTwice`). The exact condition
  on the record is `SwapTheorems.RestartCarriesIntent`.
- **The repost cap** counts on disk: when durable writes fail, a crash starts the count over
  (`SwapLimits.LostCountsExceedTheCap`).
- **A released order that comes back.** A late deposit confirmation sets a cancelled order to
  created again; its coins may be reserved for another order by then
  (`TakeExclusion.RevivalBreaksExclusion`). It does no harm exactly if none of them is locked
  (`TakeExclusion.RevivalIsExact`).
- **An unreadable mempool loses the spender.** The own-deposit watch saves the cursor of the
  confirmed pages before it gives up the round on a mempool error. A spender found on these
  pages is dropped, and its height is not scanned again (`Rescan.DeliveryIsExact`,
  `Rescan.UnreadableMempoolLoses`).
- **The address decoders panic** on an address that passes every check and carries no data:
  six symbols after the separator for segwit, the vector A12UEL5L of BIP 173 "Test vectors"
  among them, eight or fewer for CashAddr (`SegwitAddress.PanicsExactly`,
  `SegwitAddress.VectorPanics`, `CashAddress.PanicsExactly`).
- **Two changed symbols can pass** the segwit checksum, since the decoder takes either of two
  constants that differ in their last two symbols only; one changed symbol never does
  (`Substitution.TwoSymbolsSlip`, `AddressErrors.SegwitTypoIsRefused`).
- **The txid of a deposit** is the hash of the signed bytes as they are. With witnesses in them
  the refund would name an outpoint the network does not know
  (`SwapTx.RefundRecoversDeposit`). A taker's funding is filtered to P2PKH coins
  (api/node.go:1764-1769); a maker's is not (api/node.go:1352-1360), and rests on the wallet
  signing messages for no other address.
- **Codecs.** A classic transaction without inputs and with one output reads as segwit
  (`Transaction.RoundTrip`); the segwit encoder accepts prefixes its decoder refuses
  (`SegwitAddress.DecodeEncode`); orders and pending orders do not re-encode to the bytes they
  came from when a flag is above 1 or bytes were ignored (`BodyTypes.AcceptedIsLegal`).
- **Rescan.** On five-second blocks and faster the page budget does not keep ahead of the
  chain (`Rescan.BudgetOutpacesChain`).
- **The order of the tick.** The comment at api/engine.go:115-123 says a due retry is healed
  before the watchdog looks; this is so exactly when the retry reposts
  (`SwapTheorems.RepostStandsWatchdogDown`). The model follows the code.

## Model

| member | source | states |
|---|---|---|
| `SwapTheorems.NoStrandedDeposit` | api/swap.go:1662-1696 | in every reachable state of every run a deposit that counts as sent, by its own broadcast, by adoption or over a restart, and was neither claimed nor refunded since is held by a live session that is not finished, not refunded and not terminal, so no prune drops it, unless one of the losing steps that SwapDebt.LossIsExact names came in between |
| `SwapTheorems.OwedRefundIsSwept` | api/swap.go:1412-1450 | for every such deposit, restored and adopted ones included, each refund sweep finds a hunt, a running backoff, a refund task already out, or a full queue, or posts exactly that deposit's pre-signed refund with its own locktime |
| `SwapTheorems.HeldOverRuns` | api/engine.go:271-334 | a held deposit stays held over every stretch of a run without a losing step, restarts included |
| `SwapDebt.LossIsExact` | api/swap.go:1662-1696 | a step that claims or refunds nothing keeps hold of a sent deposit if and only if it is not one of the losing steps, each recognised before the step: before the deposit's confirmation a verified cancel that the order status lets through (ours, the watchdog's or the counterparty's), an expiry of an order marked created or open, a repeated CreateA to an idle maker; and any restart that SwapDebt.RestartSecures excludes |
| `SwapDebt.RestartSecures` | api/persist.go:545-641 | a restart holds a deposit if and only if the record on disk is not filed away, carries it unrefunded, and the record or the chain says it is out |
| `SwapDebt.StepAccounts` | api/engine.go:271-334 | every event keeps the accounts: what is owed was taken by the network, was not refunded, and is held unless a losing step came |
| `SwapDebt.RunAccounts` | api/engine.go:271-334 | the accounts are right in every state of every run |
| `SwapRecovery.RecoveryIsExact` | api/persist.go:545-641 | what a restart does with any record: filed away it is forgotten; with a session, the deposit comes back and its first sweep posts exactly its pre-signed refund if the record or the chain says it is out and nothing otherwise, or it hunts; with the order alone, the stored refund is posted exactly if the order counts as sent and undecided |
| `SwapRecovery.IntentRecovers` | api/persist.go:545-641 | a durable intent found on the chain is recovered by a restart if and only if the order was not cancelled before its deposit counted as sent; otherwise the swap is filed where no sweep looks |
| `SwapRecovery.CrashRecovery` | api/node.go:341-364 | a crash at any point after the intent was durable, while the order stayed ours, live and undecided, restores a session that hunts or whose first sweep posts exactly the pre-signed refund |
| `SwapRecovery.RecoveredIsOwed` | api/node.go:341-364 | the deposit so recovered is owed and held from the restart on, so that the theorems about owed deposits speak of it |
| `SwapRecovery.HistoryRecovers` | api/persist.go:545-641 | an order saved from history has its stored refund posted after a restart if and only if its deposit was sent and it was cancelled, or finished without redemption; an expired or dropped one is forgotten |
| `SwapRecovery.ShelvedComesBack` | api/node.go:2106-2235 | a deposit lost to a cancel comes back with the next restart, whose sweep posts its own refund; one lost to an expiry does not |
| `SwapRecovery.GoneForGood` | api/swap.go:1412-1450 | a refund that no session, order, task, snapshot or record names is never posted again, in this process or a later one, unless a build makes the same refund anew |
| `SwapRecovery.RebuildForgets` | api/swap.go:643-668 | a deposit rebuilt over another and made durable leaves no trace of the other's refund if and only if no task, history entry or snapshot being written names it |
| `SwapDescent.StepDescends` | api/engine.go:271-334 | after any event of a process every deposit, refund and mark in session, orders, tasks, snapshots and disk is one that was there before, but for what the event itself brought in |
| `SwapDescent.GoneStaysGone` | api/engine.go:271-334 | a refund that is nowhere stays nowhere over any event, a crash included, that does not build it |
| `SwapTheorems.RunPendingSound` | api/swap.go:1442-1448 | in every reachable state the posting mark is backed by a refund task that is really out |
| `SwapTheorems.OneTaskInFlight` | api/swap_retry.go:28-49 | in every reachable state exactly one build or broadcast is out while the session's guard is held, and none otherwise |
| `SwapTheorems.StateNeverGoesBack` | api/swap.go:31-44 | between two crashes the session's state never decreases, and a pruned session does not come back |
| `SwapTheorems.StepAdvances` | api/node.go:1086-1091 | no single event of a reachable state takes the session back |
| `SwapTheorems.ClaimedNeverRefunds` | api/swap.go:1412-1435 | once a claim broadcast was applied, no packet, cancel, sweep or result of the same process posts a refund; only the operator's forced refund can |
| `SwapTheorems.ClaimedRestoresAsHistory` | api/persist.go:550-557 | a snapshot taken after the claim restores to a node that owes no refund, and to a history entry while the order reads finished |
| `SwapTheorems.TakerSendsOneDeposit` | api/swap.go:768-823 | all deposit bytes a taker hands to its wallet, over every crash and restore, are one and the same, and are the deposit of its session, as long as every session a restart brought back carried the intended deposit |
| `SwapTheorems.RestartCarriesIntent` | api/persist.go:545-641 | a restarted session carries the intended deposit if and only if the record on disk has a session with that deposit and is not filed away |
| `SwapTheorems.OrderedWritesCarry` | api/engine.go:378-409 | every restart of a run does so while no queued snapshot overtook a durable write, and counts a taker's failures right while moreover no durable write failed |
| `SwapTheorems.IntentBeforeBytes` | api/swap.go:811-822 | when a worker hands deposit bytes to the wallet, exactly those bytes with their refund are the durable intent |
| `SwapTheorems.TakerFailuresCapped` | api/swap_retry.go:274-302 | at most ten broadcasts of a taker's deposit fail per process, and at most ten over all processes as long as every session a restart brought back counted the failures there had been |
| `SwapTheorems.RestartCounts` | api/swap_retry.go:211-222 | a restarted session counts the failures there were if and only if the retries on its record do |
| `SwapTheorems.ThresholdIsPatient` | api/swap.go:1510-1522 | the countdown lies between 3 and 12 rounds and, below 12, covers two blocks of the watched chain |
| `SwapTheorems.RunPatient` | api/swap.go:1454-1506 | every probe out in any reachable state waits for a countdown of 3 to 12 rounds |
| `SwapTheorems.AbsenceIsAWindow` | api/swap.go:1575-1631 | the absence count of a reachable state is witnessed by that many consecutive absent probes with no visible, blind or skipped round between |
| `SwapTheorems.OnlyDecisiveProbesCancel` | api/swap.go:1575-1630 | a probe that does not complete the countdown leaves order, history and refund queue alone |
| `SwapTheorems.VanishNeedsDurableAbsence` | api/swap.go:1575-1645 | a cancel by the deposit watch is preceded by a full threshold of consecutive absent probes, at least three, the last being the one applied |
| `SwapTheorems.SpentDepositIsHunted` | api/swap.go:1631-1637 | a taker whose own deposit is proven spent on the decisive round hunts the secret, cancels nothing, and its refund sweep stands down |
| `SwapTheorems.RepostStandsWatchdogDown` | api/engine.go:131-151 | in one tick the retry sweep keeps the watchdog from cancelling a stalled session exactly when it reposts: not when it adopts, meets the cap or has no wallet |
| `SwapTheorems.SpenderStartsClaim` | api/own_deposit_watch.go:419-485 | a spender the own-deposit watch found starts the claim if and only if the mempool was readable in that round, the session has not claimed and has no worker out, and the queue has room; in any other round it leaves no task |
| `SwapSafety.NextKeeps` | api/engine.go:271-334 | every event, a crash included, keeps the invariant behind the theorems about runs |
| `SwapSafety.RunInv` | api/engine.go:271-334 | every state of every run satisfies that invariant |
| `SwapLimits.CancelMidBuildForgets` | api/node.go:2011-2061 | a reachable run in which the operator cancels while the deposit is being built: the broadcast goes out all the same and a crash leaves the deposit to no sweep, with the order still in the live book |
| `SwapLimits.CancelAfterCrashStrands` | api/node.go:2177-2181 | a reachable run in which a cancel after a crash-restart, before the hub confirmed the deposit, moves the order away and prunes the session with its deposit on the chain: still owed, lapsed, and in no sweep of this process |
| `SwapLimits.StaleSnapshotSendsTwice` | api/engine.go:378-409 | a reachable run in which a snapshot popped before and written after a durable write makes a restarted taker build and hand out a second deposit, after which nothing names the refund of the first |
| `SwapLimits.StrayedSendsAgain` | api/persist.go:545-641 | in general: from any reachable state whose record lacks the deposit a taker handed out, a run in which the restarted taker hands out any other deposit, and nothing names the first one's refund |
| `SwapLimits.RebuildOverwrites` | api/swap.go:564-601 | a reachable run in which a CreateA repeated after a crash-restart has a maker rebuild over a deposit the chain shows: it is owed, lapsed, and its refund is named nowhere |
| `SwapLimits.LostCountsExceedTheCap` | api/swap_retry.go:211-222 | a reachable run with failing durable writes in which more than ten broadcasts of one deposit fail, a restart having miscounted them |
| `SwapNode.Node.SessionIsTerminal` | api/swap.go:1662-1676 | decides as the run theorems assume: a session with an unrefunded deposit out is never terminal |
| `SwapNode.Node.SnapshotSwaps` | api/persist.go:157-177 | an own live order is saved with its session unless that is terminal; an own history order without one |
| `SwapNode.Node.PersistNow` | api/persist.go:351-379 | the disk gets the current snapshot or keeps the old one, and the queued snapshot is dropped |
| `SwapNode.Node.Persist` | api/persist.go:402-435 | the current snapshot replaces the queued one; the disk is untouched |
| `SwapNode.Node.PopLatest` | api/engine.go:378-387 | the slot is emptied into the writer while the disk is still unchanged |
| `SwapNode.Node.WritePopped` | api/engine.go:388-409 | the popped snapshot, however old, becomes the disk's |
| `SwapNode.Node.MoveToHistory` | api/store.go:137-168 | the order leaves the live book, and an existing history entry is kept |
| `SwapNode.Node.PruneSessions` | api/swap.go:1678-1696 | only a terminal session goes, with its refund and watch marks; tasks already out stay out |
| `SwapNode.Node.PostTask` | api/swap.go:1338-1397 | the task is queued, or dropped with the guard freed |
| `SwapNode.Node.ClearStuckAwait` | api/swap_retry.go:40-49 | a guard held longer than three minutes is freed and its task counted as lost; a clock behind the stamp frees nothing |
| `SwapNode.Node.ScheduleDepositRetry` | api/swap_retry.go:211-222 | the next attempt waits the backoff of the attempts so far, the count goes up by one and is made durable |
| `SwapNode.Node.ScheduleClaimRetry` | api/swap_retry.go:103-114 | the same for the claim, on its own count |
| `SwapNode.Node.FastRepoll` | api/swap_retry.go:76-98 | the fast re-poll, tapered for a deposit never seen, anchored at the first not-ready round |
| `SwapNode.Node.ScheduleNotReady` | api/swap_retry.go:63-99 | re-polls exactly for not-ready errors inside the ten-minute window, after pulling a stamp ahead of the clock back |
| `SwapNode.Node.ScheduleAfterFailure` | api/swap.go:635-641 | a failed build is re-polled or backed off, never both |
| `SwapNode.Node.RollbackGate` | api/swap.go:1326-1334 | a rollback status needs a deposit that went out |
| `SwapNode.Node.PostRefundTask` | api/swap.go:1195-1315 | the refund is queued with its spend-proof flag, or the posting mark is taken back |
| `SwapNode.Node.RecordRefundFailure` | api/refund_sweep.go:38-55 | the doubling loop waits what the closed recurrence says: ten minutes doubled per attempt, never beyond a day |
| `SwapNode.Node.EnterSecretHunt` | api/swap.go:1399-1408 | a first entry arms the hunt, clears the backoff and saves; a second changes nothing |
| `SwapNode.Node.EnqueueRefund` | api/swap.go:1700-1756 | the session's refund when its deposit is out, else the stored one when the order says so, else nothing |
| `SwapNode.Node.ScanRefunds` | api/swap.go:1412-1450 | changes the refund queue only, and as the swept-refund theorem assumes |
| `SwapNode.Node.SettleWatchedRefund` | api/refund_sweep.go:114-136 | a confirmed refund already broadcast turns a live or cancelled order into rolled back |
| `SwapNode.Node.ScanStoredRefunds` | api/refund_sweep.go:70-154 | acts on the exact complement of the session sweep: stored own orders with a deposit out and no session |
| `SwapNode.Node.FailRefund` | api/swap.go:1246-1265 | a failed refund marks the order and backs off unless asked for by hand |
| `SwapNode.Node.MarkRefunded` | api/swap.go:1270-1294 | a refund that went out clears the backoff, marks the session and rolls the order back |
| `SwapNode.Node.ApplyRefund` | api/swap.go:1195-1315 | each way a refund attempt can end, spent proofs included, leaves the state its run step says; the session is kept or dropped, never replaced |
| `SwapNode.Node.HandleRemoteCancel` | api/node.go:2106-2235 | every branch of a verified cancel: stale-mark, history before the deposit, repeat, in place, ignored after redemption, rollback with refund |
| `SwapNode.Node.SendSelfCancel` | api/swap.go:179-203 | the local rollback is complete and saved before anything is sent; without a connector nothing happens |
| `SwapNode.Node.CancelOrder` | api/node.go:2036-2061 | from the engine's side the operator's cancel rolls back an order up to the created status |
| `SwapNode.Node.HandleRemoteReject` | api/node.go:2237-2269 | a verified reject reopens a taken order that is at most accepting, and disowns it |
| `SwapNode.Node.FundingSpent` | api/node.go:732-772 | an open own order whose funding is spent is cancelled; any other is left |
| `SwapNode.Node.PruneExpired` | api/node.go:704-726 | only open and created orders outside a swap expire |
| `SwapNode.Node.GcStaleMineOrders` | api/stall_watch.go:112-139 | only day-old own orders with no session, deposit or tracked broadcast are dropped |
| `SwapNode.Node.WatchStalledSessions` | api/stall_watch.go:48-107 | cancels only a session silent for thirty minutes that no guard of the watchdog protects |
| `SwapNode.Node.OnHold` | api/swap.go:409-446 | advances to hold-applied once, saving before the response |
| `SwapNode.Node.OnInit` | api/swap.go:485-501 | advances to initialized once, saving before the response |
| `SwapNode.Node.OnCreateA` | api/swap.go:564-601 | an idle maker before its deposit stages one deposit build, anyone else none |
| `SwapNode.Node.OnCreateB` | api/swap.go:717-766 | an idle taker that has not adopted a key stages one deposit build; a missing maker deposit cancels |
| `SwapNode.Node.OnConfirmA` | api/swap.go:870-902 | an idle maker before its claim stages one claim build |
| `SwapNode.Node.OnConfirmB` | api/swap.go:991-1016 | an idle session before its claim saves the counterparty's claim txid and stages one claim build |
| `SwapNode.Node.FinishedMayTerminate` | api/swap.go:1097-1107 | no termination while the own deposit is out and nothing was claimed |
| `SwapNode.Node.OnFinished` | api/swap.go:1110-1127 | a finish that may terminate files the order and prunes the session; an early one changes nothing |
| `SwapNode.Node.ProcessSwap` | api/node.go:1062-1116 | progress is stamped for every accepted packet, and a packet during in-flight work changes nothing else |
| `SwapNode.Node.ApplyDepositFailure` | api/swap.go:773-789 | a failed build frees the guard and cancels, reschedules or, with a deposit already recorded, stops |
| `SwapNode.Node.ApplyDepositBuild` | api/swap.go:643-668 | deposit, refund and locktime are recorded and durable before the broadcast is queued; a failed write withholds it |
| `SwapNode.Node.ConfirmDeposit` | api/swap.go:687-714 | the deposit counts as sent in order and session together, saved before the response |
| `SwapNode.Node.ApplyDepositSend` | api/swap.go:671-867 | a broadcast that went through confirms, one that failed is rescheduled with the same bytes |
| `SwapNode.Node.AdoptOrRepostDeposit` | api/swap_retry.go:274-329 | a deposit on the chain is adopted, otherwise the identical bytes are reposted up to ten times |
| `SwapNode.Node.RetryFailedDepositBuilds` | api/swap_retry.go:383-436 | rebuilds only without a recorded deposit, reposts only a due one that did not count as sent |
| `SwapNode.Node.ApplyClaimFailure` | api/swap.go:909-926 | a failed claim build cancels, reschedules or stops |
| `SwapNode.Node.ApplyClaimBuild` | api/swap.go:927-944 | the claim is recorded and durable before its broadcast is queued |
| `SwapNode.Node.ConfirmClaim` | api/swap.go:967-987 | session, order and redeemed mark finish together, saved before the response |
| `SwapNode.Node.ApplyClaimSend` | api/swap.go:946-1093 | a claim that went through finishes, one that failed is rescheduled with the same bytes |
| `SwapNode.Node.AdoptOrRepostClaim` | api/swap_retry.go:331-381 | a claim on the chain is adopted, otherwise the identical bytes are reposted up to ten times |
| `SwapNode.Node.RetryFailedClaimBuilds` | api/swap_retry.go:438-477 | rebuilds only without a recorded claim, reposts only while the role is still before its claim |
| `SwapNode.Node.WatchCounterpartyDeposits` | api/swap.go:1454-1506 | a round outside the window resets the countdown; a round with a probe out keeps it |
| `SwapNode.Node.ApplyDepositWatch` | api/swap.go:1575-1645 | visible, blind and raced probes reset the countdown, absent ones advance it, the last one hunts or cancels |
| `SwapNode.Node.WatchOwnDepositSpends` | api/own_deposit_watch.go:229-265 | a taker with its deposit out and no claim of its own is watched by one task at a time |
| `SwapNode.Node.ApplyOwnWatch` | api/own_deposit_watch.go:419-485 | a deposit proven live ends a mistaken hunt, a spender starts the claim; the cursor of the same round is the hunt's (Rescan.Hunt.NextRound) |
| `SwapNode.Node.Restore` | api/persist.go:545-641 | a new process starts with empty queues and what the swap file says |
| `SwapNode.Node.RestoreSwap` | api/persist.go:545-641 | a record goes to history or comes back live with its session, a never-claimed finish as a deposit still owed |
| `SwapNode.Node.ReconcileUnconfirmedDeposits` | api/node.go:341-364 | a deposit the chain shows counts as sent; nothing else changes |
| `SwapEngine.Deliver` | api/engine.go:271-334 | handling any event but a crash takes the object's value exactly where the run step takes it |
| `SwapEngine.StartNode` | api/node.go:284-364 | a restart builds exactly the node the crash event of a run leads to |
| `SwapEngine.Tick` | api/engine.go:131-151 | one tick is its sweeps in their fixed order, recovery before termination and the flush last |
| `SwapEngine.Drive` | api/engine.go:271-334 | the object, driven by any possible events of a process, keeps the run invariant and the accounts: one task in flight, and an owed deposit no losing step has cost is in its session, neither finished nor refunded |
| `OrderStore.ProofLocksWalletKey` | api/store.go:377-385 | an order locks an output under the key the wallet filter looks up exactly if the wallet spells txids in lower case |
| `OrderStore.SelectTakeFunding` | api/utxo_select.go:172-188 | the fee candidates lose exactly the outputs whose key the funding uses, so a take never pays its fee from its own funding |
| `OrderStore.Store.LockedUtxoInfo` | api/store.go:388-429 | the loops collect every key held by an unreleased order or a take in flight, and no other |
| `OrderStore.Store.ReserveForTake` | api/store.go:490-514 | reserves exactly when the order is live and unreserved and none of the keys is locked |
| `OrderStore.Store.ReleaseReserve` | api/store.go:517-521 | drops that one reservation |
| `OrderStore.Store.CommitTake` | api/node.go:1927-1979 | the live record takes over the inputs before the reservation goes, and the record to revert to is handed back |
| `OrderStore.Store.RevertTake` | api/node.go:1969-1979 | a failed take puts the earlier record back |
| `OrderStore.Store.MoveToHistory` | api/store.go:137-168 | the order leaves the book for the history |
| `TakeExclusion.TakesAreExclusive` | api/store.go:478-514 | at every point of every interleaving of takes, commits, reverts, cancels, expiries, rejects and status changes, revivals of released orders included when they hold to the condition of TakeExclusion.RevivalIsExact, no key is held for two orders |
| `TakeExclusion.NoGap` | api/node.go:1937-1968 | from the reservation through the commit the keys of a take are locked without a gap |
| `TakeExclusion.CommitKeepsHeld` | api/node.go:1937-1968 | the hand-over from reservation to order changes no held key |
| `TakeExclusion.RevivalIsExact` | api/swap.go:691-695 | a change of status keeps the exclusion if and only if it does not bring a released order back to life, or none of that order's coins is locked |
| `TakeExclusion.RevivalBreaksExclusion` | api/swap.go:691-695 | a run that reaches a state where it fails: a taken and cancelled order that a late confirmation marks created again shares a coin reserved meanwhile |
| `UtxoSelect.SelectPartialUtxos` | api/utxo_select.go:197-341 | chosen and remaining outputs are a permutation of the wallet, the amount reported is their sum; exact success covers the order and its fees, other success strictly exceeds splits, remainder and preparing fee; failure means nothing chosen, the need met to the unit, or the whole wallet tried |
| `UtxoSelect.TakeIdeal` | api/utxo_select.go:216-240 | the ideal pass moves only exact matches, each counted with one fee |
| `UtxoSelect.TakeExactRest` | api/utxo_select.go:251-264 | one output worth exactly the rest, or none |
| `UtxoSelect.TakeBig` | api/utxo_select.go:270-292 | stops at the need or with no output of a split's size left |
| `UtxoSelect.TakeCovering` | api/utxo_select.go:300-312 | takes a single output that closes the gap, or none can |
| `UtxoSelect.TakeLargest` | api/utxo_select.go:314-330 | stops at the need or with the wallet empty |
| `UtxoSelect.SumOfPermutation` | api/utxo_select.go:248-249 | sorting in between does not change what the outputs are worth |
| `Rescan.RunRescanPages` | api/own_deposit_watch.go:169-222 | the paged loop computes the recursive walk of one round |
| `Rescan.ScanPage` | api/own_deposit_watch.go:196-218 | a block's loop reports its first spender, or stops where a transaction cannot be fetched |
| `Rescan.Hunt.NextRound` | api/own_deposit_watch.go:405-485 | the stored cursor moves only with a round that advanced, whatever the mempool; the spender is handed on only in a round with a readable mempool and a session that takes it |
| `Rescan.ScannedIsClean` | api/own_deposit_watch.go:169-222 | through page failures, budgets and tip growth the cursor never moves back, and every height from the seed up to it was scanned and holds no spender |
| `Rescan.ReportIsTheLinearScan` | api/own_deposit_watch.go:184-222 | the first spender reported is the one a single scan from the seed finds |
| `Rescan.SpenderIsReached` | api/own_deposit_watch.go:169-222 | with the wallet serving the pages, a spender is reported within as many rounds as the cursor is behind it |
| `Rescan.DeliveryIsExact` | api/own_deposit_watch.go:451-485 | the last spend of the deposit, once the pages report it, reaches the session in that round or any later one if and only if the mempool was readable in that round and the session took it |
| `Rescan.UnreadableMempoolLoses` | api/own_deposit_watch.go:455-477 | the losing input: one round with an unreadable mempool that finds the spender, and no later round delivers it |
| `Rescan.BudgetOutpacesChain` | api/own_deposit_watch.go:57-65 | for which block times the page budget keeps ahead of the chain, and of twice the chain |
| `LockTimes.Admitted` | config/admit.go:105-113 | the loop keeps exactly the configurations the gates pass |
| `LockTimes.AdmittedBlockTimes` | config/admit.go:53-100 | admitted block times are at most five minutes, or exactly ten |
| `LockTimes.MakerDepositLeft` | api/swap_retry.go:242-253 | a maker deposit the taker accepts stays locked for at least 4800 seconds of blocks on the taker's view |
| `LockTimes.TakerLockAtMost` | api/swap.go:1821-1847 | a taker's own deposit is locked for at most 3600 seconds of blocks |
| `LockTimes.TakerIsSafe` | api/locktime.go:32-42 | for every pair of admitted coins the maker's lock outlasts the taker's by at least 1200 seconds |
| `LockTimes.MarginIsTight` | api/locktime.go:32-42 | the bound is attained on ten-minute chains |
| `LockTimes.TakerDepositAhead` | api/swap_retry.go:123-134 | a taker deposit the maker accepts is locked at least two blocks above the maker's tip |
| `LockTimes.HonestIsAccepted` | api/locktime.go:32-42 | an honest counterparty at most four blocks behind is always accepted |
| `Script.DecodeEncodeNum` | coins/script.go:54-88 | script numbers come back from their shortest encoding |
| `Htlc.BuildPushNum` | coins/script.go:57-88 | the peeling loop and sign patch build the shortest push of the number |
| `Htlc.ParseAssembled` | coins/script.go:31-88 | every script assembled from pushes, numbers and opcodes parses back to its meaning |
| `Htlc.BuildDepositUnlockScript` | coins/htlc.go:34-59 | successive appends build the deposit script of the terms |
| `Htlc.RefundBranch` | coins/htlc.go:38-45 | what the refund branch does to any stack: success exactly with the locktime met, key hash and signature |
| `Htlc.ClaimBranch` | coins/htlc.go:46-56 | what the claim branch does to any stack, a wrong preimage included |
| `Htlc.TwoSpendPaths` | coins/htlc.go:34-59 | the script accepts an initial stack if and only if it takes the refund path or the claim path |
| `Htlc.BuildRefundScriptSig` | coins/htlc.go:63-69 | the appends build the four pushes of the refund |
| `Htlc.BuildPaymentScriptSig` | coins/htlc.go:73-80 | the appends build the five pushes of the claim |
| `Htlc.TemplateAccepts` | coins/script.go:99-104 | the output template accepts a stack exactly if its top hashes right |
| `Htlc.RedeemScriptFits` | coins/htlc.go:34-59 | the redeem script is short enough to be pushed when it is spent |
| `Htlc.RefundSpends` | coins/htlc.go:61-69 | the refund spend of the output is valid if and only if the depositor's signature is |
| `Htlc.ClaimSpends` | coins/htlc.go:71-80 | the claim spend revealing the preimage is valid if and only if the counterparty's signature is |
| `Htlc.EverySpendTakesAPath` | coins/htlc.go:34-59 | whatever spends the output either reveals another script of the same hash or takes one of the two paths |
| `SwapTx.SumFunding` | swap/deposit.go:98-101 | the running 64-bit total is the true total up to wrap-around |
| `SwapTx.BuildDepositTx` | swap/deposit.go:94-137 | the loops build the deposit, change to the given address included, or the first error in the source's order |
| `SwapTx.DepositKeepsValue` | swap/deposit.go:98-136 | the locked output is amount plus redeem fee and inputs equal outputs plus fee plus dropped dust, if and only if the 64-bit sums do not wrap |
| `SwapTx.DepositSpendsFunding` | swap/deposit.go:95-131 | when the deposit is built, and that it spends every funding output once, in order, with final sequence |
| `SwapTx.BuildRefundTx` | api/swap.go:1965-2006 | the refund of output 0 with its signature script, or an error without a deposit |
| `SwapTx.OneDepositIsMined` | api/swap.go:1871-1875 | deposits built at any times from the same recorded funding spend the same outputs, so a chain without double spends contains at most one of them |
| `SwapTx.RefundRecoversDeposit` | api/swap.go:1942-2011 | the refund made from the signed bytes of the deposit spends output 0 of the deposit the network knows if and only if those bytes hash as they do without witnesses (always so for P2PKH coins), is valid exactly if its signature is, and leaves the redeem fee |
| `SwapTx.RedeemCounterparty` | api/swap.go:2036-2130 | the claim transaction, or the error the source gives first |
| `SwapTx.ClaimPaysTheOrder` | api/swap.go:2112-2121 | the claim pays at least the order, and no more than the deposit holds exactly when that holds the order's amount |
| `SwapTx.ClaimTakesDeposit` | api/swap.go:2095-2130 | the claim is valid exactly if its signature is, and the secret is read back from its serialized bytes |
| `Transaction.Serialize` | coins/tx.go:115-161 | the buffer ends up as the wire format of the transaction, classic or segwit, with or without nTime |
| `Transaction.DeserializeTx` | coins/tx.go:189-320 | the position-based parser computes the recursive reading, refusing the same inputs |
| `Transaction.NeedVarInt` | coins/tx.go:323-354 | reads a count of any width at a position and moves past it |
| `Transaction.RoundTrip` | coins/tx.go:115-320 | a serialized transaction is read back, up to fields not on the wire, if and only if it is not a classic one with no inputs and one output |
| `SecretScan.SecretFromScriptSig` | api/swap.go:2233-2269 | the index loop computes the recursive scan |
| `SecretScan.ScanIsSound` | api/swap.go:2233-2269 | what is returned is a 33-byte stretch of the script that hashes to the secret hash |
| `SecretScan.ScanIsComplete` | api/swap.go:2233-2269 | on pushes up to two length bytes and opcodes from 0x4f up, the first matching push is returned, or none when there is none |
| `SecretScan.WidePushIsMissed` | api/swap.go:2240-2257 | a push with a four-byte length hides any secret from the scanner, unless three zeros and its first thirty bytes hash to the same value |
| `SecretScan.PaymentRevealsSecret` | coins/htlc.go:73-80 | a claim's signature script yields its secret |
| `SecretScan.SecretFromPayTx` | api/swap.go:2194-2229 | the loops compute the first secret of an input that spends the outpoint |
| `SecretScan.InputsAreSound` | api/swap.go:2210-2228 | a returned secret hashes right and stands in an input that spends exactly the outpoint |
| `SecretScan.ClaimYieldsSecret` | api/swap.go:2194-2229 | a serialized maker claim always gives the taker the secret |
| `BitGroups.ConvertBits` | coins/bech32.go:78-102 | the shifting loop regroups the bits of the data read as one number, and refuses non-zero or too much padding |
| `BitGroups.BytesSymbolsBytes` | coins/bech32.go:78-102 | bytes cut into five-bit symbols with padding come back as the same bytes |
| `Checksum.ComputePolymod` | coins/bech32.go:29-42 | the polymod loop computes the fold over the symbols |
| `Checksum.FoldLinear` | coins/cashaddr.go:27-39 | the fold is linear over exclusive-or, for both codes |
| `Checksum.CreateChecksum` | coins/bech32.go:59-68 | the shifts cut out the checksum symbols of the folded value |
| `Checksum.ChecksumVerifies` | coins/bech32.go:59-74 | values followed by their checksum fold to the target, for both codes and any target |
| `SegwitAddress.EncodeSegwit` | coins/bech32.go:106-133 | the appended characters are the address of prefix, version and program |
| `SegwitAddress.DecodeSegwit` | coins/bech32.go:138-176 | the loops read an address as specified, refusals and panics included |
| `SegwitAddress.DecodeEncode` | coins/bech32.go:106-176 | an encoded address decodes to what was encoded if and only if the prefix is not empty and has no capital and the address has at most ninety characters, for every version and program |
| `SegwitAddress.PanicsExactly` | coins/bech32.go:138-176 | the decoder panics if and only if an address passes the length, case, separator and checksum checks and has exactly six symbols after the separator |
| `SegwitAddress.BareAddressPanics` | coins/bech32.go:138-176 | such an address exists for every prefix of up to 83 lower-case characters and either constant |
| `SegwitAddress.VectorPanics` | coins/bech32.go:138-176 | A12UEL5L, a valid bech32 string of BIP 173, is one |
| `CashAddress.EncodeAddress` | coins/cashaddr.go:117-139 | the appended characters are the address of prefix, type and hash |
| `CashAddress.DecodeAddress` | coins/cashaddr.go:143-190 | the loops read an address as specified, refusals and panics included |
| `CashAddress.DecodeEncode` | coins/cashaddr.go:117-190 | an encoded address decodes to what was encoded, for every legal type, hash, prefix and wanted prefix, if and only if its prefix is not empty and has no colon, cases are not mixed, it has at most 110 characters, and no prefix or its own in lower case is wanted |
| `CashAddress.PanicsExactly` | coins/cashaddr.go:143-190 | the decoder panics if and only if an address passes the length, case, prefix and checksum checks and has at most eight symbols after the separator |
| `CashAddress.BareAddressPanics` | coins/cashaddr.go:143-190 | such an address exists for every lower-case prefix of up to 101 characters without a colon |
| `Substitution.MissedExactly` | coins/bech32.go:71-74 | whatever symbols are changed, the segwit checksum test accepts the result of changing an accepted string if and only if the fold of the differences is zero or the difference of its two constants |
| `Substitution.OneSymbolShows` | coins/cashaddr.go:27-39 | one changed symbol changes the fold, in either code and at any length |
| `Substitution.OneSymbolIsRefused` | coins/bech32.go:71-74 | one changed symbol within the last ninety is never accepted, although either constant is |
| `Substitution.TwoSymbolsSlip` | coins/bech32.go:19-74 | two changed symbols can be: turning over bits 10101 and 11101 of the last two leads from the first constant to the second |
| `AddressErrors.SegwitTypoIsRefused` | coins/bech32.go:138-176 | an accepted segwit address with one character after the separator changed is refused, case aside and the separator itself excepted |
| `AddressErrors.CashTypoIsRefused` | coins/cashaddr.go:143-190 | an accepted CashAddr address with one character after the separator changed is refused, case aside |
| `Base58.Base58Encode` | coins/base58.go:57-79 | the division loop and in-place reversal spell the number with its leading zeros |
| `Base58.Base58Decode` | coins/base58.go:32-54 | the accumulating loop reads the number with its leading ones, within the length cap |
| `Base58.DecodeEncode` | coins/base58.go:32-79 | decoding what was encoded gives the bytes back, leading zeros included, exactly within the length the decoder accepts |
| `Base58.EncodeDecode` | coins/base58.go:32-79 | encoding what was decoded gives the string back, and only alphabet strings within the cap decode |
| `BodyTypes.BodyRoundTrip` | proto/body_types.go:106-973 | for every command, a body comes back field for field exactly when its fields are ones the wire can carry |
| `BodyTypes.AcceptedIsLegal` | proto/body_types.go:106-1037 | whatever a decoder accepts is a legal body, and encoding it again gives the accepted bytes exactly when flags are 0 or 1, nothing was ignored and no optional field was missing |
| `BodyTypes.AcceptedIsWritten` | proto/body_types.go:383-597 | Hold, HoldApply, Init, Initialized, CreateA, Cancel, Finished and Reject match their accepted bytes one to one |
| `BodyTypes.Marshal` | proto/body_types.go:383-390 | the writer appends every field of the layout in order |
| `BodyTypes.Unmarshal` | proto/body_types.go:392-413 | the reader takes every field in order, refuses the whole at the first that fails, and applies the command's rule for what follows |
| `BodyTypes.BodyWriter.CurrencyCode` | proto/body.go:54-58 | a code is cut or padded to eight bytes |
| `BodyTypes.BodyWriter.UtxoArray` | proto/body_types.go:71-76 | a count and every entry in order |
| `BodyTypes.BodyReader.String` | proto/body.go:119-128 | reads up to the first zero byte and past it, or fails and stays |
| `BodyTypes.BodyReader.CurrencyCode` | proto/body.go:150-160 | eight bytes without their trailing zeros |
| `BodyTypes.BodyReader.UtxoArray` | proto/body_types.go:78-100 | at most 65536 entries that fit the bytes left |
| `WireBody.FieldReads` | proto/body.go:14-160 | a field of any kind is read as it was written, whatever follows it |
| `WireBody.FieldWrites` | proto/body.go:62-160 | a field read is legal, and writing it gives its bytes back, plain flags taken for granted |
| `WireStack.Marshal` | proto/packet.go:71-82 | the header is written into a zeroed buffer at its fixed offsets |
| `WireStack.Unmarshal` | proto/packet.go:101-143 | the checks in the source's order, each with its own refusal |
| `WireStack.PacketRoundTrip` | proto/packet.go:70-143 | a packet comes back if and only if it states our version and the size of a body within the cap |
| `WireStack.AcceptedPacketIsWritten` | proto/packet.go:70-143 | accepted bytes are written back as they were if and only if bytes 117 to 128 are zero |
| `WireStack.SignatureCoversPacket` | proto/packet.go:86-91 | the signed bytes of two packets agree if and only if every field that travels but the signature does |
| `WireStack.ReadVarInt` | p2p/envelope.go:104-146 | reads at a position as specified and moves past the value |
| `WireStack.CompactIsExact` | p2p/envelope.go:69-146 | the reader accepts exactly what the writer emits, up to the cap |
| `WireStack.DecodeXBridgePayload` | p2p/envelope.go:53-66 | the slicing by position yields the packet of the envelope |
| `WireStack.EnvelopeIsExact` | p2p/envelope.go:33-66 | a payload yields a packet if and only if it is that packet's envelope for some destination and time, within the cap |
| `WireStack.MarshalMessage` | p2p/message.go:45-57 | the frame of a message, its command cut or padded to twelve bytes |
| `WireStack.UnmarshalMessage` | p2p/message.go:60-89 | the checks in the source's order, a bad checksum told apart |
| `WireStack.FrameRoundTrip` | p2p/message.go:45-89 | a message comes back, whatever follows it, if and only if command, length and checksum are well formed |
| `WireStack.AcceptedFrameIsWritten` | p2p/message.go:45-89 | an accepted frame is written back as it was if and only if its command is padded with zeros |
| `WireStack.StackRoundTrip` | p2p/conn.go:302-337 | a typed body sent through packet, envelope and frame arrives field for field if and only if packet and body are legal |

## Left out

- SwapRun.Step: one order at a time; other orders appear only through the environment's answers.
- SwapSafety.RunInv: late results of a task released as stuck, and chain reorganisations, are excluded.
- SwapNode.Node.SendSelfCancel: whether the order still accepts our own key, which the source checks on its own packet, is the environment's answer.
- SwapNode.Node.ProcessSwap: hub signature, hub route, amounts and addresses of Hold and Init are verdicts of the environment.
- SwapNode.Node.RetryFailedDepositBuilds: a session is one of many in the source's map; the loops over sessions are not part of this model.
- SwapTheorems.TakerSendsOneDeposit: claimed for takers only, since a redelivered CreateA may rebuild a maker's deposit.
- SwapRecovery.CrashRecovery: needs the order to have stayed ours, live and undecided; SwapRecovery.RecoveryIsExact has the exact condition on the record.
- SwapTheorems.OwedRefundIsSwept: that the wallet accepts the refund in the end is the environment's answer.
- SwapNode.Node.EnqueueRefund: a stored refund always decodes and has one candidate currency.
- SwapNode.Node.ApplyRefund: a stored refund is not chained on to a second candidate currency.
- SwapNode.Node.ApplyOwnWatch: the cursor of the same apply is in Rescan.Hunt.NextRound; the backoff after a failed page is not modelled.
- SwapEngine.Tick: HoldApply resends, silent-hub records, broadcast polling, rebroadcast, tracked pruning and take-retry pruning are skipped; they do not touch the modelled state.
- OrderStore.SelectTakeFunding: the funding itself is picked in floating point and given here.
- TakeExclusion.TakesAreExclusive: two takes of the same order and a new own order racing a take are excluded; the source revives a released order without the test of TakeExclusion.RevivalIsExact.
- UtxoSelect.SelectPartialUtxos: amounts are given integers, the preparing fee a given function that grows with the inputs; 64-bit wrap-around is not modelled.
- Rescan.RunRescanPages: the inputs' outpoints are given beside the raw bytes; the seen-set that suppresses repeated fetches and the page backoff are not modelled.
- Rescan.DeliveryIsExact: speaks of the last spend of the deposit below the cursor; an output is spent once on a chain that does not reorganise.
- Transaction.DeserializeTx: counts of 2^63 and above are refused here, where the source turns them negative and panics on the slice; the memory a witness count asks for is not modelled.
- BitGroups.ConvertBits: the accumulator is unbounded, the source's wraps far beyond any bits it still uses.
- SegwitAddress.DecodeSegwit: ASCII strings only.
- CashAddress.DecodeAddress: ASCII strings only.
- AddressErrors.SegwitTypoIsRefused: changes of the prefix or of the separator itself are not covered.
- Substitution.TwoSymbolsSlip: one pattern of two symbols; Substitution.MissedExactly has the condition for any pattern.
- Base58.Base58Decode: the alphabet is given by ranges, and the source's big integers are unbounded integers.
- BodyTypes.Marshal: the eighteen hand-written field sequences are one table of layouts, walked by a loop.
- SwapTx.BuildDepositTx: funding txids come decoded; the choice of the change address, signing and the wallet's answers are parameters; the hash derived from an unset secret hash is not modelled.
- SwapTx.RedeemCounterparty: starts where the deposit is known to be unspent.
- LockTimes.TakerIsSafe: seconds are nominal block times, not measured ones.
- Conformance to BIP 350: the source's own second checksum constant is kept; encoder and decoder are proved to invert each other.
- Wallet calls, sockets, peer discovery, HTTP and JSON-RPC dispatch, help texts, response rendering, logging.
- SHA-256, RIPEMD-160 and ECDSA.
- Floating-point selection and pricing (`selectUtxos`, `selectFeeUtxos`, price drift, order-book prices).
- JSON encoding and checksum of the swap file, and its quarantine.
- Take retries, `dxFlushCancelledOrders`, configuration reload, broadcast tracking.
- The ledger of fills, unconnected-order pruning and status strings, which would only add easy members.
