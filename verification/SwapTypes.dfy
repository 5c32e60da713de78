/** The values a swap is made of: order statuses, the order record, the session
    and the pieces of work it hands to the wallet workers.

    The model follows one order.  Everything another order can do to this one
    (a full task queue, a snapshot written on its behalf) is an answer of the
    environment. */
module SwapTypes {
  import opened Wrappers

  /** A txid or signed transaction bytes in hex; Empty is the empty string, "not there yet". */
  datatype Hex = Empty | Text(digits: string)

  datatype Status =
    | Expired | New | Offline | Open | Accepting | Hold | Initialized | Created | Signed | Commited
    | Finished | RolledBack | RollbackFailed | Dropped | Canceled | Invalid

  function Ordinal(st: Status): int {
    match st
    case Expired => -1
    case New => 0
    case Offline => 1
    case Open => 2
    case Accepting => 3
    case Hold => 4
    case Initialized => 5
    case Created => 6
    case Signed => 7
    case Commited => 8
    case Finished => 9
    case RolledBack => 10
    case RollbackFailed => 11
    case Dropped => 12
    case Canceled => 13
    case Invalid => 14
  }

  predicate IsOrderTerminal(st: Status) {
    st in {Finished, Canceled, Dropped, Invalid}
  }

  /** Client states in handshake order; the numbers are compared with < and >=. */
  type ClientState = st: nat | st <= 9

  const CS_IDLE: ClientState := 0
  const CS_MAKER: ClientState := 1
  const CS_TAKER: ClientState := 2
  const CS_HOLD_APPLIED: ClientState := 3
  const CS_INITIALIZED: ClientState := 4
  const CS_CREATED_A: ClientState := 5
  const CS_CREATED_B: ClientState := 6
  const CS_CONFIRMED_A: ClientState := 7
  const CS_CONFIRMED_B: ClientState := 8
  const CS_FINISHED: ClientState := 9

  /** A pre-signed refund: its bytes and the locktime stamped in them. */
  datatype Refund = Refund(hex: Hex, lockTime: nat)

  /** What one deposit build produces: deposit and refund are signed together. */
  datatype Deposit = Deposit(txid: Hex, hex: Hex, refund: Hex, lockTime: nat)

  const NO_DEPOSIT: Deposit := Deposit(Empty, Empty, Empty, 0)

  /** A build that succeeds never yields empty bytes or a zero locktime. */
  predicate WellBuilt(d: Deposit) {
    d.txid != Empty && d.hex != Empty && d.refund != Empty && d.lockTime > 0
  }

  function RefundOf(d: Deposit): Refund {
    Refund(d.refund, d.lockTime)
  }

  datatype Claim = Claim(txid: Hex, hex: Hex)

  const NO_CLAIM: Claim := Claim(Empty, Empty)

  datatype Order = Order(
    mine: bool,
    roleB: bool,
    status: Status,
    updated: nat,
    depositSent: bool,
    refundTx: Option<Refund>,
    binTxId: Hex,
    counterpartyRedeemed: bool)

  /** When a session last moved and when it may try again; 0 is "not set". */
  datatype Pace = Pace(
    awaitSince: nat,
    lastProgress: nat,
    depositRetryAt: nat,
    depositRetries: nat,
    claimRetryAt: nat,
    claimRetries: nat,
    notReadySince: nat,
    notReadySeen: bool)

  /** What the session knows of the counterparty. */
  datatype Peer = Peer(
    pub: bool,           // key adopted
    deposit: bool,       // deposit txid known
    payTx: bool,         // claim txid known
    validated: bool,     // deposit validated (theirP2SHNative != 0)
    secretKnown: bool)

  datatype Session = Session(
    isMaker: bool,
    state: ClientState,
    await: bool,
    deposit: Deposit,    // ourDepositTxID, depositHex, refundHex, ourLockTime
    claim: Claim,        // claimTxID, claimHex
    refundDone: bool,
    secretHunt: bool,
    peer: Peer,
    pace: Pace,
    vanishMisses: nat)

  function NewMakerSession(secretKnown: bool, now: nat): Session {
    Session(true, CS_MAKER, false, NO_DEPOSIT, NO_CLAIM, false, false,
            Peer(false, false, false, false, secretKnown), Pace(0, now, 0, 0, 0, 0, 0, false), 0)
  }

  function NewTakerSession(now: nat): Session {
    Session(false, CS_TAKER, false, NO_DEPOSIT, NO_CLAIM, false, false,
            Peer(false, false, false, false, false), Pace(0, now, 0, 0, 0, 0, 0, false), 0)
  }

  /** Build and broadcast work: at most one piece should be out at a time. */
  datatype Work =
    | DepositBuild
    | DepositSend(out: Deposit)
    | ClaimBuild(makerSide: bool)
    | ClaimSend(claim: Claim)

  datatype RefundTask = RefundTask(refund: Refund, manual: bool, proveSpend: bool)

  datatype WatchTask = WatchTask(threshold: nat, decisive: bool)

  /** Refund tasks out, the posting mark, and the backoff entry (retryAt 0: none). */
  datatype RefundQueue = RefundQueue(tasks: seq<RefundTask>, pending: bool, attempts: nat, retryAt: nat)

  datatype WatchQueue = WatchQueue(tasks: seq<WatchTask>, pending: bool, ownPending: bool)

  /** One order's record in the swap file. */
  datatype Record = Record(order: Order, sess: Option<Session>, historical: bool)

  /** The swap file and the snapshots on their way to it. */
  datatype Book = Book(
    disk: Option<Record>,              // last durable snapshot
    queued: Option<Option<Record>>,    // handed to the background writer
    writing: Option<Option<Record>>,   // popped by the background writer
    overlap: bool,                     // a durable write ran while the writer held a popped snapshot
    writeFailed: bool)                 // some durable write has failed

  /** One order's slice of the node. */
  datatype NodeState = NodeState(
    sess: Option<Session>,
    live: Option<Order>,               // the live book
    hist: Option<Order>,               // the history list
    work: seq<Work>,
    refund: RefundQueue,
    watch: WatchQueue,
    book: Book)
}
