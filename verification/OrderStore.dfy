/** The order book's input locks: takes in flight never share a coin. */
module OrderStore {
  import opened Wrappers
  import opened Bytes
  import opened HexText
  import opened SwapTypes

  // ---- Lock keys -----------------------------------------------------------

  function Decimal(n: nat): string {
    if n < 10 then [(48 + n) as char] else Decimal(n / 10) + [(48 + n % 10) as char]
  }

  /** A wallet's view of an output: display-order txid. */
  datatype Outpoint = Outpoint(txid: string, vout: nat)

  /** An output as an order names it: txid bytes in wire order. */
  datatype UtxoEntry = UtxoEntry(txid: Data, vout: nat)

  function OutpointKey(u: Outpoint): string {
    u.txid + ":" + Decimal(u.vout)
  }

  function EntryKey(e: UtxoEntry): string {
    HexEncode(Reversed(e.txid)) + ":" + Decimal(e.vout)
  }

  /** The proof of a wallet output: its txid decoded and reversed. */
  function ProofOf(u: Outpoint): Option<UtxoEntry> {
    match HexDecode(u.txid)
    case None => None
    case Some(b) => if |b| != 32 then None else Some(UtxoEntry(Reversed(b), u.vout))
  }

  /** The order locks an output under the very key the wallet filter looks up, as long as the
      wallet spells txids in lower case. */
  lemma ProofLocksWalletKey(u: Outpoint)
    requires ProofOf(u).Some?
    ensures EntryKey(ProofOf(u).value) == OutpointKey(u) <==> IsLowerHex(u.txid)
  {
    hide HexEncode; hide HexDecode; hide Decimal; hide IsLowerHex;
    var b := HexDecode(u.txid).value;
    assert Reversed(Reversed(b)) == b;
    HexRoundTrip(u.txid);
    var k, l := EntryKey(ProofOf(u).value), OutpointKey(u);
    var n := |Decimal(u.vout)| + 1;
    assert k[..|k| - n] == HexEncode(b) && l[..|l| - n] == u.txid;
  }

  // ---- Funding first, the fee from the rest -----------------------------------

  function OutpointKeySet(us: seq<Outpoint>): set<string> {
    set u | u in us :: OutpointKey(u)
  }

  /** The fee candidates lose every output whose key the funding uses, and nothing else. */
  method SelectTakeFunding(funding: seq<Outpoint>, feeAvail: seq<Outpoint>) returns (feeRest: seq<Outpoint>)
    ensures OutpointKeySet(feeRest) !! OutpointKeySet(funding)
    ensures forall u :: multiset(feeRest)[u] == if OutpointKey(u) in OutpointKeySet(funding) then 0 else multiset(feeAvail)[u]
  {
    hide OutpointKey;
    var skip: set<string> := {};
    for i := 0 to |funding|
      invariant skip == OutpointKeySet(funding[..i])
    {
      assert funding[..i + 1] == funding[..i] + [funding[i]];
      skip := skip + {OutpointKey(funding[i])};
    }
    assert funding[..|funding|] == funding;
    feeRest := [];
    for i := 0 to |feeAvail|
      invariant forall u | u in feeRest :: OutpointKey(u) !in skip
      invariant forall u :: multiset(feeRest)[u] == if OutpointKey(u) in skip then 0 else multiset(feeAvail[..i])[u]
    {
      assert feeAvail[..i + 1] == feeAvail[..i] + [feeAvail[i]];
      if OutpointKey(feeAvail[i]) !in skip { feeRest := feeRest + [feeAvail[i]]; }
    }
    assert feeAvail[..|feeAvail|] == feeAvail;
  }

  // ---- The book ------------------------------------------------------------

  datatype BookOrder = BookOrder(status: Status, mine: bool, utxos: seq<UtxoEntry>, feeUtxos: seq<Outpoint>)

  datatype Reservation = Reservation(fee: seq<string>, fund: seq<string>)

  datatype Ledger = Ledger(orders: map<string, BookOrder>, reserved: map<string, Reservation>, history: set<string>)

  predicate LockReleased(st: Status) {
    IsOrderTerminal(st) || st == RolledBack
  }

  function OrderKeys(o: BookOrder): set<string> {
    (set e | e in o.utxos :: EntryKey(e)) + (set u | u in o.feeUtxos :: OutpointKey(u))
  }

  function ReservedKeys(r: Reservation): set<string> {
    (set k | k in r.fee) + (set k | k in r.fund)
  }

  /** The keys an order holds now, by itself or through a take in flight. */
  function Held(b: Ledger, id: string): set<string> {
    if id !in b.orders || LockReleased(b.orders[id].status) then {}
    else OrderKeys(b.orders[id]) + (if id in b.reserved then ReservedKeys(b.reserved[id]) else {})
  }

  function Locked(b: Ledger): set<string> {
    set id, k | id in b.orders && k in Held(b, id) :: k
  }

  datatype Outcome = OrderBusy | KeyCollision | OrderGone | ReserveOk

  function Reserve(b: Ledger, id: string, fee: seq<string>, fund: seq<string>): (Ledger, Outcome) {
    if id !in b.orders || IsOrderTerminal(b.orders[id].status) then (b, OrderGone)
    else if id in b.reserved then (b, OrderBusy)
    else if exists k | k in fee :: k in Locked(b) then (b, KeyCollision)
    else if exists k | k in fund :: k in Locked(b) then (b, KeyCollision)
    else (if |fee| + |fund| > 0 then b.(reserved := b.reserved[id := Reservation(fee, fund)]) else b, ReserveOk)
  }

  function Release(b: Ledger, id: string): Ledger {
    b.(reserved := b.reserved - {id})
  }

  /** The taken order carries the proofs of its funding and its fee inputs. */
  function TakenOrder(utxos: seq<UtxoEntry>, feeUtxos: seq<Outpoint>): BookOrder {
    BookOrder(Accepting, true, utxos, feeUtxos)
  }

  /** Commit on the engine: the live record takes the inputs, then the reservation goes. */
  function Commit(b: Ledger, id: string, utxos: seq<UtxoEntry>, feeUtxos: seq<Outpoint>): Ledger {
    if id !in b.orders then Release(b, id)
    else Release(b.(orders := b.orders[id := TakenOrder(utxos, feeUtxos)]), id)
  }

  /** A failed persist or send puts the pre-take record back. */
  function Revert(b: Ledger, id: string, prev: BookOrder): Ledger {
    if id in b.orders then b.(orders := b.orders[id := prev]) else b
  }

  /** Cancel, expiry, drop: the order leaves the book. */
  function Shelve(b: Ledger, id: string): Ledger {
    if id !in b.orders then b else Ledger(b.orders - {id}, b.reserved, b.history + {id})
  }

  function SetStatus(b: Ledger, id: string, st: Status): Ledger {
    if id !in b.orders then b else b.(orders := b.orders[id := b.orders[id].(status := st)])
  }

  /** A hub reject clears the inputs and opens the order again. */
  function Reject(b: Ledger, id: string): Ledger {
    if id !in b.orders then b else b.(orders := b.orders[id := BookOrder(Open, false, [], [])])
  }

  /** A new order from the network locks nothing; a known id is not added again. */
  function AddOrder(b: Ledger, id: string): Ledger {
    if id in b.orders || id in b.history then b
    else b.(orders := b.orders[id := BookOrder(Open, false, [], [])])
  }

  // ---- The store -----------------------------------------------------------

  /** The maps the store changes in place under its mutex. */
  class Store {
    var orders: map<string, BookOrder>
    var reserved: map<string, Reservation>
    var history: set<string>

    function View(): Ledger
      reads this
    {
      Ledger(orders, reserved, history)
    }

    constructor ()
      ensures View() == Ledger(map[], map[], {})
    {
      orders, reserved, history := map[], map[], {};
    }

    /** Every key locked by an order's inputs or a reservation. */
    method LockedUtxoInfo() returns (keys: set<string>)
      ensures keys == Locked(View())
    {
      hide OwnLocked; hide TakeLocked;
      var own := OrderInputs();
      var taken := TakeInputs();
      keys := own + taken;
      LockedSplits(View());
    }

    /** The keys of the takes in flight for orders whose locks are not released. */
    method TakeInputs() returns (keys: set<string>)
      ensures keys == TakeLocked(View(), reserved.Keys)
    {
      hide OrderKeys; hide ReservedKeys; hide TakeLocked;
      ghost var b := View();
      keys := {};
      var ids := reserved.Keys;
      ghost var done: set<string> := {};
      NoneLocked(b);
      while ids != {}
        invariant ids + done == reserved.Keys && ids !! done
        invariant keys == TakeLocked(b, done)
        decreases |ids|
      {
        var id :| id in ids;
        TakeGrows(b, done, id);
        if id in orders && !LockReleased(orders[id].status) {
          keys := keys + ReservedKeys(reserved[id]);
        }
        ids, done := ids - {id}, done + {id};
      }
      assert done == reserved.Keys;
    }

    /** The inputs of the orders whose locks are not released. */
    method OrderInputs() returns (keys: set<string>)
      ensures keys == OwnLocked(View(), orders.Keys)
    {
      hide OrderKeys; hide OwnLocked; hide TakeLocked;
      ghost var b := View();
      keys := {};
      var ids := orders.Keys;
      ghost var done: set<string> := {};
      NoneLocked(b);
      while ids != {}
        invariant ids + done == orders.Keys && ids !! done
        invariant keys == OwnLocked(b, done)
        decreases |ids|
      {
        var id :| id in ids;
        OwnGrows(b, done, id);
        if !LockReleased(orders[id].status) {
          var more := OrderKeySet(orders[id]);
          keys := keys + more;
        }
        ids, done := ids - {id}, done + {id};
      }
      assert done == orders.Keys;
    }

    /** The keys of one order, input by input. */
    method OrderKeySet(o: BookOrder) returns (keys: set<string>)
      ensures keys == OrderKeys(o)
    {
      keys := {};
      for i := 0 to |o.utxos|
        invariant keys == set e | e in o.utxos[..i] :: EntryKey(e)
      {
        keys := keys + {EntryKey(o.utxos[i])};
        assert o.utxos[..i + 1] == o.utxos[..i] + [o.utxos[i]];
      }
      assert o.utxos[..|o.utxos|] == o.utxos;
      ghost var first := keys;
      for i := 0 to |o.feeUtxos|
        invariant keys == first + set u | u in o.feeUtxos[..i] :: OutpointKey(u)
      {
        keys := keys + {OutpointKey(o.feeUtxos[i])};
        assert o.feeUtxos[..i + 1] == o.feeUtxos[..i] + [o.feeUtxos[i]];
      }
      assert o.feeUtxos[..|o.feeUtxos|] == o.feeUtxos;
    }

    method ReserveForTake(id: string, fee: seq<string>, fund: seq<string>) returns (r: Outcome)
      modifies this
      ensures (View(), r) == Reserve(old(View()), id, fee, fund)
    {
      if id !in orders || IsOrderTerminal(orders[id].status) { return OrderGone; }
      if id in reserved { return OrderBusy; }
      var locked := LockedUtxoInfo();
      for i := 0 to |fee|
        invariant forall k | 0 <= k < i :: fee[k] !in locked
      {
        if fee[i] in locked { return KeyCollision; }
      }
      for i := 0 to |fund|
        invariant forall k | 0 <= k < i :: fund[k] !in locked
      {
        if fund[i] in locked { return KeyCollision; }
      }
      if |fee| + |fund| > 0 { reserved := reserved[id := Reservation(fee, fund)]; }
      return ReserveOk;
    }

    method ReleaseReserve(id: string)
      modifies this
      ensures View() == Release(old(View()), id)
    {
      reserved := reserved - {id};
    }

    /** The engine unit of a take up to its release; `prev` is what a revert puts back. */
    method CommitTake(id: string, utxos: seq<UtxoEntry>, feeUtxos: seq<Outpoint>) returns (prev: Option<BookOrder>)
      modifies this
      ensures View() == Commit(old(View()), id, utxos, feeUtxos)
      ensures prev == if id in old(orders) then Some(old(orders[id])) else None
    {
      if id !in orders {
        ReleaseReserve(id);
        return None;
      }
      prev := Some(orders[id]);
      orders := orders[id := TakenOrder(utxos, feeUtxos)];
      ReleaseReserve(id);
    }

    method RevertTake(id: string, prev: BookOrder)
      modifies this
      ensures View() == Revert(old(View()), id, prev)
    {
      if id in orders { orders := orders[id := prev]; }
    }

    method MoveToHistory(id: string)
      modifies this
      ensures View() == Shelve(old(View()), id)
    {
      if id !in orders { return; }
      orders := orders - {id};
      history := history + {id};
    }
  }

  /** What an order locks by its own inputs. */
  function OwnOf(b: Ledger, id: string): set<string> {
    if id !in b.orders || LockReleased(b.orders[id].status) then {} else OrderKeys(b.orders[id])
  }

  /** What an order locks through a take in flight. */
  function TakeOf(b: Ledger, id: string): set<string> {
    if id !in b.orders || LockReleased(b.orders[id].status) || id !in b.reserved then {}
    else ReservedKeys(b.reserved[id])
  }

  function OwnLocked(b: Ledger, ids: set<string>): set<string> {
    set id, k | id in ids && k in OwnOf(b, id) :: k
  }

  function TakeLocked(b: Ledger, ids: set<string>): set<string> {
    set id, k | id in ids && k in TakeOf(b, id) :: k
  }

  lemma NoneLocked(b: Ledger)
    ensures OwnLocked(b, {}) == {} && TakeLocked(b, {}) == {}
  {
  }

  lemma OwnGrows(b: Ledger, ids: set<string>, id: string)
    ensures OwnLocked(b, ids + {id}) == OwnLocked(b, ids) + OwnOf(b, id)
  {
    hide OwnOf;
  }

  lemma TakeGrows(b: Ledger, ids: set<string>, id: string)
    ensures TakeLocked(b, ids + {id}) == TakeLocked(b, ids) + TakeOf(b, id)
  {
    hide TakeOf;
  }

  lemma LockedSplits(b: Ledger)
    ensures OwnLocked(b, b.orders.Keys) + TakeLocked(b, b.reserved.Keys) == Locked(b)
  {
    hide OrderKeys; hide ReservedKeys;
    var all := OwnLocked(b, b.orders.Keys) + TakeLocked(b, b.reserved.Keys);
    forall k | k in Locked(b) ensures k in all {
      var id :| id in b.orders && k in Held(b, id);
      assert k in OwnOf(b, id) || k in TakeOf(b, id);
    }
    forall k | k in all ensures k in Locked(b) {
      if k in OwnLocked(b, b.orders.Keys) {
        var id :| id in b.orders && k in OwnOf(b, id);
        assert k in Held(b, id);
      } else {
        var id :| id in b.reserved && k in TakeOf(b, id);
        assert k in Held(b, id);
      }
    }
  }
}
