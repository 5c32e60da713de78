/** Takes of distinct orders, in any interleaving, hold disjoint inputs. */
module TakeExclusion {
  import opened Wrappers
  import opened SwapTypes
  import opened OrderStore

  /** A take between its reservation and its end.  Committed, it remembers what a revert restores. */
  datatype Flight =
    | Reserved(utxos: seq<UtxoEntry>, feeUtxos: seq<Outpoint>)
    | Committed(prev: BookOrder)

  datatype System = System(b: Ledger, flights: map<string, Flight>)

  datatype Event =
    | Take(id: string, utxos: seq<UtxoEntry>, feeUtxos: seq<Outpoint>)
    | Commit(id: string)
    | Abort(id: string)
    | Finish(id: string)
    | Revert(id: string)
    | Remove(id: string)                  // cancel, expiry or drop: the order goes to history
    | Restatus(id: string, st: Status)
    | Rejected(id: string)
    | Arrive(id: string)

  function EntryKeys(utxos: seq<UtxoEntry>): (ks: seq<string>)
    ensures |ks| == |utxos| && forall i | 0 <= i < |ks| :: ks[i] == EntryKey(utxos[i])
  {
    seq(|utxos|, i requires 0 <= i < |utxos| => EntryKey(utxos[i]))
  }

  function OutpointKeys(us: seq<Outpoint>): (ks: seq<string>)
    ensures |ks| == |us| && forall i | 0 <= i < |ks| :: ks[i] == OutpointKey(us[i])
  {
    seq(|us|, i requires 0 <= i < |us| => OutpointKey(us[i]))
  }

  /** An order nobody has taken yet locks nothing. */
  predicate Free(o: BookOrder) {
    !o.mine && o.utxos == [] && o.feeUtxos == [] && !LockReleased(o.status)
  }

  /** The engine runs one unit at a time; a commit and its outcome are one unit. */
  predicate Between(s: System) {
    forall id | id in s.flights :: s.flights[id].Reserved?
  }

  /** The status takes a released order back into the ones that lock their coins. */
  predicate Revives(b: Ledger, id: string, st: Status) {
    id in b.orders && LockReleased(b.orders[id].status) && !LockReleased(st)
  }

  /** The keys the order holds once it is not released. */
  function WouldHold(b: Ledger, id: string): set<string>
    requires id in b.orders
  {
    OrderKeys(b.orders[id]) + (if id in b.reserved then ReservedKeys(b.reserved[id]) else {})
  }

  predicate Enabled(s: System, ev: Event) {
    match ev
    case Take(id, utxos, _) =>
      id !in s.flights && utxos != [] && (id in s.b.orders ==> Free(s.b.orders[id]))
    case Commit(id) => id in s.flights && Between(s)
    case Abort(id) => id in s.flights && s.flights[id].Reserved?
    case Finish(id) => id in s.flights && s.flights[id].Committed?
    case Revert(id) => id in s.flights && s.flights[id].Committed?
    case Remove(_) => Between(s)
    // Only our own orders are cancelled in place; one comes back to life only with coins nobody holds.
    case Restatus(id, st) =>
      Between(s) && (id in s.b.orders ==>
        (Revives(s.b, id, st) ==> WouldHold(s.b, id) !! Locked(s.b))
        && (!s.b.orders[id].mine ==> !LockReleased(st)))
    case Rejected(id) => Between(s) && (id in s.b.orders ==> s.b.orders[id].mine)
    case Arrive(_) => Between(s)
  }

  function Step(s: System, ev: Event): System
    requires Enabled(s, ev)
  {
    match ev
    case Take(id, utxos, feeUtxos) =>
      var r := Reserve(s.b, id, OutpointKeys(feeUtxos), EntryKeys(utxos));
      if r.1.ReserveOk? then System(r.0, s.flights[id := Flight.Reserved(utxos, feeUtxos)]) else s
    case Commit(id) =>
      var f := s.flights[id];
      System(OrderStore.Commit(s.b, id, f.utxos, f.feeUtxos),
             if id in s.b.orders then s.flights[id := Committed(s.b.orders[id])] else s.flights - {id})
    case Abort(id) => System(Release(s.b, id), s.flights - {id})
    case Finish(id) => System(s.b, s.flights - {id})
    case Revert(id) => System(OrderStore.Revert(s.b, id, s.flights[id].prev), s.flights - {id})
    case Remove(id) => System(Shelve(s.b, id), s.flights)
    case Restatus(id, st) => System(SetStatus(s.b, id, st), s.flights)
    case Rejected(id) => System(Reject(s.b, id), s.flights)
    case Arrive(id) => System(AddOrder(s.b, id), s.flights)
  }

  predicate Disjoint(b: Ledger) {
    forall i, j | i in b.orders && j in b.orders && i != j :: Held(b, i) !! Held(b, j)
  }

  /** A reserved take holds exactly its inputs' keys, for an order nobody else took. */
  predicate FlightFits(b: Ledger, id: string, f: Flight) {
    match f
    case Reserved(utxos, feeUtxos) =>
      && id in b.reserved && b.reserved[id] == Reservation(OutpointKeys(feeUtxos), EntryKeys(utxos))
      && (if id in b.orders then Free(b.orders[id]) else id in b.history)
    case Committed(prev) => id !in b.reserved && Free(prev) && id in b.orders
  }

  predicate Inv(s: System) {
    && Disjoint(s.b)
    && (forall id | id in s.flights :: FlightFits(s.b, id, s.flights[id]))
    && (forall id | id in s.b.reserved :: id in s.flights && s.flights[id].Reserved?)
    && (forall id | id in s.b.orders :: id !in s.b.history)
  }

  /** If only one order's keys change, and only to keys nobody else holds, exclusion stays. */
  lemma OneChanges(b: Ledger, c: Ledger, id: string)
    requires Disjoint(b)
    requires forall j | j in c.orders && j != id :: j in b.orders && Held(c, j) == Held(b, j)
    requires id in c.orders ==> forall j | j in b.orders && j != id :: Held(c, id) !! Held(b, j)
    ensures Disjoint(c)
  {
  }

  lemma OthersSame(b: Ledger, c: Ledger, id: string)
    requires forall j | j != id :: (j in b.orders <==> j in c.orders) && (j in b.reserved <==> j in c.reserved)
    requires forall j | j != id && j in b.orders :: c.orders[j] == b.orders[j]
    requires forall j | j != id && j in b.reserved :: c.reserved[j] == b.reserved[j]
    ensures forall j | j != id :: Held(c, j) == Held(b, j)
  {
    hide OrderKeys; hide ReservedKeys;
  }

  lemma HeldLocked(b: Ledger, j: string)
    ensures Held(b, j) <= Locked(b)
  {
    hide OrderKeys; hide ReservedKeys;
    forall k | k in Held(b, j) ensures k in Locked(b) { assert j in b.orders; }
  }

  lemma TakeKeeps(s: System, ev: Event)
    requires Inv(s) && Enabled(s, ev) && ev.Take?
    ensures Inv(Step(s, ev))
  {
    var id := ev.id;
    var fee, fund := OutpointKeys(ev.feeUtxos), EntryKeys(ev.utxos);
    var r := Reserve(s.b, id, fee, fund);
    if r.1.ReserveOk? {
      var c := r.0;
      hide OrderKeys;
      OthersSame(s.b, c, id);
      FreeHoldsNothing(s.b.orders[id]);
      assert Held(c, id) == ReservedKeys(c.reserved[id]);
      forall j | j in s.b.orders && j != id ensures Held(c, id) !! Held(s.b, j) { HeldLocked(s.b, j); }
      OneChanges(s.b, c, id);
    }
  }

  lemma FreeHoldsNothing(o: BookOrder)
    requires Free(o)
    ensures OrderKeys(o) == {}
  {
  }

  /** The keys of a taken order are the keys its reservation held. */
  lemma SameKeys(utxos: seq<UtxoEntry>, feeUtxos: seq<Outpoint>)
    ensures OrderKeys(TakenOrder(utxos, feeUtxos)) == ReservedKeys(Reservation(OutpointKeys(feeUtxos), EntryKeys(utxos)))
  {
    var a, b := OrderKeys(TakenOrder(utxos, feeUtxos)), ReservedKeys(Reservation(OutpointKeys(feeUtxos), EntryKeys(utxos)));
    forall k | k in a ensures k in b {
      if e :| e in utxos && EntryKey(e) == k {
        var i :| 0 <= i < |utxos| && utxos[i] == e;
        assert EntryKeys(utxos)[i] == k;
      } else {
        var u :| u in feeUtxos && OutpointKey(u) == k;
        var i :| 0 <= i < |feeUtxos| && feeUtxos[i] == u;
        assert OutpointKeys(feeUtxos)[i] == k;
      }
    }
    forall k | k in b ensures k in a {
      if k in EntryKeys(utxos) {
        var i :| 0 <= i < |utxos| && EntryKeys(utxos)[i] == k;
        assert utxos[i] in utxos;
      } else {
        var i :| 0 <= i < |feeUtxos| && OutpointKeys(feeUtxos)[i] == k;
        assert feeUtxos[i] in feeUtxos;
      }
    }
  }

  /** The hand-over from reservation to order leaves the keys locked without a gap. */
  lemma CommitKeepsHeld(s: System, id: string)
    requires Inv(s) && id in s.flights && s.flights[id].Reserved? && id in s.b.orders
    ensures var c := OrderStore.Commit(s.b, id, s.flights[id].utxos, s.flights[id].feeUtxos);
            Held(c, id) == Held(s.b, id) == ReservedKeys(s.b.reserved[id])
  {
    hide OrderKeys; hide ReservedKeys;
    FreeHoldsNothing(s.b.orders[id]);
    SameKeys(s.flights[id].utxos, s.flights[id].feeUtxos);
  }

  lemma CommitKeeps(s: System, ev: Event)
    requires Inv(s) && Enabled(s, ev) && ev.Commit?
    ensures Inv(Step(s, ev))
  {
    hide OrderKeys; hide ReservedKeys;
    var c := Step(s, ev).b;
    OthersSame(s.b, c, ev.id);
    if ev.id in s.b.orders { CommitKeepsHeld(s, ev.id); }
    OneChanges(s.b, c, ev.id);
  }

  lemma FinishKeeps(s: System, ev: Event)
    requires Inv(s) && Enabled(s, ev) && ev.Finish?
    ensures Inv(Step(s, ev))
  {
    hide Disjoint; hide Locked;
  }

  lemma AbortKeeps(s: System, ev: Event)
    requires Inv(s) && Enabled(s, ev) && ev.Abort?
    ensures Inv(Step(s, ev))
  {
    hide OrderKeys; hide ReservedKeys; hide Locked;
    var c := Step(s, ev).b;
    OthersSame(s.b, c, ev.id);
    if ev.id in s.b.orders {
      FreeHoldsNothing(s.b.orders[ev.id]);
      assert Held(c, ev.id) == {};
    }
    OneChanges(s.b, c, ev.id);
  }

  lemma RevertKeeps(s: System, ev: Event)
    requires Inv(s) && Enabled(s, ev) && ev.Revert?
    ensures Inv(Step(s, ev))
  {
    hide OrderKeys; hide ReservedKeys;
    var c := Step(s, ev).b;
    OthersSame(s.b, c, ev.id);
    FreeHoldsNothing(c.orders[ev.id]);
    OneChanges(s.b, c, ev.id);
  }

  lemma BookKeeps(s: System, ev: Event)
    requires Inv(s) && Enabled(s, ev) && (ev.Remove? || ev.Rejected? || ev.Arrive?)
    ensures Inv(Step(s, ev))
  {
    var id := ev.id;
    var c := Step(s, ev).b;
    OthersSame(s.b, c, id);
    if id in c.orders && (ev.Rejected? || (ev.Arrive? && id !in s.b.orders)) { FreeHoldsNothing(c.orders[id]); }
    hide OrderKeys; hide ReservedKeys;
    assert id in s.b.orders && id in c.orders ==> Held(c, id) <= Held(s.b, id);
    OneChanges(s.b, c, id);
  }

  /** A change of status keeps the exclusion exactly if it does not revive an order, or revives
      one whose coins nobody holds. */
  lemma RevivalIsExact(b: Ledger, id: string, st: Status)
    requires Disjoint(b) && id in b.orders
    ensures Disjoint(SetStatus(b, id, st)) <==> (Revives(b, id, st) ==> WouldHold(b, id) !! Locked(b))
  {
    var c := SetStatus(b, id, st);
    OthersSame(b, c, id);
    SameCoins(b, id, st);
    hide OrderKeys; hide ReservedKeys;
    if Revives(b, id, st) && !(WouldHold(b, id) !! Locked(b)) {
      var k :| k in WouldHold(b, id) && k in Locked(b);
      var j :| j in b.orders && k in Held(b, j);
      assert k in Held(c, id) && k in Held(c, j) && j != id;
    } else {
      forall j | j in b.orders && j != id ensures Held(c, id) !! Held(b, j) { HeldLocked(b, j); }
      OneChanges(b, c, id);
    }
  }

  lemma SameCoins(b: Ledger, id: string, st: Status)
    requires id in b.orders
    ensures Held(SetStatus(b, id, st), id) == if LockReleased(st) then {} else WouldHold(b, id)
  {
    assert OrderKeys(b.orders[id].(status := st)) == OrderKeys(b.orders[id]);
    hide OrderKeys; hide ReservedKeys;
  }

  lemma StatusKeeps(s: System, ev: Event)
    requires Inv(s) && Enabled(s, ev) && ev.Restatus?
    ensures Inv(Step(s, ev))
  {
    if ev.id in s.b.orders { RevivalIsExact(s.b, ev.id, ev.st); }
    hide OrderKeys; hide ReservedKeys; hide Disjoint; hide Locked;
  }

  predicate Initial(s: System) {
    s.flights == map[] && s.b.reserved == map[] && s.b.history == {}
    && forall id | id in s.b.orders :: Free(s.b.orders[id])
  }

  ghost predicate IsRun(ss: seq<System>, evs: seq<Event>) {
    && |ss| == |evs| + 1 && Initial(ss[0])
    && forall i | 0 <= i < |evs| :: Enabled(ss[i], evs[i]) && ss[i + 1] == Step(ss[i], evs[i])
  }

  lemma {:induction false} RunKeeps(ss: seq<System>, evs: seq<Event>, n: nat)
    requires IsRun(ss, evs) && n < |ss|
    ensures Inv(ss[n])
  {
    hide OrderKeys; hide ReservedKeys; hide Step; hide Enabled;
    if n == 0 {
      forall i | i in ss[0].b.orders ensures Held(ss[0].b, i) == {} { FreeHoldsNothing(ss[0].b.orders[i]); }
    } else {
      RunKeeps(ss, evs, n - 1);
      var s, ev := ss[n - 1], evs[n - 1];
      assert ss[n - 1 + 1] == Step(s, ev);
      hide Inv;
      match ev {
        case Take(_, _, _) => TakeKeeps(s, ev);
        case Commit(_) => CommitKeeps(s, ev);
        case Abort(_) => AbortKeeps(s, ev);
        case Finish(_) => FinishKeeps(s, ev);
        case Revert(_) => RevertKeeps(s, ev);
        case Restatus(_, _) => StatusKeeps(s, ev);
        case _ => BookKeeps(s, ev);
      }
    }
  }

  /** At any point of any interleaving no coin is held for two orders. */
  lemma TakesAreExclusive(ss: seq<System>, evs: seq<Event>, n: nat, i: string, j: string)
    requires IsRun(ss, evs) && n < |ss| && i != j && i in ss[n].b.orders && j in ss[n].b.orders
    ensures Held(ss[n].b, i) !! Held(ss[n].b, j)
  {
    hide IsRun; hide Held;
    RunKeeps(ss, evs, n);
  }

  /** While a take is in flight and its order is in the book, the take's keys are locked: from
      the reservation through the commit there is no gap. */
  lemma NoGap(ss: seq<System>, evs: seq<Event>, n: nat, id: string)
    requires IsRun(ss, evs) && n < |evs| && id in ss[n].flights && ss[n].flights[id].Reserved?
    requires id in ss[n + 1].b.orders && evs[n] != Abort(id)
    ensures Held(ss[n].b, id) == Held(ss[n + 1].b, id) && Held(ss[n].b, id) <= Locked(ss[n].b)
    ensures Held(ss[n].b, id) == ReservedKeys(Reservation(OutpointKeys(ss[n].flights[id].feeUtxos),
                                                         EntryKeys(ss[n].flights[id].utxos)))
  {
    RunKeeps(ss, evs, n);
    var s, ev := ss[n], evs[n];
    assert ss[n + 1] == Step(s, ev);
    hide IsRun; hide OrderKeys; hide ReservedKeys; hide Locked;
    HeldLocked(s.b, id);
    StillFree(s, ev, id);
    FreeHoldsNothing(s.b.orders[id]);
    if ev == Commit(id) {
      CommitKeepsHeld(s, id);
    } else {
      FreeHoldsNothing(ss[n + 1].b.orders[id]);
    }
  }

  /** Nothing but its own commit or abort touches a reserved order that stays in the book. */
  lemma StillFree(s: System, ev: Event, id: string)
    requires Inv(s) && Enabled(s, ev) && id in s.flights && s.flights[id].Reserved?
    requires id in Step(s, ev).b.orders && ev != Abort(id)
    ensures id in s.b.orders && Free(s.b.orders[id])
    ensures ev != Commit(id) ==>
              var c := Step(s, ev).b; Free(c.orders[id]) && id in c.reserved && c.reserved[id] == s.b.reserved[id]
  {
    hide OrderKeys; hide ReservedKeys; hide Locked; hide Held;
  }

  /** A run in which the guard fails: x is taken and cancelled, its coin is reserved for y, and a
      late deposit confirmation of x would have both hold it. */
  lemma RevivalBreaksExclusion(x: string, y: string, u: UtxoEntry) returns (ss: seq<System>, evs: seq<Event>)
    requires x != y
    ensures evs == [Take(x, [u], []), Commit(x), Finish(x), Restatus(x, Canceled), Take(y, [u], [])]
    ensures IsRun(ss, evs)
    ensures var b := ss[5].b;
            x in b.orders && b.orders[x].mine && Revives(b, x, Created) && Disjoint(b) && !Disjoint(SetStatus(b, x, Created))
  {
    hide Held; hide Locked; hide OrderKeys; hide ReservedKeys; hide EntryKeys; hide OutpointKeys; hide WouldHold; hide Reserve;
    var s0 := System(Ledger(map[x := OPENED, y := OPENED], map[], {}), map[]);
    evs := [Take(x, [u], []), Commit(x), Finish(x), Restatus(x, Canceled), Take(y, [u], [])];
    var s1, s2, s3 := TakeAndFinish(s0, x, y, u);
    var s4 := Step(s3, evs[3]);
    assert s4 == System(Ledger(map[x := BookOrder(Canceled, true, [u], []), y := OPENED], map[], {}), map[]);
    Taking(s4, y, u);
    var s5 := Step(s4, evs[4]);
    ss := [s0, s1, s2, s3, s4, s5];
    RunKeeps(ss, evs, 5);
    Shared(s5.b, x, y, u);
    RevivalIsExact(s5.b, x, Created);
  }

  const OPENED: BookOrder := BookOrder(Open, false, [], [])

  lemma TakeAndFinish(s0: System, x: string, y: string, u: UtxoEntry) returns (s1: System, s2: System, s3: System)
    requires x != y && s0 == System(Ledger(map[x := OPENED, y := OPENED], map[], {}), map[])
    ensures Enabled(s0, Take(x, [u], [])) && s1 == Step(s0, Take(x, [u], []))
    ensures Enabled(s1, Commit(x)) && s2 == Step(s1, Commit(x))
    ensures Enabled(s2, Finish(x)) && s3 == Step(s2, Finish(x))
    ensures s3 == System(Ledger(map[x := BookOrder(Accepting, true, [u], []), y := OPENED], map[], {}), map[])
  {
    hide Held; hide Locked; hide OrderKeys; hide ReservedKeys; hide EntryKeys; hide OutpointKeys; hide WouldHold; hide Reserve;
    Taking(s0, x, u);
    s1 := Step(s0, Take(x, [u], []));
    s2 := Step(s1, Commit(x));
    s3 := Step(s2, Finish(x));
  }

  /** With no coin locked by anybody a free order is reserved. */
  lemma Taking(s: System, id: string, u: UtxoEntry)
    requires id in s.b.orders && id !in s.b.reserved && !IsOrderTerminal(s.b.orders[id].status)
    requires forall j | j in s.b.orders :: j !in s.b.reserved && (Free(s.b.orders[j]) || LockReleased(s.b.orders[j].status))
    ensures Locked(s.b) == {}
    ensures Reserve(s.b, id, OutpointKeys([]), EntryKeys([u]))
            == (s.b.(reserved := s.b.reserved[id := Reservation(OutpointKeys([]), EntryKeys([u]))]), ReserveOk)
  {
    forall j | j in s.b.orders ensures Held(s.b, j) == {} {
      if Free(s.b.orders[j]) { FreeHoldsNothing(s.b.orders[j]); }
    }
  }

  lemma Shared(b: Ledger, x: string, y: string, u: UtxoEntry)
    requires x in b.orders && y in b.orders && y in b.reserved && !LockReleased(b.orders[y].status)
    requires b.orders[x].utxos == [u] && b.reserved[y] == Reservation(OutpointKeys([]), EntryKeys([u]))
    ensures EntryKey(u) in WouldHold(b, x) && EntryKey(u) in Locked(b)
  {
    hide EntryKey;
    assert EntryKeys([u])[0] == EntryKey(u);
    assert EntryKey(u) in Held(b, y);
  }
}
