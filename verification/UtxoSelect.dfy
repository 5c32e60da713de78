/** Choosing the coins of a partial order. */
module UtxoSelect {

  /** A wallet output: its outpoint and its value in order units. */
  datatype Utxo = Utxo(txid: string, vout: nat, camount: nat)

  datatype Need = Need(
    amount: nat,        // the order's amount
    count: nat,         // outputs the order wants
    feePerUtxo: nat,
    splitSize: nat,
    remainder: nat)

  function Sum(s: seq<Utxo>): nat {
    if s == [] then 0 else Sum(s[..|s| - 1]) + s[|s| - 1].camount
  }

  /** What the splits cost, each with its fee. */
  function Splits(q: Need): nat {
    (q.splitSize + q.feePerUtxo) * q.count
  }

  /** What the remainder output costs, when there is one. */
  function Remainder(q: Need): nat {
    if q.remainder > 0 then q.remainder + q.feePerUtxo else 0
  }

  /** What must be covered when a preparing transaction with k inputs is needed. */
  function PrepNeed(q: Need, prepFee: int -> nat, k: int): nat {
    Splits(q) + Remainder(q) + prepFee(k)
  }

  /** Chosen and remaining outputs make up the wallet's, and `used` is what the chosen are worth. */
  ghost predicate Divides(chosen: seq<Utxo>, rest: seq<Utxo>, all: seq<Utxo>, used: int) {
    multiset(chosen) + multiset(rest) == multiset(all) && used == Sum(chosen)
  }

  lemma SumSnoc(s: seq<Utxo>, u: Utxo)
    ensures Sum(s + [u]) == Sum(s) + u.camount
  {
    assert (s + [u])[..|s|] == s;
  }

  lemma Without(s: seq<Utxo>, i: nat)
    requires i < |s|
    ensures multiset(s) == multiset(s[..i] + s[i + 1..]) + multiset{s[i]}
  {
    assert s == s[..i] + [s[i]] + s[i + 1..];
  }

  /** Moving the i-th remaining output over to the chosen ones. */
  lemma Move(chosen: seq<Utxo>, rest: seq<Utxo>, all: seq<Utxo>, used: int, i: nat)
    requires i < |rest| && Divides(chosen, rest, all, used)
    ensures Divides(chosen + [rest[i]], rest[..i] + rest[i + 1..], all, used + rest[i].camount)
  {
    SumSnoc(chosen, rest[i]);
    Without(rest, i);
  }

  predicate Before(a: Utxo, b: Utxo, ascending: bool) {
    if ascending then a.camount <= b.camount else a.camount >= b.camount
  }

  predicate Sorted(s: seq<Utxo>, ascending: bool) {
    forall i, j | 0 <= i < j < |s| :: Before(s[i], s[j], ascending)
  }

  /** The library sort: any order of equals will do. */
  method Sort(s: seq<Utxo>, ascending: bool) returns (r: seq<Utxo>)
    ensures multiset(r) == multiset(s) && Sorted(r, ascending)
  {
    r := [];
    for n := 0 to |s|
      invariant multiset(r) == multiset(s[..n]) && Sorted(r, ascending)
    {
      r := Insert(r, s[n], ascending);
      assert s[..n + 1] == s[..n] + [s[n]];
    }
    assert s[..|s|] == s;
  }

  method Insert(s: seq<Utxo>, u: Utxo, ascending: bool) returns (r: seq<Utxo>)
    requires Sorted(s, ascending)
    ensures multiset(r) == multiset(s) + multiset{u} && Sorted(r, ascending)
  {
    var k := 0;
    while k < |s| && Before(s[k], u, ascending)
      invariant k <= |s| && forall j | 0 <= j < k :: Before(s[j], u, ascending)
    {
      k := k + 1;
    }
    r := s[..k] + [u] + s[k..];
    assert multiset(r) == multiset(s) + multiset{u} by { assert s == s[..k] + s[k..]; }
    assert k < |s| ==> Before(u, s[k], ascending);
    InsertSorted(s, u, k, ascending);
  }

  lemma InsertSorted(s: seq<Utxo>, u: Utxo, k: nat, ascending: bool)
    requires k <= |s| && Sorted(s, ascending)
    requires forall j | 0 <= j < k :: Before(s[j], u, ascending)
    requires k < |s| ==> Before(u, s[k], ascending)
    ensures Sorted(s[..k] + [u] + s[k..], ascending)
  {
    var r := s[..k] + [u] + s[k..];
    forall i, j | 0 <= i < j < |r| ensures Before(r[i], r[j], ascending) {
      assert r[i] == if i < k then s[i] else if i == k then u else s[i - 1];
      assert r[j] == if j < k then s[j] else if j == k then u else s[j - 1];
      if i == k && j - 1 > k { assert Before(s[k], s[j - 1], ascending); }
    }
  }

  lemma SameCoins(chosen: seq<Utxo>, rest: seq<Utxo>, rest': seq<Utxo>, all: seq<Utxo>, used: int)
    requires Divides(chosen, rest, all, used) && multiset(rest') == multiset(rest)
    ensures Divides(chosen, rest', all, used)
  {
  }

  /** The outputs that match a split or the remainder exactly. */
  method TakeIdeal(q: Need, all: seq<Utxo>)
    returns (chosen: seq<Utxo>, rest: seq<Utxo>, used: int, fees: nat, ideal: nat)
    ensures Divides(chosen, rest, all, used) && fees == q.feePerUtxo * |chosen| && ideal <= |chosen|
    ensures forall k | 0 <= k < |chosen| ::
              chosen[k].camount == q.splitSize + q.feePerUtxo || (q.remainder > 0 && chosen[k].camount == q.remainder)
  {
    chosen, rest, used, fees, ideal := [], all, 0, 0, 0;
    var i := 0;
    while i < |rest|
      invariant i <= |rest| && Divides(chosen, rest, all, used)
      invariant fees == q.feePerUtxo * |chosen| && ideal <= |chosen|
      invariant forall k | 0 <= k < |chosen| ::
        chosen[k].camount == q.splitSize + q.feePerUtxo || (q.remainder > 0 && chosen[k].camount == q.remainder)
      decreases |rest| - i
    {
      var u := rest[i];
      var isSplit := u.camount == q.splitSize + q.feePerUtxo && used < Splits(q);
      if isSplit || (q.remainder > 0 && u.camount == q.remainder) {
        Move(chosen, rest, all, used, i);
        assert q.feePerUtxo * (|chosen| + 1) == q.feePerUtxo * |chosen| + q.feePerUtxo;
        chosen, rest, used := chosen + [u], rest[..i] + rest[i + 1..], used + u.camount;
        fees := fees + q.feePerUtxo;
        if isSplit { ideal := ideal + 1; }
        continue;
      }
      if q.amount <= used { break; }
      i := i + 1;
    }
  }

  /** One output worth exactly what is still missing. */
  method TakeExactRest(q: Need, all: seq<Utxo>, chosen0: seq<Utxo>, rest0: seq<Utxo>, used0: int, fees0: nat)
    returns (chosen: seq<Utxo>, rest: seq<Utxo>, used: int, fees: nat)
    requires Divides(chosen0, rest0, all, used0) && fees0 == q.feePerUtxo * |chosen0|
    ensures Divides(chosen, rest, all, used) && fees == q.feePerUtxo * |chosen| && |chosen0| <= |chosen|
    ensures Sorted(rest0, true) ==> Sorted(rest, true)
  {
    chosen, rest, used, fees := chosen0, rest0, used0, fees0;
    var i := 0;
    while i < |rest|
      invariant i <= |rest| && chosen == chosen0 && rest == rest0 && used == used0 && fees == fees0
    {
      var u := rest[i];
      if u.camount == q.amount + fees + q.feePerUtxo - used {
        Move(chosen, rest, all, used, i);
        assert q.feePerUtxo * (|chosen| + 1) == q.feePerUtxo * |chosen| + q.feePerUtxo;
        chosen, rest, used := chosen + [u], rest[..i] + rest[i + 1..], used + u.camount;
        fees := fees + q.feePerUtxo;
        break;
      }
      i := i + 1;
    }
  }

  /** Outputs of at least a split, smallest first, until the need is met. */
  method TakeBig(q: Need, prepFee: int -> nat, all: seq<Utxo>, chosen0: seq<Utxo>, rest0: seq<Utxo>, used0: int, ideal: nat)
    returns (chosen: seq<Utxo>, rest: seq<Utxo>, used: int)
    requires Divides(chosen0, rest0, all, used0) && Sorted(rest0, true) && ideal <= |chosen0|
    ensures Divides(chosen, rest, all, used) && Sorted(rest, true) && |chosen0| <= |chosen|
    ensures used >= PrepNeed(q, prepFee, |chosen| - ideal + 1)
            || forall k | 0 <= k < |rest| :: rest[k].camount < q.splitSize + q.feePerUtxo
  {
    chosen, rest, used := chosen0, rest0, used0;
    var count := |chosen| - ideal + 1;
    var i := 0;
    while i < |rest|
      invariant i <= |rest| && Divides(chosen, rest, all, used) && Sorted(rest, true)
      invariant count == |chosen| - ideal + 1 && |chosen0| <= |chosen|
      invariant forall k | 0 <= k < i :: rest[k].camount < q.splitSize + q.feePerUtxo
      decreases |rest| - i
    {
      var u := rest[i];
      if PrepNeed(q, prepFee, count) - used <= 0 { break; }
      if u.camount >= q.splitSize + q.feePerUtxo {
        Move(chosen, rest, all, used, i);
        chosen, rest, used, count := chosen + [u], rest[..i] + rest[i + 1..], used + u.camount, count + 1;
        continue;
      }
      i := i + 1;
    }
  }

  /** The smallest single output that closes the gap. */
  method TakeCovering(target: int, all: seq<Utxo>, chosen0: seq<Utxo>, rest0: seq<Utxo>, used0: int)
    returns (chosen: seq<Utxo>, rest: seq<Utxo>, used: int)
    requires Divides(chosen0, rest0, all, used0) && used0 < target
    ensures Divides(chosen, rest, all, used) && |chosen0| <= |chosen| <= |chosen0| + 1
    ensures used < target ==> forall k | 0 <= k < |rest0| :: rest0[k].camount + used0 < target
    ensures used < target ==> chosen == chosen0 && rest == rest0 && used == used0
  {
    chosen, rest, used := chosen0, rest0, used0;
    var i := 0;
    while i < |rest|
      invariant i <= |rest| && chosen == chosen0 && rest == rest0 && used == used0
      invariant forall k | 0 <= k < i :: rest0[k].camount + used0 < target
    {
      var u := rest[i];
      if u.camount + used >= target {
        Move(chosen, rest, all, used, i);
        chosen, rest, used := chosen + [u], rest[..i] + rest[i + 1..], used + u.camount;
        return;
      }
      i := i + 1;
    }
  }

  /** The largest outputs, one after the other, until the need is met or none is left. */
  method TakeLargest(q: Need, prepFee: int -> nat, all: seq<Utxo>, chosen0: seq<Utxo>, rest0: seq<Utxo>, used0: int, ideal: nat)
    returns (chosen: seq<Utxo>, rest: seq<Utxo>, used: int)
    requires Divides(chosen0, rest0, all, used0)
    ensures Divides(chosen, rest, all, used) && |chosen0| <= |chosen|
    ensures rest == [] || used >= PrepNeed(q, prepFee, |chosen| - ideal + 1)
  {
    hide Divides; hide PrepNeed;
    chosen, used := chosen0, used0;
    rest := Sort(rest0, false);
    SameCoins(chosen, rest0, rest, all, used);
    var count := |chosen| - ideal + 1;
    while |rest| > 0
      invariant Divides(chosen, rest, all, used)
      invariant count == |chosen| - ideal + 1 && |chosen0| <= |chosen|
      decreases |rest|
    {
      var u := rest[0];
      if PrepNeed(q, prepFee, count) - used <= 0 { break; }
      Move(chosen, rest, all, used, 0);
      assert rest[..0] + rest[1..] == rest[1..];
      chosen, rest, used, count := chosen + [u], rest[1..], used + u.camount, count + 1;
    }
  }

  /** A larger preparing transaction never costs less. */
  ghost predicate FeesGrow(prepFee: int -> nat) {
    forall k {:trigger prepFee(k)} :: prepFee(k) <= prepFee(k + 1)
  }

  /** Top up to the need with the preparing fee, and judge the result. */
  method Settle(q: Need, prepFee: int -> nat, all: seq<Utxo>, chosen0: seq<Utxo>, rest0: seq<Utxo>, used0: int, ideal: nat)
    returns (out: seq<Utxo>, utxoAmount: nat, fees: nat, ok: bool, ghost tried: seq<Utxo>, ghost rest: seq<Utxo>)
    requires Divides(chosen0, rest0, all, used0) && ideal <= |chosen0|
    ensures Divides(tried, rest, all, Sum(tried)) && ideal <= |tried|
    ensures ok ==> out == tried && utxoAmount == Sum(out) && fees == q.feePerUtxo * |out|
    ensures ok ==> utxoAmount > PrepNeed(q, prepFee, |out| - ideal)
    ensures !ok ==> out == [] && utxoAmount == 0 && fees == 0
    ensures !ok && FeesGrow(prepFee) ==> Exhausted(q, prepFee, all, tried, rest, ideal)
  {
    hide Sum; hide Sorted; hide PrepNeed; hide FeesGrow; hide Divides;
    var chosen, left, used := chosen0, rest0, used0;
    var target := PrepNeed(q, prepFee, |chosen| - ideal + 1);
    if used < target { chosen, left, used := TakeCovering(target, all, chosen, left, used); }
    if used < target { chosen, left, used := TakeLargest(q, prepFee, all, chosen, left, used, ideal); }
    target := PrepNeed(q, prepFee, |chosen| - ideal);
    tried, rest := chosen, left;
    if FeesGrow(prepFee) { NeedGrows(q, prepFee, |chosen| - ideal); }
    EverythingTried(chosen, left, all, used);
    if |chosen| == 0 || used - target <= 0 {
      return [], 0, 0, false, tried, rest;
    }
    return chosen, used, |chosen| * q.feePerUtxo, true, tried, rest;
  }

  /** Nothing chosen, the need met to the unit, or the whole wallet tried and not enough. */
  predicate Exhausted(q: Need, prepFee: int -> nat, all: seq<Utxo>, tried: seq<Utxo>, rest: seq<Utxo>, ideal: nat) {
    || tried == []
    || Sum(tried) == PrepNeed(q, prepFee, |tried| - ideal)
    || (rest == [] && Sum(all) < PrepNeed(q, prepFee, |tried| - ideal))
  }

  /** The selection.  `tried` and `rest` divide the wallet whatever the outcome; success returns
      the tried outputs.  An exact success pays the order and its fees; any other success strictly
      exceeds splits, remainder and preparing fee.  It fails only with nothing chosen, with the
      whole wallet tried and still not more than the need, or with the need met to the unit. */
  method SelectPartialUtxos(q: Need, prepFee: int -> nat, outputs: seq<Utxo>)
    returns (out: seq<Utxo>, utxoAmount: nat, fees: nat, exact: bool, ok: bool,
             ghost tried: seq<Utxo>, ghost rest: seq<Utxo>, ghost ideal: nat)
    ensures Divides(tried, rest, outputs, Sum(tried)) && ideal <= |tried|
    ensures ok ==> out == tried && utxoAmount == Sum(out) && fees == q.feePerUtxo * |out|
    ensures !ok ==> out == [] && utxoAmount == 0 && fees == 0 && !exact
    ensures ok && exact ==> utxoAmount >= q.amount + q.feePerUtxo * |out| && |out| >= q.count
    ensures ok && !exact ==> utxoAmount > PrepNeed(q, prepFee, |out| - ideal)
    ensures !ok && FeesGrow(prepFee) ==> Exhausted(q, prepFee, outputs, tried, rest, ideal)
  {
    hide Sum; hide Sorted; hide Splits; hide Remainder; hide PrepNeed; hide Exhausted; hide FeesGrow;
    var used: int, nIdeal: nat;
    var chosen, left, paid;
    chosen, left, used, paid, nIdeal := TakeIdeal(q, outputs);
    ideal := nIdeal;
    if (|chosen| == q.count || (q.remainder > 0 && |chosen| == q.count + 1)) && q.amount + paid - used <= 0 {
      return chosen, used, paid, true, true, chosen, left, ideal;
    }
    var sorted := Sort(left, true);
    SameCoins(chosen, left, sorted, outputs, used);
    left := sorted;
    if |chosen| == q.count {
      chosen, left, used, paid := TakeExactRest(q, outputs, chosen, left, used, paid);
      if |chosen| >= q.count && q.amount + paid - used <= 0 {
        return chosen, used, paid, true, true, chosen, left, ideal;
      }
    } else {
      chosen, left, used := TakeBig(q, prepFee, outputs, chosen, left, used, nIdeal);
    }
    out, utxoAmount, fees, ok, tried, rest := Settle(q, prepFee, outputs, chosen, left, used, nIdeal);
    exact := false;
  }

  lemma NeedGrows(q: Need, prepFee: int -> nat, k: int)
    requires FeesGrow(prepFee)
    ensures PrepNeed(q, prepFee, k) <= PrepNeed(q, prepFee, k + 1)
  {
    hide Splits; hide Remainder;
    assert prepFee(k) <= prepFee(k + 1);
  }

  lemma EverythingTried(chosen: seq<Utxo>, rest: seq<Utxo>, all: seq<Utxo>, used: int)
    requires Divides(chosen, rest, all, used)
    ensures used == Sum(chosen)
    ensures rest == [] ==> Sum(all) == used
  {
    if rest == [] { SumOfPermutation(chosen, all); }
  }

  /** The sum does not depend on the order. */
  lemma {:induction false} SumOfPermutation(a: seq<Utxo>, b: seq<Utxo>)
    requires multiset(a) == multiset(b)
    ensures Sum(a) == Sum(b)
  {
    assert |a| == |multiset(a)| && |b| == |multiset(b)|;
    if a != [] {
      var n := |a| - 1;
      assert a == a[..n] + [a[n]];
      assert a[n] in multiset(b);
      var i :| 0 <= i < |b| && b[i] == a[n];
      var b' := b[..i] + b[i + 1..];
      SumRemove(b, i);
      Without(b, i);
      hide Sum;
      SumSnoc(a[..n], a[n]);
      assert multiset(b') == multiset(b) - multiset{a[n]};
      assert multiset(a[..n]) == multiset(a) - multiset{a[n]};
      SumOfPermutation(a[..n], b');
    }
  }

  lemma {:induction false} SumAppend(a: seq<Utxo>, b: seq<Utxo>)
    ensures Sum(a + b) == Sum(a) + Sum(b)
  {
    if b == [] {
      assert a + b == a;
    } else {
      assert (a + b)[..|a| + |b| - 1] == a + b[..|b| - 1];
      SumAppend(a, b[..|b| - 1]);
    }
  }

  lemma SumRemove(s: seq<Utxo>, i: nat)
    requires i < |s|
    ensures Sum(s[..i] + s[i + 1..]) == Sum(s) - s[i].camount
  {
    var front, back := s[..i], s[i + 1..];
    assert s == front + [s[i]] + back;
    hide Sum;
    SumAppend(front, back);
    SumSnoc(front, s[i]);
    SumAppend(front + [s[i]], back);
  }
}
