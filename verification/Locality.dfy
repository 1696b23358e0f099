/** A history over many keys is linearizable exactly when its part for each key is. */
module Locality {
  import opened Linearizability
  import opened Sorting

  /** Operations that each concern one key, and how one step changes the value of that key. */
  datatype Keyed<!K, !V, !I, !O> = Keyed(key: I -> K, blank: V, step: (V, I, O) -> (bool, V))

  function Lookup<K, V, I, O>(d: Keyed<K, V, I, O>, state: map<K, V>, k: K): V {
    if k in state then state[k] else d.blank
  }

  /** The sequential specification of the value of one key. */
  function OneKey<K, V, I, O>(d: Keyed<K, V, I, O>): Model<V, I, O> {
    Model(d.blank, d.step)
  }

  /** The sequential specification of the whole map. */
  function WholeMap<K, V, I, O>(d: Keyed<K, V, I, O>): Model<map<K, V>, I, O> {
    Model(map[], (state, input, output) =>
      var (ok, value) := d.step(Lookup(d, state, d.key(input)), input, output);
      (ok, state[d.key(input) := value]))
  }

  ghost function KeyOf<K, V, I, O>(d: Keyed<K, V, I, O>, ops: seq<Call<I, O>>, x: nat): K
    requires x < |ops|
  {
    d.key(ops[x].input)
  }

  /** The operations of `order` on key `k`, in their order. */
  ghost function Only<K, V, I, O>(d: Keyed<K, V, I, O>, ops: seq<Call<I, O>>, order: seq<nat>, k: K): (r: seq<nat>)
    ensures forall x :: x in r <==> x in order && x < |ops| && KeyOf(d, ops, x) == k
  {
    if order == [] then []
    else if order[0] < |ops| && KeyOf(d, ops, order[0]) == k then [order[0]] + Only(d, ops, order[1..], k)
    else Only(d, ops, order[1..], k)
  }

  /** The operations on other keys. */
  ghost function Foreign<K, V, I, O>(d: Keyed<K, V, I, O>, ops: seq<Call<I, O>>, k: K): set<nat> {
    set x: nat | x < |ops| && KeyOf(d, ops, x) != k
  }

  ghost predicate InRange(n: nat, order: seq<nat>) {
    forall i :: 0 <= i < |order| ==> order[i] < n
  }

  // ---------- Legality is per key

  lemma {:induction false} LegalPerKey<K(!new), V, I, O>(d: Keyed<K, V, I, O>, ops: seq<Call<I, O>>, state: map<K, V>,
      order: seq<nat>)
    requires InRange(|ops|, order)
    ensures Accepts(WholeMap(d), ops, state, order) <==>
      forall k :: Accepts(OneKey(d), ops, Lookup(d, state, k), Only(d, ops, order, k))
    decreases |order|
  {
    if order != [] {
      var x, rest := order[0], order[1..];
      assert x in order;
      var kx := KeyOf(d, ops, x);
      var value := Lookup(d, state, kx);
      var (ok, value') := d.step(value, ops[x].input, ops[x].output);
      var state' := state[kx := value'];
      assert forall y :: y in rest ==> y in order;
      LegalPerKey(d, ops, state', rest);
      assert Only(d, ops, order, kx)[1..] == Only(d, ops, rest, kx);
      assert Accepts(OneKey(d), ops, value, Only(d, ops, order, kx)) <==>
        ok && Accepts(OneKey(d), ops, value', Only(d, ops, rest, kx));
      forall k | k != kx
        ensures Only(d, ops, order, k) == Only(d, ops, rest, k) && Lookup(d, state', k) == Lookup(d, state, k)
      {
      }
      assert Lookup(d, state', kx) == value';
      assert Accepts(WholeMap(d), ops, state, order) <==> ok && Accepts(WholeMap(d), ops, state', rest);
    }
  }

  // ---------- From the whole history to one key

  lemma DistinctTail<T>(x: T, rest: seq<T>)
    ensures Distinct([x] + rest) <==> x !in rest && Distinct(rest)
  {
    var order := [x] + rest;
    assert order[0] == x && forall i :: 0 <= i < |rest| ==> order[i + 1] == rest[i];
    if Distinct(order) {
      assert x !in rest;
    }
  }

  lemma InTimeTail(before: Before, x: nat, rest: seq<nat>)
    ensures InTime(before, [x] + rest) <==> (forall y :: y in rest ==> !before(y, x)) && InTime(before, rest)
  {
    var order := [x] + rest;
    assert order[0] == x && forall i :: 0 <= i < |rest| ==> order[i + 1] == rest[i];
    if InTime(before, order) {
      forall y | y in rest
        ensures !before(y, x)
      {
        var i :| 0 <= i < |rest| && rest[i] == y;
        assert order[i + 1] == y;
      }
    }
  }

  lemma {:induction false} OnlyKeepsOrder<K, V, I, O>(d: Keyed<K, V, I, O>, ops: seq<Call<I, O>>, before: Before,
      order: seq<nat>, k: K)
    requires Distinct(order) && InTime(before, order)
    ensures Distinct(Only(d, ops, order, k)) && InTime(before, Only(d, ops, order, k))
  {
    hide Distinct, InTime;
    if order == [] {
      Trivial(before);
    } else {
      var x, rest := order[0], order[1..];
      assert order == [x] + rest;
      DistinctTail(x, rest);
      InTimeTail(before, x, rest);
      OnlyKeepsOrder(d, ops, before, rest, k);
      DistinctTail(x, Only(d, ops, rest, k));
      InTimeTail(before, x, Only(d, ops, rest, k));
    }
  }

  lemma Trivial(before: Before)
    ensures Distinct<nat>([]) && InTime(before, [])
  {
  }

  /** A linearization of the whole history, cut down to one key, linearizes that key. */
  lemma OneKeyFromWhole<K(!new), V, I, O>(d: Keyed<K, V, I, O>, ops: seq<Call<I, O>>, before: Before, order: seq<nat>,
      k: K)
    requires Completes(WholeMap(d), ops, before, {}, map[], order)
    ensures Completes(OneKey(d), ops, before, Foreign(d, ops, k), d.blank, Only(d, ops, order, k))
  {
    hide Accepts, Distinct, InTime;
    assert forall i :: 0 <= i < |order| ==> order[i] in order;
    OnlyKeepsOrder(d, ops, before, order, k);
    LegalPerKey(d, ops, map[], order);
    assert Lookup(d, map[], k) == d.blank;
  }

  // ---------- Merging the orders of the keys

  /** The latest call time in a sequence. */
  ghost function Latest(call: seq<int>, order: seq<nat>): (t: int)
    requires order != [] && InRange(|call|, order)
    ensures forall y :: y in order ==> call[y] <= t
    ensures exists y :: y in order && call[y] == t
  {
    var last := order[|order| - 1];
    var front := order[..|order| - 1];
    assert last in order;
    if front == [] then
      assert order == [last];
      call[last]
    else
      assert order == front + [last];
      var t := Latest(call, front);
      if t < call[last] then call[last] else t
  }

  /** When `x` may take effect at the earliest: everything ordered up to it has been called. */
  ghost function Moment(call: seq<int>, order: seq<nat>, x: nat): int
    requires x in order && InRange(|call|, order)
  {
    Latest(call, order[..IndexOf(order, x) + 1])
  }

  ghost predicate Timely(call: seq<int>, ret: seq<int>, before: Before) {
    && |call| == |ret|
    && (forall a: nat :: a < |call| ==> call[a] <= ret[a])
    && (forall a: nat, b: nat :: a < |call| && b < |call| ==> (before(a, b) <==> ret[a] < call[b]))
  }

  /** The moment of an operation lies between its call and its return. */
  lemma MomentBetween(call: seq<int>, ret: seq<int>, before: Before, order: seq<nat>, x: nat)
    requires Timely(call, ret, before) && InRange(|call|, order) && InTime(before, order) && x in order
    ensures call[x] <= Moment(call, order, x) <= ret[x]
  {
    var i := IndexOf(order, x);
    var prefix := order[..i + 1];
    assert x == prefix[i];
    var t := Latest(call, prefix);
    var y :| y in prefix && call[y] == t;
    var j :| 0 <= j < |prefix| && prefix[j] == y;
    assert j < i ==> !before(order[i], order[j]);
  }

  lemma MomentsAscend(call: seq<int>, order: seq<nat>, i: nat, j: nat)
    requires InRange(|call|, order) && Distinct(order) && i <= j < |order|
    ensures Moment(call, order, order[i]) <= Moment(call, order, order[j])
  {
    assert IndexOf(order, order[i]) == i && IndexOf(order, order[j]) == j;
    var prefix := order[..i + 1];
    var t := Latest(call, prefix);
    var y :| y in prefix && call[y] == t;
    assert y in order[..j + 1];
  }

  ghost predicate ByMoment(moment: nat -> int, s: seq<nat>) {
    forall i, j :: 0 <= i < j < |s| ==> moment(s[i]) <= moment(s[j])
  }

  lemma AscendingTail(moment: nat -> int, x: nat, rest: seq<nat>)
    ensures ByMoment(moment, [x] + rest) <==>
      (forall y :: y in rest ==> moment(x) <= moment(y)) && ByMoment(moment, rest)
  {
    var order := [x] + rest;
    assert order[0] == x && forall i :: 0 <= i < |rest| ==> order[i + 1] == rest[i];
    if ByMoment(moment, order) {
      forall y | y in rest
        ensures moment(x) <= moment(y)
      {
        var i :| 0 <= i < |rest| && rest[i] == y;
        assert order[i + 1] == y;
      }
    }
  }

  ghost function Merge(moment: nat -> int, a: seq<nat>, b: seq<nat>): (r: seq<nat>)
    ensures forall x :: x in r <==> x in a || x in b
    decreases |a| + |b|
  {
    if a == [] then b
    else if b == [] then a
    else if moment(a[0]) <= moment(b[0]) then [a[0]] + Merge(moment, a[1..], b)
    else [b[0]] + Merge(moment, a, b[1..])
  }

  lemma {:induction false} MergeAscends(moment: nat -> int, a: seq<nat>, b: seq<nat>)
    requires ByMoment(moment, a) && ByMoment(moment, b)
    ensures ByMoment(moment, Merge(moment, a, b))
    decreases |a| + |b|
  {
    hide ByMoment;
    if a != [] && b != [] {
      assert a == [a[0]] + a[1..] && b == [b[0]] + b[1..];
      AscendingTail(moment, a[0], a[1..]);
      AscendingTail(moment, b[0], b[1..]);
      if moment(a[0]) <= moment(b[0]) {
        MergeAscends(moment, a[1..], b);
        AscendingTail(moment, a[0], Merge(moment, a[1..], b));
      } else {
        MergeAscends(moment, a, b[1..]);
        AscendingTail(moment, b[0], Merge(moment, a, b[1..]));
      }
    }
  }

  lemma OnlyOneMore<K, V, I, O>(d: Keyed<K, V, I, O>, ops: seq<Call<I, O>>, x: nat, rest: seq<nat>, k: K)
    requires x < |ops|
    ensures Only(d, ops, [x] + rest, k) == (if KeyOf(d, ops, x) == k then [x] else []) + Only(d, ops, rest, k)
  {
    assert ([x] + rest)[1..] == rest;
  }

  /** Merging keeps each key's operations in their order, when the two sides share no key. */
  lemma {:induction false} MergeKeepsKeys<K, V, I, O>(d: Keyed<K, V, I, O>, ops: seq<Call<I, O>>, moment: nat -> int,
      a: seq<nat>, b: seq<nat>, k: K)
    requires InRange(|ops|, a) && InRange(|ops|, b)
    requires Only(d, ops, a, k) == [] || Only(d, ops, b, k) == []
    ensures Only(d, ops, Merge(moment, a, b), k) == Only(d, ops, a, k) + Only(d, ops, b, k)
    decreases |a| + |b|
  {
    if a != [] && b != [] {
      assert a == [a[0]] + a[1..] && b == [b[0]] + b[1..];
      OnlyOneMore(d, ops, a[0], a[1..], k);
      OnlyOneMore(d, ops, b[0], b[1..], k);
      if moment(a[0]) <= moment(b[0]) {
        MergeKeepsKeys(d, ops, moment, a[1..], b, k);
        OnlyOneMore(d, ops, a[0], Merge(moment, a[1..], b), k);
      } else {
        MergeKeepsKeys(d, ops, moment, a, b[1..], k);
        OnlyOneMore(d, ops, b[0], Merge(moment, a, b[1..]), k);
      }
    }
  }

  // ---------- From the keys to the whole history

  lemma {:induction false} DistinctPerKey<K, V, I, O>(d: Keyed<K, V, I, O>, ops: seq<Call<I, O>>, order: seq<nat>)
    requires InRange(|ops|, order) && forall x: nat :: x < |ops| ==> Distinct(Only(d, ops, order, KeyOf(d, ops, x)))
    ensures Distinct(order)
  {
    hide Distinct;
    if order == [] {
      DistinctNone();
    } else {
      var x, rest := order[0], order[1..];
      assert order == [x] + rest;
      forall y: nat | y < |ops|
        ensures Distinct(Only(d, ops, rest, KeyOf(d, ops, y)))
        ensures KeyOf(d, ops, y) == KeyOf(d, ops, x) ==> x !in Only(d, ops, rest, KeyOf(d, ops, y))
      {
        OnlyOneMore(d, ops, x, rest, KeyOf(d, ops, y));
        DistinctTail(x, Only(d, ops, rest, KeyOf(d, ops, y)));
        assert [] + Only(d, ops, rest, KeyOf(d, ops, y)) == Only(d, ops, rest, KeyOf(d, ops, y));
      }
      DistinctPerKey(d, ops, rest);
      DistinctTail(x, rest);
    }
  }

  lemma DistinctNone()
    ensures Distinct<nat>([])
  {
  }

  /** An order of the operations of each key. */
  ghost predicate Orders<K, V, I, O>(d: Keyed<K, V, I, O>, ops: seq<Call<I, O>>, before: Before,
      orders: map<K, seq<nat>>)
  {
    && (forall k :: k in orders ==> Completes(OneKey(d), ops, before, Foreign(d, ops, k), d.blank, orders[k]))
    && (forall x: nat :: x < |ops| ==> KeyOf(d, ops, x) in orders)
  }

  lemma OrderOfKey<K, V, I, O>(d: Keyed<K, V, I, O>, ops: seq<Call<I, O>>, before: Before, orders: map<K, seq<nat>>,
      k: K)
    requires Orders(d, ops, before, orders) && k in orders
    ensures InRange(|ops|, orders[k]) && Distinct(orders[k]) && InTime(before, orders[k])
    ensures Accepts(OneKey(d), ops, d.blank, orders[k])
    ensures forall x: nat :: x in orders[k] <==> x < |ops| && KeyOf(d, ops, x) == k
  {
    assert Completes(OneKey(d), ops, before, Foreign(d, ops, k), d.blank, orders[k]);
    assert forall i :: 0 <= i < |orders[k]| ==> orders[k][i] in orders[k];
  }

  ghost function MomentOf<K, V, I, O>(d: Keyed<K, V, I, O>, ops: seq<Call<I, O>>, call: seq<int>,
      orders: map<K, seq<nat>>): nat -> int
  {
    (x: nat) =>
      if x < |ops| && KeyOf(d, ops, x) in orders && x in orders[KeyOf(d, ops, x)] &&
        InRange(|call|, orders[KeyOf(d, ops, x)])
      then Moment(call, orders[KeyOf(d, ops, x)], x) else 0
  }

  lemma KeyAscends<K, V, I, O>(d: Keyed<K, V, I, O>, ops: seq<Call<I, O>>, call: seq<int>, before: Before,
      orders: map<K, seq<nat>>, k: K)
    requires Orders(d, ops, before, orders) && k in orders && |call| == |ops|
    ensures ByMoment(MomentOf(d, ops, call, orders), orders[k])
  {
    hide Orders, Moment, Accepts, InTime;
    OrderOfKey(d, ops, before, orders, k);
    forall i, j | 0 <= i < j < |orders[k]|
      ensures MomentOf(d, ops, call, orders)(orders[k][i]) <= MomentOf(d, ops, call, orders)(orders[k][j])
    {
      assert orders[k][i] in orders[k] && orders[k][j] in orders[k];
      MomentsAscend(call, orders[k], i, j);
    }
  }

  lemma {:induction false} OnlyOfOneKey<K, V, I, O>(d: Keyed<K, V, I, O>, ops: seq<Call<I, O>>, order: seq<nat>, own: K,
      k: K)
    requires forall x :: x in order ==> x < |ops| && KeyOf(d, ops, x) == own
    ensures Only(d, ops, order, k) == if k == own then order else []
  {
    if order != [] {
      assert order == [order[0]] + order[1..];
      assert order[0] in order && forall x :: x in order[1..] ==> x in order;
      OnlyOfOneKey(d, ops, order[1..], own, k);
    }
  }

  ghost function MergeAll<K>(moment: nat -> int, keys: seq<K>, orders: map<K, seq<nat>>): seq<nat>
    requires forall k :: k in keys ==> k in orders
  {
    if keys == [] then [] else Merge(moment, MergeAll(moment, keys[1..], orders), orders[keys[0]])
  }

  lemma MergeInRange(n: nat, moment: nat -> int, a: seq<nat>, b: seq<nat>)
    requires InRange(n, a) && InRange(n, b)
    ensures InRange(n, Merge(moment, a, b))
  {
    var r := Merge(moment, a, b);
    forall i | 0 <= i < |r|
      ensures r[i] < n
    {
      assert r[i] in r;
    }
  }

  lemma {:induction false} MergedAscends<K, V, I, O>(d: Keyed<K, V, I, O>, ops: seq<Call<I, O>>, call: seq<int>,
      before: Before, keys: seq<K>, orders: map<K, seq<nat>>)
    requires Orders(d, ops, before, orders) && |call| == |ops| && forall k :: k in keys ==> k in orders
    ensures InRange(|ops|, MergeAll(MomentOf(d, ops, call, orders), keys, orders))
    ensures ByMoment(MomentOf(d, ops, call, orders), MergeAll(MomentOf(d, ops, call, orders), keys, orders))
  {
    hide Orders, MomentOf, Accepts, InTime, Distinct;
    if keys != [] {
      var moment, own := MomentOf(d, ops, call, orders), keys[0];
      MergedAscends(d, ops, call, before, keys[1..], orders);
      OrderOfKey(d, ops, before, orders, own);
      KeyAscends(d, ops, call, before, orders, own);
      MergeInRange(|ops|, moment, MergeAll(moment, keys[1..], orders), orders[own]);
      MergeAscends(moment, MergeAll(moment, keys[1..], orders), orders[own]);
    }
  }

  lemma {:induction false} MergedKeys<K, V, I, O>(d: Keyed<K, V, I, O>, ops: seq<Call<I, O>>, call: seq<int>,
      before: Before, keys: seq<K>, orders: map<K, seq<nat>>, k: K)
    requires Orders(d, ops, before, orders) && |call| == |ops|
    requires (forall k' :: k' in keys ==> k' in orders) && Distinct(keys)
    ensures Only(d, ops, MergeAll(MomentOf(d, ops, call, orders), keys, orders), k) ==
      if k in keys then orders[k] else []
  {
    hide Orders, MomentOf, Accepts, InTime, Distinct;
    if keys != [] {
      var moment := MomentOf(d, ops, call, orders);
      var a, own := MergeAll(moment, keys[1..], orders), keys[0];
      assert keys == [own] + keys[1..];
      DistinctTail(own, keys[1..]);
      MergedKeys(d, ops, call, before, keys[1..], orders, k);
      MergedAscends(d, ops, call, before, keys[1..], orders);
      OrderOfKey(d, ops, before, orders, own);
      OnlyOfOneKey(d, ops, orders[own], own, k);
      MergeKeepsKeys(d, ops, moment, a, orders[own], k);
    }
  }

  lemma MomentsRespectTime<K, V, I, O>(d: Keyed<K, V, I, O>, ops: seq<Call<I, O>>, call: seq<int>, ret: seq<int>,
      before: Before, orders: map<K, seq<nat>>, x: nat)
    requires Orders(d, ops, before, orders) && Timely(call, ret, before) && |call| == |ops| && x < |ops|
    ensures call[x] <= MomentOf(d, ops, call, orders)(x) <= ret[x]
  {
    hide Moment, Accepts, Timely;
    var k := KeyOf(d, ops, x);
    assert k in orders;
    OrderOfKey(d, ops, before, orders, k);
    MomentBetween(call, ret, before, orders[k], x);
  }

  lemma AscendingIsInTime<K, V, I, O>(d: Keyed<K, V, I, O>, ops: seq<Call<I, O>>, call: seq<int>, ret: seq<int>,
      before: Before, orders: map<K, seq<nat>>, order: seq<nat>)
    requires Orders(d, ops, before, orders) && Timely(call, ret, before) && |call| == |ops| && InRange(|ops|, order)
    requires ByMoment(MomentOf(d, ops, call, orders), order)
    ensures InTime(before, order)
  {
    hide Orders, MomentOf;
    forall i, j | 0 <= i < j < |order|
      ensures !before(order[j], order[i])
    {
      MomentsRespectTime(d, ops, call, ret, before, orders, order[i]);
      MomentsRespectTime(d, ops, call, ret, before, orders, order[j]);
    }
  }

  /** The merged order of all keys linearizes the whole history. */
  lemma WholeFromKeys<K(!new), V, I, O>(d: Keyed<K, V, I, O>, ops: seq<Call<I, O>>, call: seq<int>, ret: seq<int>,
      before: Before, keys: seq<K>, orders: map<K, seq<nat>>)
    requires Orders(d, ops, before, orders) && Timely(call, ret, before) && |call| == |ops|
    requires (forall k :: k in keys <==> k in orders) && Distinct(keys)
    ensures Completes(WholeMap(d), ops, before, {}, map[], MergeAll(MomentOf(d, ops, call, orders), keys, orders))
  {
    hide MomentOf, Accepts, InTime, Distinct, MergeAll, Only, Timely;
    var order := MergeAll(MomentOf(d, ops, call, orders), keys, orders);
    MergedAscends(d, ops, call, before, keys, orders);
    forall k
      ensures Only(d, ops, order, k) == if k in keys then orders[k] else []
    {
      MergedKeys(d, ops, call, before, keys, orders, k);
    }
    AscendingIsInTime(d, ops, call, ret, before, orders, order);
    forall x: nat
      ensures x in order <==> x < |ops|
      ensures x < |ops| ==> Distinct(Only(d, ops, order, KeyOf(d, ops, x)))
    {
      if x < |ops| {
        OrderOfKey(d, ops, before, orders, KeyOf(d, ops, x));
        assert x in Only(d, ops, order, KeyOf(d, ops, x));
      }
    }
    DistinctPerKey(d, ops, order);
    forall k
      ensures Accepts(OneKey(d), ops, Lookup(d, map[], k), Only(d, ops, order, k))
    {
      if k in orders {
        OrderOfKey(d, ops, before, orders, k);
      } else {
        AcceptsNothing(OneKey(d), ops, d.blank);
      }
    }
    LegalPerKey(d, ops, map[], order);
  }

  lemma AcceptsNothing<S, I, O>(m: Model<S, I, O>, ops: seq<Call<I, O>>, s: S)
    ensures Accepts(m, ops, s, [])
  {
  }

  ghost function Solution<S, I, O>(m: Model<S, I, O>, ops: seq<Call<I, O>>, before: Before, done: set<nat>,
      s: S): (order: seq<nat>)
    requires Solvable(m, ops, before, done, s)
    ensures Completes(m, ops, before, done, s, order)
  {
    var order :| Completes(m, ops, before, done, s, order);
    order
  }

  /** The operations on `k`, by themselves, are linearizable. */
  ghost predicate KeyLinearizable<K, V, I, O>(d: Keyed<K, V, I, O>, ops: seq<Call<I, O>>, before: Before, k: K) {
    Solvable(OneKey(d), ops, before, Foreign(d, ops, k), d.blank)
  }

  /** Linearizability is local: a history is linearizable exactly when each key's part is. */
  lemma Local<K(!new), V, I, O>(d: Keyed<K, V, I, O>, ops: seq<Call<I, O>>, call: seq<int>, ret: seq<int>,
      before: Before, keys: seq<K>)
    requires Timely(call, ret, before) && |call| == |ops|
    requires (forall x: nat :: x < |ops| ==> KeyOf(d, ops, x) in keys) && Distinct(keys)
    ensures Linearizable(WholeMap(d), ops, before) <==> forall k :: k in keys ==> KeyLinearizable(d, ops, before, k)
  {
    hide Completes, Foreign, Timely, MergeAll;
    if Linearizable(WholeMap(d), ops, before) {
      var order := Solution(WholeMap(d), ops, before, {}, map[]);
      forall k
        ensures KeyLinearizable(d, ops, before, k)
      {
        OneKeyFromWhole(d, ops, before, order, k);
      }
    }
    if forall k :: k in keys ==> KeyLinearizable(d, ops, before, k) {
      var orders := map k | k in keys :: Solution(OneKey(d), ops, before, Foreign(d, ops, k), d.blank);
      WholeFromKeys(d, ops, call, ret, before, keys, orders);
    }
  }

  // ---------- A key's operations as a history of their own

  ghost function Rename(idx: seq<nat>, order: seq<nat>): (r: seq<nat>)
    requires InRange(|idx|, order)
    ensures |r| == |order| && forall i :: 0 <= i < |r| ==> r[i] == idx[order[i]]
  {
    seq(|order|, i requires 0 <= i < |order| => idx[order[i]])
  }

  /** `sub` holds the operations of `ops` that are not done, `idx` says where they stood. */
  ghost predicate SubHistory<I, O>(ops: seq<Call<I, O>>, before: Before, done: set<nat>, sub: seq<Call<I, O>>,
      before': Before, idx: seq<nat>)
  {
    && |idx| == |sub| && Distinct(idx)
    && (forall x: nat :: x in idx <==> x < |ops| && x !in done)
    && (forall j :: 0 <= j < |idx| ==> idx[j] < |ops| && sub[j] == ops[idx[j]])
    && (forall a: nat, b: nat :: a < |idx| && b < |idx| ==> (before'(a, b) <==> before(idx[a], idx[b])))
  }

  lemma {:induction false} AcceptsRenamed<S, I, O>(m: Model<S, I, O>, ops: seq<Call<I, O>>, sub: seq<Call<I, O>>,
      idx: seq<nat>, s: S, order: seq<nat>)
    requires |idx| == |sub| && InRange(|idx|, order)
    requires forall j :: 0 <= j < |idx| ==> idx[j] < |ops| && sub[j] == ops[idx[j]]
    ensures Accepts(m, sub, s, order) <==> Accepts(m, ops, s, Rename(idx, order))
    decreases |order|
  {
    if order != [] {
      var s' := Step(m, s, sub[order[0]]).1;
      AcceptsRenamed(m, ops, sub, idx, s', order[1..]);
      assert Rename(idx, order)[1..] == Rename(idx, order[1..]);
    }
  }

  lemma CompletesRenamed<S, I, O>(m: Model<S, I, O>, ops: seq<Call<I, O>>, before: Before, done: set<nat>, s: S,
      sub: seq<Call<I, O>>, before': Before, idx: seq<nat>, order: seq<nat>)
    requires SubHistory(ops, before, done, sub, before', idx) && InRange(|sub|, order)
    ensures Completes(m, sub, before', {}, s, order) <==> Completes(m, ops, before, done, s, Rename(idx, order))
  {
    hide Accepts;
    var r := Rename(idx, order);
    AcceptsRenamed(m, ops, sub, idx, s, order);
    forall i, j | 0 <= i < j < |order|
      ensures order[i] == order[j] <==> r[i] == r[j]
      ensures before'(order[j], order[i]) <==> before(r[j], r[i])
    {
    }
    assert Distinct(order) <==> Distinct(r);
    assert InTime(before', order) <==> InTime(before, r);
    MembersRenamed(ops, before, done, sub, before', idx, order);
  }

  lemma MembersRenamed<I, O>(ops: seq<Call<I, O>>, before: Before, done: set<nat>, sub: seq<Call<I, O>>,
      before': Before, idx: seq<nat>, order: seq<nat>)
    requires SubHistory(ops, before, done, sub, before', idx) && InRange(|sub|, order)
    ensures (forall a: nat :: a in order <==> a < |sub|) <==>
      (forall x: nat :: x in Rename(idx, order) <==> x < |ops| && x !in done)
  {
    var r := Rename(idx, order);
    forall a: nat | a < |sub|
      ensures a in order <==> idx[a] in r
    {
      if a in order {
        var i :| 0 <= i < |order| && order[i] == a;
        assert r[i] == idx[a];
      }
      if idx[a] in r {
        var i :| 0 <= i < |r| && r[i] == idx[a];
        assert order[i] == a;
      }
    }
    forall x: nat | x in r
      ensures x in idx
    {
      var i :| 0 <= i < |r| && r[i] == x;
    }
    if forall x: nat :: x in r <==> x in idx {
      forall a: nat | a < |sub|
        ensures a in order
      {
        assert idx[a] in idx;
      }
    }
  }

  /** Taking the operations that are left as a history of their own changes nothing. */
  lemma SubHistorySolvable<S, I, O>(m: Model<S, I, O>, ops: seq<Call<I, O>>, before: Before, done: set<nat>, s: S,
      sub: seq<Call<I, O>>, before': Before, idx: seq<nat>)
    requires SubHistory(ops, before, done, sub, before', idx)
    ensures Solvable(m, ops, before, done, s) <==> Solvable(m, sub, before', {}, s)
  {
    if Solvable(m, sub, before', {}, s) {
      var order := Solution(m, sub, before', {}, s);
      assert forall i :: 0 <= i < |order| ==> order[i] in order;
      CompletesRenamed(m, ops, before, done, s, sub, before', idx, order);
    }
    if Solvable(m, ops, before, done, s) {
      var r := Solution(m, ops, before, done, s);
      assert forall i :: 0 <= i < |r| ==> r[i] in r && r[i] in idx;
      var order := seq(|r|, i requires 0 <= i < |r| => IndexOf(idx, r[i]));
      assert Rename(idx, order) == r;
      CompletesRenamed(m, ops, before, done, s, sub, before', idx, order);
    }
  }
}
