/** What it means for a concurrent history to be linearizable. */
module Linearizability {
  import opened Sorting

  /** A sequential specification: may `output` answer `input` in this state, and which state follows. */
  datatype Model<!S, !I, !O> = Model(init: S, step: (S, I, O) -> (bool, S))

  datatype Call<I, O> = Call(input: I, output: O)

  /** `before(a, b)`: operation `a` returned before operation `b` was called. */
  type Before = (nat, nat) -> bool

  function Step<S, I, O>(m: Model<S, I, O>, s: S, op: Call<I, O>): (bool, S) {
    m.step(s, op.input, op.output)
  }

  /** The model accepts the operations `order`, one after another, from state `s`. */
  predicate Accepts<S, I, O>(m: Model<S, I, O>, ops: seq<Call<I, O>>, s: S, order: seq<nat>) {
    order == [] ||
    (order[0] < |ops| && Step(m, s, ops[order[0]]).0 && Accepts(m, ops, Step(m, s, ops[order[0]]).1, order[1..]))
  }

  /** The state after operations that the model accepts. */
  function After<S, I, O>(m: Model<S, I, O>, ops: seq<Call<I, O>>, s: S, order: seq<nat>): S
    requires Accepts(m, ops, s, order)
  {
    if order == [] then s else After(m, ops, Step(m, s, ops[order[0]]).1, order[1..])
  }

  /** No operation comes after one that it preceded in real time. */
  predicate InTime(before: Before, order: seq<nat>) {
    forall i, j :: 0 <= i < j < |order| ==> !before(order[j], order[i])
  }

  /** `order` arranges exactly the operations not yet done, as the model and real time allow. */
  ghost predicate Completes<S, I, O>(m: Model<S, I, O>, ops: seq<Call<I, O>>, before: Before, done: set<nat>, s: S,
      order: seq<nat>)
  {
    && Distinct(order)
    && (forall x: nat :: x in order <==> x < |ops| && x !in done)
    && Accepts(m, ops, s, order)
    && InTime(before, order)
  }

  ghost predicate Solvable<S, I, O>(m: Model<S, I, O>, ops: seq<Call<I, O>>, before: Before, done: set<nat>, s: S) {
    exists order :: Completes(m, ops, before, done, s, order)
  }

  /** Some order of all operations is accepted from the initial state and respects real time. */
  ghost predicate Linearizable<S, I, O>(m: Model<S, I, O>, ops: seq<Call<I, O>>, before: Before) {
    Solvable(m, ops, before, {}, m.init)
  }

  /** Nothing that is still to be done has to come before `x`. */
  ghost predicate Minimal(before: Before, n: nat, done: set<nat>, x: nat) {
    forall y: nat :: y < n && y !in done && y != x ==> !before(y, x)
  }

  /** Trying `x` next leads nowhere. */
  ghost predicate RuledOut<S, I, O>(m: Model<S, I, O>, ops: seq<Call<I, O>>, before: Before, done: set<nat>, s: S,
      x: nat)
    requires x < |ops|
  {
    !Step(m, s, ops[x]).0 || !Solvable(m, ops, before, done + {x}, Step(m, s, ops[x]).1)
  }

  /** A solution starts with a minimal operation that is not ruled out. */
  lemma SolvableStarts<S, I, O>(m: Model<S, I, O>, ops: seq<Call<I, O>>, before: Before, done: set<nat>, s: S, z: nat)
    returns (x: nat)
    requires Solvable(m, ops, before, done, s) && z < |ops| && z !in done
    ensures x < |ops| && x !in done && Minimal(before, |ops|, done, x) && !RuledOut(m, ops, before, done, s, x)
  {
    var order :| Completes(m, ops, before, done, s, order);
    assert z in order;
    x := order[0];
    assert x in order;
    var rest := order[1..];
    assert Completes(m, ops, before, done + {x}, Step(m, s, ops[x]).1, rest) by {
      assert forall i :: 0 <= i < |rest| ==> rest[i] == order[i + 1];
      forall y: nat
        ensures y in rest <==> y < |ops| && y !in done + {x}
      {
        if y in rest {
          assert y in order;
        } else if y in order {
          var i :| 0 <= i < |order| && order[i] == y;
        }
      }
    }
    forall y: nat | y < |ops| && y !in done && y != x
      ensures !before(y, x)
    {
      assert y in order;
      var i :| 0 <= i < |order| && order[i] == y;
    }
  }

  /** A place where the sequence holds `x`. */
  ghost function IndexOf<T(!new)>(s: seq<T>, x: T): (i: nat)
    requires x in s
    ensures i < |s| && s[i] == x
  {
    var i: nat :| i < |s| && s[i] == x;
    i
  }

  // ---------- Partial linearizations

  function Ids(xs: seq<nat>): set<nat> {
    set x | x in xs
  }

  /** Each operation in turn was minimal among those not yet taken. */
  ghost predicate TakenInTurn(before: Before, n: nat, xs: seq<nat>) {
    forall k :: 0 <= k < |xs| ==> xs[k] < n && xs[k] !in xs[..k] && Minimal(before, n, Ids(xs[..k]), xs[k])
  }

  /** A legal start of a linearization. */
  ghost predicate Partial<S, I, O>(m: Model<S, I, O>, ops: seq<Call<I, O>>, before: Before, xs: seq<nat>) {
    TakenInTurn(before, |ops|, xs) && Accepts(m, ops, m.init, xs)
  }

  /** A partial linearization that has everything is a linearization. */
  lemma FullPartial<S, I, O>(m: Model<S, I, O>, ops: seq<Call<I, O>>, before: Before, xs: seq<nat>)
    requires Partial(m, ops, before, xs) && forall x: nat :: x < |ops| ==> x in xs
    ensures Linearizable(m, ops, before)
  {
    forall i, j | 0 <= i < j < |xs|
      ensures xs[i] != xs[j] && !before(xs[j], xs[i])
    {
      assert xs[i] in xs[..j];
      assert xs[j] !in xs[..i];
      assert Minimal(before, |ops|, Ids(xs[..i]), xs[i]);
    }
    assert Completes(m, ops, before, {}, m.init, xs);
  }

  lemma {:induction false} AcceptsOneMore<S, I, O>(m: Model<S, I, O>, ops: seq<Call<I, O>>, s: S, xs: seq<nat>, x: nat)
    requires Accepts(m, ops, s, xs) && x < |ops| && Step(m, After(m, ops, s, xs), ops[x]).0
    ensures Accepts(m, ops, s, xs + [x])
    ensures After(m, ops, s, xs + [x]) == Step(m, After(m, ops, s, xs), ops[x]).1
  {
    if xs == [] {
      assert (xs + [x])[1..] == [];
    } else {
      AcceptsOneMore(m, ops, Step(m, s, ops[xs[0]]).1, xs[1..], x);
      assert (xs + [x])[1..] == xs[1..] + [x];
    }
  }

  lemma {:induction false} AcceptsLast<S, I, O>(m: Model<S, I, O>, ops: seq<Call<I, O>>, s: S, xs: seq<nat>, x: nat)
    requires Accepts(m, ops, s, xs + [x])
    ensures Accepts(m, ops, s, xs) && x < |ops| && Step(m, After(m, ops, s, xs), ops[x]).0
  {
    if xs == [] {
      assert (xs + [x])[0] == x;
    } else {
      assert (xs + [x])[1..] == xs[1..] + [x];
      AcceptsLast(m, ops, Step(m, s, ops[xs[0]]).1, xs[1..], x);
    }
  }

  lemma {:induction false} AcceptsPrefix<S, I, O>(m: Model<S, I, O>, ops: seq<Call<I, O>>, s: S, xs: seq<nat>, k: nat)
    requires Accepts(m, ops, s, xs) && k <= |xs|
    ensures Accepts(m, ops, s, xs[..k])
  {
    if k > 0 {
      AcceptsPrefix(m, ops, Step(m, s, ops[xs[0]]).1, xs[1..], k - 1);
      assert xs[..k][1..] == xs[1..][..k - 1];
    }
  }

  lemma TakesOneMore(before: Before, n: nat, xs: seq<nat>, x: nat)
    requires TakenInTurn(before, n, xs) && x < n && x !in xs && Minimal(before, n, Ids(xs), x)
    ensures TakenInTurn(before, n, xs + [x])
  {
    var ys := xs + [x];
    forall k | 0 <= k < |ys|
      ensures ys[k] < n && ys[k] !in ys[..k] && Minimal(before, n, Ids(ys[..k]), ys[k])
    {
      assert ys[..k] == xs[..k];
      assert k == |xs| ==> xs[..k] == xs;
    }
  }

  lemma TakenPrefix(before: Before, n: nat, xs: seq<nat>, k: nat)
    requires TakenInTurn(before, n, xs) && k <= |xs|
    ensures TakenInTurn(before, n, xs[..k])
  {
    forall i | 0 <= i < k
      ensures xs[..k][..i] == xs[..i]
    {
    }
  }
}
