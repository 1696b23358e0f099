/** What the depth-first search for a linearization knows, and why each of its moves keeps that true. */
module SearchSpace {
  import opened Linearizability
  import opened EntryList
  import FiniteSets

  /** The operations of a history, by id. */
  ghost function Ops<I, O>(h: History<I, O>): (ops: seq<Call<I, O>>)
    requires Paired(h)
    ensures |ops| == |h.call|
  {
    seq(|h.call|, i requires 0 <= i < |h.call| => Call(h.entries[h.call[i]].input, h.entries[h.ret[i]].output))
  }

  /** Operation `a` returns before operation `b` is called. */
  ghost function Precedes<I, O>(h: History<I, O>): Before {
    (a: nat, b: nat) => a < |h.ret| && b < |h.call| && h.ret[a] < h.call[b]
  }

  /** List position `p` holds the call or the return of one of `xs`; position 0 is the head. */
  ghost predicate Belongs<I, O>(h: History<I, O>, xs: seq<nat>, p: nat) {
    0 < p <= |h.entries| && h.entries[p - 1].id in xs
  }

  ghost function Removed<I, O>(h: History<I, O>, xs: seq<nat>): set<nat> {
    set p: nat | p <= |h.entries| && Belongs(h, xs, p)
  }

  ghost function Reached<S, I, O>(m: Model<S, I, O>, h: History<I, O>, xs: seq<nat>): S
    requires Paired(h)
  {
    if Accepts(m, Ops(h), m.init, xs) then After(m, Ops(h), m.init, xs) else m.init
  }

  /** After `xs`, every minimal operation called before `bound` leads nowhere. */
  ghost predicate Tried<S, I, O>(m: Model<S, I, O>, h: History<I, O>, xs: seq<nat>, bound: nat)
    requires Paired(h)
  {
    forall x: nat :: x < |h.call| && x !in xs && h.call[x] + 1 < bound && Minimal(Precedes(h), |h.call|, Ids(xs), x) ==>
      RuledOut(m, Ops(h), Precedes(h), Ids(xs), Reached(m, h, xs), x)
  }

  /** At every level of the search, everything up to the operation chosen there was tried. */
  ghost predicate TriedBelow<S, I, O>(m: Model<S, I, O>, h: History<I, O>, xs: seq<nat>)
    requires Paired(h)
  {
    forall k :: 0 <= k < |xs| ==> xs[k] < |h.call| && Tried(m, h, xs[..k], h.call[xs[k]] + 1)
  }

  datatype Config<S> = Config(done: set<nat>, state: S)

  ghost function ConfigAt<S, I, O>(m: Model<S, I, O>, h: History<I, O>, xs: seq<nat>): Config<S>
    requires Paired(h)
  {
    Config(Ids(xs), Reached(m, h, xs))
  }

  ghost predicate OnPath<S, I, O>(m: Model<S, I, O>, h: History<I, O>, xs: seq<nat>, c: Config<S>)
    requires Paired(h)
  {
    exists k :: 0 < k <= |xs| && c == ConfigAt(m, h, xs[..k])
  }

  ghost predicate Hopeless<S, I, O>(m: Model<S, I, O>, h: History<I, O>, c: Config<S>)
    requires Paired(h)
  {
    !Solvable(m, Ops(h), Precedes(h), c.done, c.state)
  }

  /** A configuration met before is being explored, or leads nowhere. */
  ghost predicate CacheSound<S, I, O>(m: Model<S, I, O>, h: History<I, O>, xs: seq<nat>, cache: set<Config<S>>)
    requires Paired(h)
  {
    forall c :: c in cache ==> Hopeless(m, h, c) || OnPath(m, h, xs, c)
  }

  /** The returns still in the list are at `e` or behind it. */
  ghost predicate ReturnsAhead<I, O>(h: History<I, O>, xs: seq<nat>, e: nat)
    requires Paired(h)
  {
    forall y: nat :: y < |h.call| && y !in xs ==> e <= h.ret[y] + 1
  }

  ghost predicate LivePosition<I, O>(h: History<I, O>, xs: seq<nat>, e: nat) {
    0 < e <= |h.entries| + 1 && e !in Removed(h, xs)
  }

  /** The state of the search: operations `xs` chosen so far, configurations met, list position reached. */
  ghost predicate Searching<S, I, O>(m: Model<S, I, O>, h: History<I, O>, xs: seq<nat>, cache: set<Config<S>>, e: nat) {
    && Paired(h)
    && Partial(m, Ops(h), Precedes(h), xs)
    && TriedBelow(m, h, xs)
    && Tried(m, h, xs, e)
    && CacheSound(m, h, xs, cache)
    && ReturnsAhead(h, xs, e)
    && LivePosition(h, xs, e)
  }

  ghost function Following<I, O>(h: History<I, O>, xs: seq<nat>, e: nat): nat
    requires e <= |h.entries|
  {
    NextLive(Removed(h, xs), e, |h.entries| + 1)
  }

  lemma Start<S, I, O>(m: Model<S, I, O>, h: History<I, O>)
    requires Paired(h)
    ensures Searching(m, h, [], {}, 1)
  {
  }

  /** While something is left in the list, the search stands on an entry. */
  lemma StandsOnEntry<S, I, O>(m: Model<S, I, O>, h: History<I, O>, xs: seq<nat>, cache: set<Config<S>>, e: nat)
    requires Searching(m, h, xs, cache, e) && Following(h, xs, 0) <= |h.entries|
    ensures e <= |h.entries|
  {
    hide Partial, TriedBelow, Tried, CacheSound;
    var p := Following(h, xs, 0);
    IsPlaced(h, p - 1);
    assert h.entries[p - 1].id !in xs;
  }

  /** The operation whose call is at `e`. */
  ghost predicate CallAt<I, O>(h: History<I, O>, xs: seq<nat>, e: nat, x: nat) {
    Paired(h) && x < |h.call| && e == h.call[x] + 1 && x !in xs
  }

  lemma IsMinimal<I, O>(h: History<I, O>, xs: seq<nat>, e: nat, x: nat)
    requires CallAt(h, xs, e, x) && ReturnsAhead(h, xs, e)
    ensures Minimal(Precedes(h), |h.call|, Ids(xs), x)
  {
  }

  lemma Stays<I, O>(h: History<I, O>, xs: seq<nat>, y: nat)
    requires Paired(h) && y < |h.call| && y !in xs
    ensures h.call[y] + 1 !in Removed(h, xs) && h.ret[y] + 1 !in Removed(h, xs)
  {
  }

  /** Where the search goes next when it passes over the call of `x`. */
  lemma PassedOver<I, O>(h: History<I, O>, xs: seq<nat>, e: nat, x: nat)
    requires CallAt(h, xs, e, x) && ReturnsAhead(h, xs, e) && e <= |h.entries|
    ensures ReturnsAhead(h, xs, Following(h, xs, e)) && LivePosition(h, xs, Following(h, xs, e))
    ensures forall y: nat :: y < |h.call| && y !in xs && h.call[y] + 1 < Following(h, xs, e) ==>
      h.call[y] + 1 < e || y == x
  {
    hide NextLive, Removed;
    var f := Following(h, xs, e);
    forall y: nat | y < |h.call| && y !in xs
      ensures f <= h.ret[y] + 1
      ensures h.call[y] + 1 < f ==> h.call[y] + 1 < e || y == x
    {
      Stays(h, xs, y);
      assert h.entries[h.ret[y]].ReturnEntry? && h.entries[h.call[x]].CallEntry?;
      assert h.entries[h.call[y]].id == y;
    }
  }

  lemma Skip<S, I, O>(m: Model<S, I, O>, h: History<I, O>, xs: seq<nat>, cache: set<Config<S>>, e: nat, x: nat)
    requires Searching(m, h, xs, cache, e) && CallAt(h, xs, e, x)
    requires RuledOut(m, Ops(h), Precedes(h), Ids(xs), Reached(m, h, xs), x)
    ensures Searching(m, h, xs, cache, Following(h, xs, e))
  {
    hide RuledOut, CacheSound, TriedBelow, Partial;
    PassedOver(h, xs, e, x);
  }

  /** A configuration met before is no use: it is not on the way here, as `x` is new. */
  lemma CachedIsRuledOut<S, I, O>(m: Model<S, I, O>, h: History<I, O>, xs: seq<nat>, cache: set<Config<S>>, e: nat,
      x: nat)
    requires Searching(m, h, xs, cache, e) && CallAt(h, xs, e, x)
    requires Step(m, Reached(m, h, xs), Ops(h)[x]).0
    requires Config(Ids(xs) + {x}, Step(m, Reached(m, h, xs), Ops(h)[x]).1) in cache
    ensures RuledOut(m, Ops(h), Precedes(h), Ids(xs), Reached(m, h, xs), x)
  {
    var c := Config(Ids(xs) + {x}, Step(m, Reached(m, h, xs), Ops(h)[x]).1);
    assert !OnPath(m, h, xs, c) by {
      assert x in c.done;
    }
  }

  lemma Chosen<S, I, O>(m: Model<S, I, O>, h: History<I, O>, xs: seq<nat>, x: nat)
    requires Paired(h) && Partial(m, Ops(h), Precedes(h), xs) && x < |h.call| && x !in xs
    requires Minimal(Precedes(h), |h.call|, Ids(xs), x) && Step(m, Reached(m, h, xs), Ops(h)[x]).0
    ensures Partial(m, Ops(h), Precedes(h), xs + [x])
    ensures ConfigAt(m, h, xs + [x]) == Config(Ids(xs) + {x}, Step(m, Reached(m, h, xs), Ops(h)[x]).1)
  {
    TakesOneMore(Precedes(h), |h.call|, xs, x);
    AcceptsOneMore(m, Ops(h), m.init, xs, x);
    assert Ids(xs + [x]) == Ids(xs) + {x};
  }

  /** From the front of the list, nothing has been tried yet. */
  lemma FromTheFront<S, I, O>(m: Model<S, I, O>, h: History<I, O>, xs: seq<nat>)
    requires Paired(h)
    ensures Tried(m, h, xs, Following(h, xs, 0)) && ReturnsAhead(h, xs, Following(h, xs, 0))
    ensures LivePosition(h, xs, Following(h, xs, 0))
  {
    hide RuledOut;
    forall y: nat | y < |h.call| && y !in xs
      ensures h.call[y] + 1 >= Following(h, xs, 0) && h.ret[y] + 1 >= Following(h, xs, 0)
    {
      Stays(h, xs, y);
    }
  }

  lemma TriedOneMore<S, I, O>(m: Model<S, I, O>, h: History<I, O>, xs: seq<nat>, x: nat)
    requires Paired(h) && TriedBelow(m, h, xs) && x < |h.call| && Tried(m, h, xs, h.call[x] + 1)
    ensures TriedBelow(m, h, xs + [x])
  {
    hide Tried;
    var ys := xs + [x];
    forall k | 0 <= k < |ys|
      ensures ys[k] < |h.call| && Tried(m, h, ys[..k], h.call[ys[k]] + 1)
    {
      assert ys[..k] == if k < |xs| then xs[..k] else xs;
    }
  }

  lemma CacheOneMore<S, I, O>(m: Model<S, I, O>, h: History<I, O>, xs: seq<nat>, cache: set<Config<S>>, x: nat)
    requires Paired(h) && CacheSound(m, h, xs, cache)
    ensures CacheSound(m, h, xs + [x], cache + {ConfigAt(m, h, xs + [x])})
  {
    hide ConfigAt, Hopeless;
    var ys := xs + [x];
    assert ys[..|ys|] == ys;
    forall c | c in cache + {ConfigAt(m, h, ys)}
      ensures Hopeless(m, h, c) || OnPath(m, h, ys, c)
    {
      if c in cache && OnPath(m, h, xs, c) {
        var k :| 0 < k <= |xs| && c == ConfigAt(m, h, xs[..k]);
        assert ys[..k] == xs[..k];
      }
    }
  }

  lemma Push<S, I, O>(m: Model<S, I, O>, h: History<I, O>, xs: seq<nat>, cache: set<Config<S>>, e: nat, x: nat)
    requires Searching(m, h, xs, cache, e) && CallAt(h, xs, e, x)
    requires Step(m, Reached(m, h, xs), Ops(h)[x]).0
    ensures Searching(m, h, xs + [x], cache + {ConfigAt(m, h, xs + [x])}, Following(h, xs + [x], 0))
    ensures ConfigAt(m, h, xs + [x]) == Config(Ids(xs) + {x}, Step(m, Reached(m, h, xs), Ops(h)[x]).1)
  {
    hide Tried, TriedBelow, CacheSound, Partial, ReturnsAhead, LivePosition, Minimal, ConfigAt, Following;
    IsMinimal(h, xs, e, x);
    Chosen(m, h, xs, x);
    TriedOneMore(m, h, xs, x);
    CacheOneMore(m, h, xs, cache, x);
    FromTheFront(m, h, xs + [x]);
  }

  /** At a return, no operation that could come next is left untried. */
  lemma StuckAtReturn<S, I, O>(m: Model<S, I, O>, h: History<I, O>, xs: seq<nat>, cache: set<Config<S>>, e: nat, y: nat)
    requires Searching(m, h, xs, cache, e) && y < |h.ret| && e == h.ret[y] + 1 && y !in xs
    ensures Hopeless(m, h, ConfigAt(m, h, xs))
  {
    hide RuledOut, CacheSound, TriedBelow, Partial, LivePosition, Reached, Accepts;
    if Solvable(m, Ops(h), Precedes(h), Ids(xs), Reached(m, h, xs)) {
      var _ := SolvableStarts(m, Ops(h), Precedes(h), Ids(xs), Reached(m, h, xs), y);
    }
  }

  lemma FewerChosen<S, I, O>(m: Model<S, I, O>, h: History<I, O>, xs: seq<nat>, k: nat)
    requires Paired(h) && Partial(m, Ops(h), Precedes(h), xs) && TriedBelow(m, h, xs) && k <= |xs|
    ensures Partial(m, Ops(h), Precedes(h), xs[..k]) && TriedBelow(m, h, xs[..k])
  {
    hide Tried;
    TakenPrefix(Precedes(h), |h.call|, xs, k);
    AcceptsPrefix(m, Ops(h), m.init, xs, k);
    assert forall i :: 0 <= i < k ==> xs[..k][..i] == xs[..i];
  }

  lemma CacheOneLess<S, I, O>(m: Model<S, I, O>, h: History<I, O>, xs: seq<nat>, cache: set<Config<S>>)
    requires Paired(h) && CacheSound(m, h, xs, cache) && |xs| > 0 && Hopeless(m, h, ConfigAt(m, h, xs))
    ensures CacheSound(m, h, xs[..|xs| - 1], cache)
  {
    hide ConfigAt, Hopeless;
    var ys := xs[..|xs| - 1];
    forall c | c in cache
      ensures Hopeless(m, h, c) || OnPath(m, h, ys, c)
    {
      if OnPath(m, h, xs, c) {
        var k :| 0 < k <= |xs| && c == ConfigAt(m, h, xs[..k]);
        assert k < |xs| ==> xs[..k] == ys[..k];
        assert xs[..|xs|] == xs;
      }
    }
  }

  /** Going back past a choice that leads nowhere rules it out. */
  lemma Pop<S, I, O>(m: Model<S, I, O>, h: History<I, O>, xs: seq<nat>, cache: set<Config<S>>, e: nat)
    requires Searching(m, h, xs, cache, e) && |xs| > 0 && Hopeless(m, h, ConfigAt(m, h, xs))
    ensures xs[|xs| - 1] < |h.call|
    ensures Searching(m, h, xs[..|xs| - 1], cache, Following(h, xs[..|xs| - 1], h.call[xs[|xs| - 1]] + 1))
  {
    hide CacheSound, Accepts, Minimal, TakenInTurn, Tried, TriedBelow, ReturnsAhead, LivePosition, CallAt, RuledOut,
      Hopeless, ConfigAt;
    var ys, x := xs[..|xs| - 1], xs[|xs| - 1];
    assert xs == ys + [x];
    TopTried(m, h, xs);
    FewerChosen(m, h, xs, |xs| - 1);
    CacheOneLess(m, h, xs, cache);
    StoodOnCall(h, ys, x);
    ChoiceRuledOut(m, h, ys, x);
    Skip(m, h, ys, cache, h.call[x] + 1, x);
  }

  lemma TopTried<S, I, O>(m: Model<S, I, O>, h: History<I, O>, xs: seq<nat>)
    requires Paired(h) && |xs| > 0 && TakenInTurn(Precedes(h), |h.call|, xs) && TriedBelow(m, h, xs)
    ensures var k := |xs| - 1; xs[k] < |h.call| && Tried(m, h, xs[..k], h.call[xs[k]] + 1)
  {
    hide Tried, Minimal;
  }

  /** Before `x` was chosen, the search stood on its call. */
  lemma StoodOnCall<I, O>(h: History<I, O>, ys: seq<nat>, x: nat)
    requires Paired(h) && x < |h.call| && TakenInTurn(Precedes(h), |h.call|, ys + [x])
    ensures CallAt(h, ys, h.call[x] + 1, x) && ReturnsAhead(h, ys, h.call[x] + 1) && LivePosition(h, ys, h.call[x] + 1)
  {
    var xs, k := ys + [x], |ys|;
    assert xs[..k] == ys && xs[k] == x;
    assert Minimal(Precedes(h), |h.call|, Ids(ys), x);
    forall y: nat | y < |h.call| && y !in ys
      ensures h.call[x] <= h.ret[y]
    {
      assert y != x ==> !Precedes(h)(y, x);
    }
  }

  lemma ChoiceRuledOut<S, I, O>(m: Model<S, I, O>, h: History<I, O>, ys: seq<nat>, x: nat)
    requires Paired(h) && x < |h.call| && Accepts(m, Ops(h), m.init, ys + [x])
    requires Hopeless(m, h, ConfigAt(m, h, ys + [x]))
    ensures RuledOut(m, Ops(h), Precedes(h), Ids(ys), Reached(m, h, ys), x)
  {
    hide Solvable;
    AcceptsPrefix(m, Ops(h), m.init, ys + [x], |ys|);
    assert (ys + [x])[..|ys|] == ys;
    if Step(m, Reached(m, h, ys), Ops(h)[x]).0 {
      AcceptsOneMore(m, Ops(h), m.init, ys, x);
      assert Ids(ys + [x]) == Ids(ys) + {x};
    }
  }

  /** An empty list means that everything is linearized. */
  lemma Finished<S, I, O>(m: Model<S, I, O>, h: History<I, O>, xs: seq<nat>, cache: set<Config<S>>, e: nat)
    requires Searching(m, h, xs, cache, e) && Following(h, xs, 0) > |h.entries|
    ensures Linearizable(m, Ops(h), Precedes(h)) && forall x: nat :: x < |h.call| ==> x in xs
  {
    forall x: nat | x < |h.call|
      ensures x in xs
    {
      assert h.call[x] + 1 in Removed(h, xs);
    }
    FullPartial(m, Ops(h), Precedes(h), xs);
  }

  // ---------- Only finitely many configurations can be met

  ghost function Steps<S, I, O>(m: Model<S, I, O>, ops: seq<Call<I, O>>, from: set<Config<S>>): set<Config<S>> {
    set c, x: nat | c in from && x < |ops| :: Config(c.done + {x}, Step(m, c.state, ops[x]).1)
  }

  lemma InSteps<S, I, O>(m: Model<S, I, O>, ops: seq<Call<I, O>>, from: set<Config<S>>, c: Config<S>, x: nat)
    requires c in from && x < |ops|
    ensures Config(c.done + {x}, Step(m, c.state, ops[x]).1) in Steps(m, ops, from)
  {
  }

  /** The configurations that at most `k` steps lead to. */
  ghost function Reachable<S, I, O>(m: Model<S, I, O>, ops: seq<Call<I, O>>, k: nat): set<Config<S>> {
    if k == 0 then {Config({}, m.init)} else Reachable(m, ops, k - 1) + Steps(m, ops, Reachable(m, ops, k - 1))
  }

  lemma NoStep<S, I, O>(m: Model<S, I, O>, h: History<I, O>)
    requires Paired(h)
    ensures ConfigAt(m, h, []) == Config({}, m.init)
  {
  }

  lemma LastStep<S, I, O>(m: Model<S, I, O>, h: History<I, O>, ys: seq<nat>, x: nat)
    requires Paired(h) && Accepts(m, Ops(h), m.init, ys + [x])
    ensures Accepts(m, Ops(h), m.init, ys) && x < |h.call|
    ensures ConfigAt(m, h, ys + [x]) == Config(Ids(ys) + {x}, Step(m, Reached(m, h, ys), Ops(h)[x]).1)
  {
    AcceptsLast(m, Ops(h), m.init, ys, x);
    AcceptsOneMore(m, Ops(h), m.init, ys, x);
    assert Ids(ys + [x]) == Ids(ys) + {x};
  }

  lemma {:induction false} PathReachable<S, I, O>(m: Model<S, I, O>, h: History<I, O>, xs: seq<nat>, k: nat)
    requires Paired(h) && Accepts(m, Ops(h), m.init, xs) && |xs| <= k
    ensures ConfigAt(m, h, xs) in Reachable(m, Ops(h), k)
    decreases k
  {
    hide Reached, Steps, Accepts, Ops;
    if k > |xs| {
      PathReachable(m, h, xs, k - 1);
    } else if k == 0 {
      NoStep(m, h);
      assert xs == [];
    } else {
      var ys, x := xs[..|xs| - 1], xs[|xs| - 1];
      assert xs == ys + [x];
      LastStep(m, h, ys, x);
      PathReachable(m, h, ys, k - 1);
      InSteps(m, Ops(h), Reachable(m, Ops(h), k - 1), ConfigAt(m, h, ys), x);
    }
  }

  /** A path takes each operation at most once. */
  lemma {:induction false} PathBounded(before: Before, n: nat, xs: seq<nat>)
    requires TakenInTurn(before, n, xs)
    ensures |xs| == |Ids(xs)| <= n
  {
    hide Minimal;
    if |xs| > 0 {
      var ys, x := xs[..|xs| - 1], xs[|xs| - 1];
      TakenPrefix(before, n, xs, |xs| - 1);
      PathBounded(before, n, ys);
      assert Ids(xs) == Ids(ys) + {x};
    }
    FiniteSets.SubsetSize(Ids(xs), FiniteSets.Below(n));
  }
}
