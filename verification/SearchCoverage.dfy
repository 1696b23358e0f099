/** Why the search, which visits no configuration twice, finds a longest partial linearization for each operation. */
module SearchCoverage {
  import opened Wrappers
  import opened Linearizability
  import opened EntryList
  import opened SearchSpace
  import FiniteSets

  type Longest = seq<Option<seq<nat>>>

  /** Operation `y` may come next in configuration `c`. */
  ghost predicate MayFollow<S, I, O>(m: Model<S, I, O>, h: History<I, O>, c: Config<S>, y: nat)
    requires Paired(h)
  {
    && y < |h.call| && y !in c.done
    && Minimal(Precedes(h), |h.call|, c.done, y)
    && Step(m, c.state, Ops(h)[y]).0
  }

  ghost function Successor<S, I, O>(m: Model<S, I, O>, h: History<I, O>, c: Config<S>, y: nat): Config<S>
    requires Paired(h) && y < |h.call|
  {
    Config(c.done + {y}, Step(m, c.state, Ops(h)[y]).1)
  }

  /** Every operation called before `bound` that may come next in `c` was met there. */
  ghost predicate Extended<S, I, O>(m: Model<S, I, O>, h: History<I, O>, seen: set<Config<S>>, c: Config<S>, bound: nat)
    requires Paired(h)
  {
    forall y: nat :: MayFollow(m, h, c, y) && h.call[y] + 1 < bound ==> Successor(m, h, c, y) in seen
  }

  /** For each of these operations, as many or more are kept. */
  ghost predicate Kept(longest: Longest, done: set<nat>) {
    forall x :: x in done ==> x < |longest| && longest[x].Some? && |done| <= |longest[x].value|
  }

  /** The search is done with `c`. */
  ghost predicate Spent<S, I, O>(m: Model<S, I, O>, h: History<I, O>, seen: set<Config<S>>, longest: Longest,
      c: Config<S>)
    requires Paired(h)
  {
    Extended(m, h, seen, c, |h.entries| + 2) && Kept(longest, c.done)
  }

  /** At level `k`, the operation chosen there and everything called before it was met. */
  ghost predicate LevelExtended<S, I, O>(m: Model<S, I, O>, h: History<I, O>, xs: seq<nat>, seen: set<Config<S>>,
      k: nat)
    requires Paired(h) && k < |xs|
  {
    xs[k] < |h.call| && Extended(m, h, seen, ConfigAt(m, h, xs[..k]), h.call[xs[k]] + 2)
  }

  /** Each configuration met is on the way to where the search stands, or the search is done with it. */
  ghost predicate Explored<S, I, O>(m: Model<S, I, O>, h: History<I, O>, xs: seq<nat>, seen: set<Config<S>>, e: nat,
      longest: Longest)
  {
    && Paired(h)
    && (forall c :: c in seen ==> OnPath(m, h, xs, c) || Spent(m, h, seen, longest, c))
    && (forall k :: 0 <= k < |xs| ==> LevelExtended(m, h, xs, seen, k))
    && Extended(m, h, seen, ConfigAt(m, h, xs), e)
  }

  lemma NothingMet<S, I, O>(m: Model<S, I, O>, h: History<I, O>, longest: Longest)
    requires Paired(h)
    ensures Explored(m, h, [], {}, 1, longest)
  {
  }

  /** One move at the call of `x`: it was chosen, or passed over as refused or met before. */
  ghost predicate Moved<S, I, O>(m: Model<S, I, O>, h: History<I, O>, xs: seq<nat>, seen: set<Config<S>>, e: nat,
      x: nat, xs': seq<nat>, seen': set<Config<S>>, e': nat)
  {
    && CallAt(h, xs, e, x) && e <= |h.entries|
    && if xs' == xs then
         && seen' == seen && e' == Following(h, xs, e)
         && (Step(m, Reached(m, h, xs), Ops(h)[x]).0 ==> Successor(m, h, ConfigAt(m, h, xs), x) in seen)
       else
         && xs' == xs + [x] && e' == Following(h, xs', 0)
         && Successor(m, h, ConfigAt(m, h, xs), x) == ConfigAt(m, h, xs')
         && seen' == seen + {ConfigAt(m, h, xs')}
  }

  lemma ExtendedMore<S, I, O>(m: Model<S, I, O>, h: History<I, O>, seen: set<Config<S>>, seen': set<Config<S>>,
      c: Config<S>, bound: nat)
    requires Paired(h) && Extended(m, h, seen, c, bound) && seen <= seen'
    ensures Extended(m, h, seen', c, bound)
  {
  }

  lemma MoveExplores<S, I, O>(m: Model<S, I, O>, h: History<I, O>, xs: seq<nat>, seen: set<Config<S>>, e: nat, x: nat,
      xs': seq<nat>, seen': set<Config<S>>, e': nat, longest: Longest)
    requires Explored(m, h, xs, seen, e, longest) && ReturnsAhead(h, xs, e)
    requires Moved(m, h, xs, seen, e, x, xs', seen', e')
    ensures Explored(m, h, xs', seen', e', longest)
  {
    hide Following, ConfigAt, OnPath, Spent, LevelExtended, Extended, Successor, Reached, ReturnsAhead, Ops, CallAt;
    if xs' == xs {
      PassExtends(m, h, xs, seen, e, x);
    } else {
      ChoiceExtends(m, h, xs, seen, e, x, seen');
      forall c | c in seen'
        ensures OnPath(m, h, xs', c) || Spent(m, h, seen', longest, c)
      {
        ChoicePath(m, h, xs, seen, x, seen', longest, c);
      }
      forall k | 0 <= k < |xs'|
        ensures LevelExtended(m, h, xs', seen', k)
      {
        if k < |xs| {
          LevelStays(m, h, xs, seen, x, seen', k);
        }
      }
      FrontExtends(m, h, xs', seen');
    }
  }

  lemma PassExtends<S, I, O>(m: Model<S, I, O>, h: History<I, O>, xs: seq<nat>, seen: set<Config<S>>, e: nat, x: nat)
    requires CallAt(h, xs, e, x) && ReturnsAhead(h, xs, e) && e <= |h.entries|
    requires Extended(m, h, seen, ConfigAt(m, h, xs), e)
    requires Step(m, Reached(m, h, xs), Ops(h)[x]).0 ==> Successor(m, h, ConfigAt(m, h, xs), x) in seen
    ensures Extended(m, h, seen, ConfigAt(m, h, xs), Following(h, xs, e))
  {
    hide Following, Minimal, Reached, Successor, Ops;
    PassedOver(h, xs, e, x);
  }

  lemma ChoiceExtends<S, I, O>(m: Model<S, I, O>, h: History<I, O>, xs: seq<nat>, seen: set<Config<S>>, e: nat, x: nat,
      seen': set<Config<S>>)
    requires CallAt(h, xs, e, x) && Extended(m, h, seen, ConfigAt(m, h, xs), e) && seen <= seen'
    requires Successor(m, h, ConfigAt(m, h, xs), x) in seen'
    ensures LevelExtended(m, h, xs + [x], seen', |xs|)
  {
    hide Minimal, Reached, Successor, Ops;
    assert (xs + [x])[..|xs|] == xs;
    forall y: nat | MayFollow(m, h, ConfigAt(m, h, xs), y) && h.call[y] + 1 < h.call[x] + 2
      ensures Successor(m, h, ConfigAt(m, h, xs), y) in seen'
    {
      assert h.entries[h.call[y]].id == y && h.entries[h.call[x]].id == x;
    }
  }

  lemma ChoicePath<S, I, O>(m: Model<S, I, O>, h: History<I, O>, xs: seq<nat>, seen: set<Config<S>>, x: nat,
      seen': set<Config<S>>, longest: Longest, c: Config<S>)
    requires Paired(h) && seen' == seen + {ConfigAt(m, h, xs + [x])} && c in seen'
    requires c in seen ==> OnPath(m, h, xs, c) || Spent(m, h, seen, longest, c)
    ensures OnPath(m, h, xs + [x], c) || Spent(m, h, seen', longest, c)
  {
    hide ConfigAt, Extended;
    var ys := xs + [x];
    assert ys[..|ys|] == ys;
    if c in seen {
      if OnPath(m, h, xs, c) {
        var k :| 0 < k <= |xs| && c == ConfigAt(m, h, xs[..k]);
        assert ys[..k] == xs[..k];
      } else {
        ExtendedMore(m, h, seen, seen', c, |h.entries| + 2);
      }
    }
  }

  lemma LevelStays<S, I, O>(m: Model<S, I, O>, h: History<I, O>, xs: seq<nat>, seen: set<Config<S>>, x: nat,
      seen': set<Config<S>>, k: nat)
    requires Paired(h) && k < |xs| && LevelExtended(m, h, xs, seen, k) && seen <= seen'
    ensures LevelExtended(m, h, xs + [x], seen', k)
  {
    hide Extended;
    assert (xs + [x])[..k] == xs[..k];
    ExtendedMore(m, h, seen, seen', ConfigAt(m, h, xs[..k]), h.call[xs[k]] + 2);
  }

  lemma FrontExtends<S, I, O>(m: Model<S, I, O>, h: History<I, O>, xs: seq<nat>, seen: set<Config<S>>)
    requires Paired(h)
    ensures Extended(m, h, seen, ConfigAt(m, h, xs), Following(h, xs, 0))
  {
    hide Minimal, Reached, Ops;
    forall y: nat | y < |h.call| && y !in xs
      ensures h.call[y] + 1 >= Following(h, xs, 0)
    {
      Stays(h, xs, y);
    }
  }

  // ---------- Going back

  /** At a return, everything that may come next was met. */
  lemma ReturnExtends<S, I, O>(m: Model<S, I, O>, h: History<I, O>, xs: seq<nat>, seen: set<Config<S>>, e: nat, y: nat)
    requires Paired(h) && y < |h.call| && e == h.ret[y] + 1 && y !in xs
    requires Extended(m, h, seen, ConfigAt(m, h, xs), e)
    ensures Extended(m, h, seen, ConfigAt(m, h, xs), |h.entries| + 2)
  {
    hide Reached, Successor, Ops;
    forall z: nat | MayFollow(m, h, ConfigAt(m, h, xs), z)
      ensures h.call[z] + 1 < e
    {
      assert h.entries[h.ret[y]].ReturnEntry? && h.entries[h.call[z]].CallEntry?;
      assert z != y ==> !Precedes(h)(y, z);
    }
  }

  /** The stack replaces what was kept for its operations, where it is longer. */
  ghost function Lengthened(longest: Longest, xs: seq<nat>): Longest {
    seq(|longest|, i requires 0 <= i < |longest| =>
      if i in xs && (longest[i].None? || |xs| > |longest[i].value|) then Some(xs) else longest[i])
  }

  lemma LengthenedKeeps(longest: Longest, xs: seq<nat>, done: set<nat>)
    requires Kept(longest, done)
    ensures Kept(Lengthened(longest, xs), done)
  {
  }

  lemma LengthenedKept(longest: Longest, xs: seq<nat>)
    requires |Ids(xs)| == |xs| && forall x :: x in xs ==> x < |longest|
    ensures Kept(Lengthened(longest, xs), Ids(xs))
  {
  }

  lemma RetreatExplores<S, I, O>(m: Model<S, I, O>, h: History<I, O>, xs: seq<nat>, seen: set<Config<S>>, e: nat,
      y: nat, longest: Longest)
    requires Explored(m, h, xs, seen, e, longest) && TakenInTurn(Precedes(h), |h.call|, xs) && |longest| == |h.call|
    requires y < |h.call| && e == h.ret[y] + 1 && y !in xs && |xs| > 0
    ensures xs[|xs| - 1] < |h.call|
    ensures var ys, x := xs[..|xs| - 1], xs[|xs| - 1];
      Explored(m, h, ys, seen, Following(h, ys, h.call[x] + 1), Lengthened(longest, xs))
  {
    assert LevelExtended(m, h, xs, seen, |xs| - 1);
    hide Following, ConfigAt, Spent, Extended, Reached, Ops, TakenInTurn, Minimal, OnPath, LevelExtended, Lengthened;
    var ys, x := xs[..|xs| - 1], xs[|xs| - 1];
    TopIsSpent(m, h, xs, seen, e, y, longest);
    forall c | c in seen
      ensures OnPath(m, h, ys, c) || Spent(m, h, seen, Lengthened(longest, xs), c)
    {
      RetreatPath(m, h, xs, seen, longest, c);
    }
    forall k | 0 <= k < |ys|
      ensures LevelExtended(m, h, ys, seen, k)
    {
      LevelBelow(m, h, xs, seen, k);
    }
    BehindTop(m, h, xs, seen);
  }

  lemma TopIsSpent<S, I, O>(m: Model<S, I, O>, h: History<I, O>, xs: seq<nat>, seen: set<Config<S>>, e: nat, y: nat,
      longest: Longest)
    requires Paired(h) && TakenInTurn(Precedes(h), |h.call|, xs) && |longest| == |h.call|
    requires Extended(m, h, seen, ConfigAt(m, h, xs), e)
    requires y < |h.call| && e == h.ret[y] + 1 && y !in xs
    ensures Spent(m, h, seen, Lengthened(longest, xs), ConfigAt(m, h, xs))
  {
    hide Extended, Reached, Kept, Lengthened, Minimal;
    ReturnExtends(m, h, xs, seen, e, y);
    PathBounded(Precedes(h), |h.call|, xs);
    LengthenedKept(longest, xs);
  }

  lemma RetreatPath<S, I, O>(m: Model<S, I, O>, h: History<I, O>, xs: seq<nat>, seen: set<Config<S>>, longest: Longest,
      c: Config<S>)
    requires Paired(h) && |xs| > 0 && Spent(m, h, seen, Lengthened(longest, xs), ConfigAt(m, h, xs))
    requires OnPath(m, h, xs, c) || Spent(m, h, seen, longest, c)
    ensures OnPath(m, h, xs[..|xs| - 1], c) || Spent(m, h, seen, Lengthened(longest, xs), c)
  {
    hide ConfigAt, Extended, Kept, Lengthened;
    if OnPath(m, h, xs, c) {
      var ys := xs[..|xs| - 1];
      var k :| 0 < k <= |xs| && c == ConfigAt(m, h, xs[..k]);
      assert k < |xs| ==> xs[..k] == ys[..k];
      assert xs[..|xs|] == xs;
    } else {
      LengthenedKeeps(longest, xs, c.done);
    }
  }

  lemma LevelBelow<S, I, O>(m: Model<S, I, O>, h: History<I, O>, xs: seq<nat>, seen: set<Config<S>>, k: nat)
    requires Paired(h) && k + 1 < |xs| && LevelExtended(m, h, xs, seen, k)
    ensures LevelExtended(m, h, xs[..|xs| - 1], seen, k)
  {
    hide Extended;
    assert xs[..|xs| - 1][..k] == xs[..k];
  }

  lemma BehindTop<S, I, O>(m: Model<S, I, O>, h: History<I, O>, xs: seq<nat>, seen: set<Config<S>>)
    requires Paired(h) && |xs| > 0 && TakenInTurn(Precedes(h), |h.call|, xs) && LevelExtended(m, h, xs, seen, |xs| - 1)
    ensures var ys, x := xs[..|xs| - 1], xs[|xs| - 1];
      Extended(m, h, seen, ConfigAt(m, h, ys), Following(h, ys, h.call[x] + 1))
  {
    hide Following, Minimal, Reached, Ops, TakenInTurn, LivePosition;
    var ys, x := xs[..|xs| - 1], xs[|xs| - 1];
    assert xs == ys + [x];
    StoodOnCall(h, ys, x);
    PassedOver(h, ys, h.call[x] + 1, x);
  }

  // ---------- At the end

  /** No partial linearization that contains an operation is longer than the one kept for it. */
  ghost predicate LongestKept<S, I, O>(m: Model<S, I, O>, ops: seq<Call<I, O>>, before: Before, longest: Longest) {
    forall ys, x :: Partial(m, ops, before, ys) && x in ys ==>
      x < |longest| && longest[x].Some? && |ys| <= |longest[x].value|
  }

  /** Stuck with nothing chosen, the search has met every configuration there is. */
  lemma {:induction false} AllMet<S, I, O>(m: Model<S, I, O>, h: History<I, O>, seen: set<Config<S>>, e: nat, y: nat,
      longest: Longest, ys: seq<nat>)
    requires Explored(m, h, [], seen, e, longest) && y < |h.call| && e == h.ret[y] + 1
    requires Partial(m, Ops(h), Precedes(h), ys) && ys != []
    ensures ConfigAt(m, h, ys) in seen
    decreases |ys|
  {
    hide Ops, Reached, Accepts, Minimal, TakenInTurn, Kept, ConfigAt, Extended;
    var zs, z := ys[..|ys| - 1], ys[|ys| - 1];
    assert ys == zs + [z];
    LastFollows(m, h, zs, z);
    if zs == [] {
      ReturnExtends(m, h, [], seen, e, y);
    } else {
      AllMet(m, h, seen, e, y, longest, zs);
    }
    ExtendedBy(m, h, seen, ConfigAt(m, h, zs), z);
  }

  lemma ExtendedBy<S, I, O>(m: Model<S, I, O>, h: History<I, O>, seen: set<Config<S>>, c: Config<S>, y: nat)
    requires Paired(h) && Extended(m, h, seen, c, |h.entries| + 2) && MayFollow(m, h, c, y)
    ensures Successor(m, h, c, y) in seen
  {
    hide Minimal, Ops;
  }

  lemma LastFollows<S, I, O>(m: Model<S, I, O>, h: History<I, O>, zs: seq<nat>, z: nat)
    requires Paired(h) && Partial(m, Ops(h), Precedes(h), zs + [z])
    ensures Partial(m, Ops(h), Precedes(h), zs) && MayFollow(m, h, ConfigAt(m, h, zs), z)
    ensures ConfigAt(m, h, zs + [z]) == Successor(m, h, ConfigAt(m, h, zs), z)
  {
    hide Minimal, Accepts, Ops;
    var ys := zs + [z];
    assert ys[..|zs|] == zs && ys[|zs|] == z;
    LastStep(m, h, zs, z);
    AcceptsLast(m, Ops(h), m.init, zs, z);
    TakenPrefix(Precedes(h), |h.call|, ys, |zs|);
  }

  lemma StuckIsLongest<S(!new), I, O>(m: Model<S, I, O>, h: History<I, O>, seen: set<Config<S>>, e: nat, y: nat,
      longest: Longest)
    requires Explored(m, h, [], seen, e, longest) && y < |h.call| && e == h.ret[y] + 1
    ensures LongestKept(m, Ops(h), Precedes(h), longest)
  {
    hide Ops, Reached, Partial, Extended;
    forall ys, x | Partial(m, Ops(h), Precedes(h), ys) && x in ys
      ensures x < |longest| && longest[x].Some? && |ys| <= |longest[x].value|
    {
      AllMet(m, h, seen, e, y, longest, ys);
      SizeOfPath(m, h, ys);
      assert x in ConfigAt(m, h, ys).done;
    }
  }

  lemma SizeOfPath<S, I, O>(m: Model<S, I, O>, h: History<I, O>, ys: seq<nat>)
    requires Paired(h) && Partial(m, Ops(h), Precedes(h), ys)
    ensures |Ids(ys)| == |ys| <= |h.call| && forall x :: x in ys ==> x < |h.call|
  {
    hide Minimal, Accepts;
    PathBounded(Precedes(h), |h.call|, ys);
  }

  /** Nothing is longer than a linearization. */
  lemma FullIsLongest<S(!new), I, O>(m: Model<S, I, O>, h: History<I, O>, xs: seq<nat>)
    requires Paired(h) && Partial(m, Ops(h), Precedes(h), xs) && forall x: nat :: x < |h.call| ==> x in xs
    ensures LongestKept(m, Ops(h), Precedes(h), seq(|h.call|, _ => Some(xs)))
  {
    hide Ops, Partial;
    SizeOfPath(m, h, xs);
    assert Ids(xs) == FiniteSets.Below(|h.call|);
    forall ys, x | Partial(m, Ops(h), Precedes(h), ys) && x in ys
      ensures x < |h.call| && |ys| <= |xs|
    {
      SizeOfPath(m, h, ys);
    }
  }
}
