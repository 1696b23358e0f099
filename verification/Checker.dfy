/** The search for a linearization of one history. */
module Checker {
  import opened Wrappers
  import opened Linearizability
  import opened Sorting
  import opened EntryList
  import opened SearchSpace
  import opened SearchCoverage
  import opened Bitset

  // ---------- The cache of configurations

  datatype CacheEntry<S> = CacheEntry(linearized: Words, state: S)

  type Cache<S> = map<Word, seq<CacheEntry<S>>>

  ghost predicate InCache<S>(cache: Cache<S>, entry: CacheEntry<S>) {
    Hash(entry.linearized) in cache && entry in cache[Hash(entry.linearized)]
  }

  ghost function Abstract<S>(entry: CacheEntry<S>): Config<S> {
    Config(Numbers(entry.linearized), entry.state)
  }

  /** The cache holds exactly the configurations `seen`, as sets of `width` words. */
  ghost predicate CacheHolds<S(!new)>(cache: Cache<S>, width: nat, seen: set<Config<S>>) {
    && (forall entry :: InCache(cache, entry) ==> |entry.linearized| == width && Abstract(entry) in seen)
    && (forall c :: c in seen ==> exists entry :: InCache(cache, entry) && Abstract(entry) == c)
  }

  lemma CachedIffSeen<S(!new)>(cache: Cache<S>, width: nat, seen: set<Config<S>>, entry: CacheEntry<S>)
    requires CacheHolds(cache, width, seen) && |entry.linearized| == width
    ensures InCache(cache, entry) <==> Abstract(entry) in seen
  {
    if Abstract(entry) in seen {
      var other :| InCache(cache, other) && Abstract(other) == Abstract(entry);
      EqualsIffSameSet(entry.linearized, other.linearized);
    }
  }

  lemma CacheGrows<S(!new)>(cache: Cache<S>, width: nat, seen: set<Config<S>>, entry: CacheEntry<S>, cache': Cache<S>)
    requires CacheHolds(cache, width, seen) && |entry.linearized| == width
    requires var hash := Hash(entry.linearized);
      cache' == cache[hash := (if hash in cache then cache[hash] else []) + [entry]]
    ensures CacheHolds(cache', width, seen + {Abstract(entry)})
  {
    forall other
      ensures InCache(cache', other) <==> InCache(cache, other) || other == entry
    {
    }
    forall c | c in seen + {Abstract(entry)}
      ensures exists other :: InCache(cache', other) && Abstract(other) == c
    {
      if c == Abstract(entry) {
        assert InCache(cache', entry);
      } else {
        var other :| InCache(cache, other) && Abstract(other) == c;
        assert InCache(cache', other);
      }
    }
  }

  method CacheContains<S(==)>(cache: Cache<S>, entry: CacheEntry<S>) returns (found: bool)
    ensures found <==> InCache(cache, entry)
  {
    var hash := HashCode(entry.linearized);
    var elems := if hash in cache then cache[hash] else [];
    for i := 0 to |elems|
      invariant entry !in elems[..i]
    {
      var same := Equals(entry.linearized, elems[i].linearized);
      if same && entry.state == elems[i].state {
        return true;
      }
    }
    return false;
  }

  // ---------- The list while operations are lifted out of it

  /** The list lacks exactly the operations `xs`, which can be put back in the opposite order. */
  ghost predicate Laid<I, O>(ns: EntryNodes<I, O>, nx: EntryLinks<I, O>, pv: EntryLinks<I, O>, h: History<I, O>,
      xs: seq<nat>)
  {
    && Paired(h) && |ns| == |h.entries| + 1
    && Linked(ns, nx, pv, Removed(h, xs))
    && forall k :: 0 <= k < |xs| ==> FrameParked(ns, nx, pv, h, xs, k)
  }

  ghost predicate FrameParked<I, O>(ns: EntryNodes<I, O>, nx: EntryLinks<I, O>, pv: EntryLinks<I, O>, h: History<I, O>,
      xs: seq<nat>, k: nat)
    requires Paired(h) && k < |xs|
  {
    && xs[k] < |h.call| && xs[k] !in xs[..k]
    && PairParked(ns, nx, pv, Removed(h, xs[..k]), h.call[xs[k]] + 1, h.ret[xs[k]] + 1)
  }

  lemma RemovedOneMore<I, O>(h: History<I, O>, xs: seq<nat>, x: nat)
    requires Paired(h) && x < |h.call| && x !in xs
    ensures Removed(h, xs + [x]) == Removed(h, xs) + {h.call[x] + 1, h.ret[x] + 1}
    ensures h.call[x] + 1 !in Removed(h, xs) && h.ret[x] + 1 !in Removed(h, xs)
  {
    forall p: nat
      ensures p in Removed(h, xs + [x]) <==> p in Removed(h, xs) || p == h.call[x] + 1 || p == h.ret[x] + 1
    {
      if 0 < p <= |h.entries| {
        IsPlaced(h, p - 1);
      }
    }
  }

  /** Frames below stay as they were when no removed node changes. */
  lemma FramesStay<I, O>(ns: EntryNodes<I, O>, nx: EntryLinks<I, O>, pv: EntryLinks<I, O>, nx': EntryLinks<I, O>,
      pv': EntryLinks<I, O>, h: History<I, O>, xs: seq<nat>, ys: seq<nat>, k: nat)
    requires Paired(h) && |ns| == |nx| == |pv| == |nx'| == |pv'| == |h.entries| + 1
    requires k < |ys| <= |xs| && ys == xs[..|ys|] && FrameParked(ns, nx, pv, h, xs, k)
    requires forall p :: 0 <= p < |ns| && p in Removed(h, ys) ==> nx'[p] == nx[p] && pv'[p] == pv[p]
    ensures FrameParked(ns, nx', pv', h, ys, k)
  {
    hide NextLive, PrevLive;
    var x := xs[k];
    assert ys[..k] == xs[..k] && x in ys;
    assert Belongs(h, ys, h.call[x] + 1) && Belongs(h, ys, h.ret[x] + 1);
  }

  method LiftCall<I, O>(entry: EntryNode<I, O>, ghost ns: EntryNodes<I, O>, ghost h: History<I, O>, ghost xs: seq<nat>,
      ghost x: nat)
    requires Nodes(ns) && Laid(ns, Nexts(ns), Prevs(ns), h, xs) && x < |h.call| && x !in xs
    requires entry == ns[h.call[x] + 1] && entry.partner == ns[h.ret[x] + 1]
    modifies ns
    ensures Laid(ns, Nexts(ns), Prevs(ns), h, xs + [x])
  {
    hide Linked, Parked, Removed;
    ghost var nx, pv, gone, ys := Nexts(ns), Prevs(ns), Removed(h, xs), xs + [x];
    RemovedOneMore(h, xs, x);
    Lift(entry, ns, gone, h.call[x] + 1, h.ret[x] + 1);
    forall k | 0 <= k < |ys|
      ensures FrameParked(ns, Nexts(ns), Prevs(ns), h, ys, k)
    {
      if k < |xs| {
        FramesStay(ns, nx, pv, Nexts(ns), Prevs(ns), h, xs, xs, k);
        assert ys[..k] == xs[..k];
      } else {
        assert ys[..k] == xs;
      }
    }
  }

  method UnliftTop<I, O>(entry: EntryNode<I, O>, ghost ns: EntryNodes<I, O>, ghost h: History<I, O>, ghost ys: seq<nat>,
      ghost x: nat)
    requires Nodes(ns) && Laid(ns, Nexts(ns), Prevs(ns), h, ys + [x]) && x < |h.call|
    requires entry == ns[h.call[x] + 1] && entry.partner == ns[h.ret[x] + 1]
    modifies ns
    ensures Laid(ns, Nexts(ns), Prevs(ns), h, ys)
  {
    hide Linked, Parked, Removed;
    ghost var nx, pv, xs := Nexts(ns), Prevs(ns), ys + [x];
    assert FrameParked(ns, nx, pv, h, xs, |ys|) && xs[..|ys|] == ys;
    RemovedOneMore(h, ys, x);
    Unlift(entry, ns, Removed(h, ys), h.call[x] + 1, h.ret[x] + 1);
    forall k | 0 <= k < |ys|
      ensures FrameParked(ns, Nexts(ns), Prevs(ns), h, ys, k)
    {
      FramesStay(ns, nx, pv, Nexts(ns), Prevs(ns), h, xs, ys, k);
    }
  }

  // ---------- The stack of choices

  datatype Frame<S, I, O> = Frame(entry: EntryNode<I, O>, state: S)

  /** The stack holds the operations `xs`, each with the state it was tried in. */
  ghost predicate Stacked<S, I, O>(m: Model<S, I, O>, h: History<I, O>, ns: EntryNodes<I, O>,
      calls: seq<Frame<S, I, O>>, xs: seq<nat>)
  {
    && Paired(h) && |ns| == |h.entries| + 1 && |calls| == |xs|
    && (forall k :: 0 <= k < |xs| ==> xs[k] < |h.call| && calls[k].entry == ns[h.call[xs[k]] + 1])
    && (forall k :: 0 <= k < |xs| ==> calls[k].state == Reached(m, h, xs[..k]))
  }

  lemma StackPush<S, I, O>(m: Model<S, I, O>, h: History<I, O>, ns: EntryNodes<I, O>, calls: seq<Frame<S, I, O>>,
      xs: seq<nat>, x: nat, frame: Frame<S, I, O>)
    requires Stacked(m, h, ns, calls, xs) && x < |h.call| && frame == Frame(ns[h.call[x] + 1], Reached(m, h, xs))
    ensures Stacked(m, h, ns, calls + [frame], xs + [x])
  {
    hide Reached;
    var ys := xs + [x];
    assert forall k :: 0 <= k < |ys| ==> ys[..k] == if k < |xs| then xs[..k] else xs;
  }

  lemma StackPop<S, I, O>(m: Model<S, I, O>, h: History<I, O>, ns: EntryNodes<I, O>, calls: seq<Frame<S, I, O>>,
      xs: seq<nat>)
    requires Stacked(m, h, ns, calls, xs) && |xs| > 0
    ensures Stacked(m, h, ns, calls[..|xs| - 1], xs[..|xs| - 1]) && xs[|xs| - 1] < |h.call|
    ensures calls[|xs| - 1] == Frame(ns[h.call[xs[|xs| - 1]] + 1], Reached(m, h, xs[..|xs| - 1]))
  {
    hide Reached;
    var k := |xs| - 1;
    assert forall i :: 0 <= i < k ==> xs[..k][..i] == xs[..i];
  }

  /** What the list node at position `e` holds. */
  lemma AtCall<I, O>(h: History<I, O>, ns: EntryNodes<I, O>, x: nat)
    requires Paired(h) && Carries(ns, 1, h, 0) && x < |h.call|
    ensures h.call[x] < h.ret[x] < |ns| - 1
    ensures ns[h.call[x] + 1].value == Some(CallEntry(x, Ops(h)[x].input))
    ensures ns[h.call[x] + 1].partner == ns[h.ret[x] + 1]
    ensures ns[h.ret[x] + 1].value == Some(ReturnEntry(x, Ops(h)[x].output))
    ensures ns[h.ret[x] + 1].partner == null
  {
    var c, r := h.call[x], h.ret[x];
    assert h.entries[c].CallEntry? && h.entries[r].ReturnEntry?;
    assert Carried(ns, 1, h, 0, c) && Carried(ns, 1, h, 0, r);
  }

  lemma IdAt<S, I, O>(m: Model<S, I, O>, h: History<I, O>, ns: EntryNodes<I, O>, calls: seq<Frame<S, I, O>>,
      xs: seq<nat>, k: nat)
    requires Stacked(m, h, ns, calls, xs) && Carries(ns, 1, h, 0) && k < |calls|
    ensures |xs| == |calls| && xs[k] < |h.call|
    ensures calls[k].entry.value.Some? && calls[k].entry.value.value.id == xs[k]
  {
    hide Carries, Reached, Ops;
    AtCall(h, ns, xs[k]);
  }

  lemma IdsWithin<S, I, O>(m: Model<S, I, O>, h: History<I, O>, ns: EntryNodes<I, O>, calls: seq<Frame<S, I, O>>,
      xs: seq<nat>)
    requires Stacked(m, h, ns, calls, xs)
    ensures |xs| == |calls| && forall k :: 0 <= k < |xs| ==> xs[k] < |h.call|
  {
  }

  method StackIds<S, I, O>(calls: seq<Frame<S, I, O>>, ghost m: Model<S, I, O>, ghost h: History<I, O>,
      ghost ns: EntryNodes<I, O>, ghost xs: seq<nat>)
    returns (ids: seq<nat>)
    requires Stacked(m, h, ns, calls, xs) && Carries(ns, 1, h, 0)
    ensures ids == xs
  {
    hide Carries, Reached, Ops;
    ids := [];
    for i := 0 to |calls|
      invariant ids == xs[..i]
    {
      IdAt(m, h, ns, calls, xs, i);
      ids := ids + [calls[i].entry.value.value.id];
    }
  }

  // ---------- The longest partial linearization found for each operation

  method Lengthen<S, I, O>(longest: array<Option<seq<nat>>>, calls: seq<Frame<S, I, O>>, ghost m: Model<S, I, O>,
      ghost h: History<I, O>, ghost ns: EntryNodes<I, O>, ghost xs: seq<nat>)
    requires Stacked(m, h, ns, calls, xs) && Carries(ns, 1, h, 0) && Distinct(xs) && longest.Length == |h.call|
    modifies longest
    ensures longest[..] == Lengthened(old(longest[..]), xs)
  {
    IdsWithin(m, h, ns, calls, xs);
    hide Carries, Stacked;
    var order: Option<seq<nat>> := None;
    for k := 0 to |calls|
      invariant order.Some? ==> order.value == xs
      invariant longest[..] == seq(longest.Length, i requires 0 <= i < longest.Length =>
        if i in xs[..k] then Lengthened(old(longest[..]), xs)[i] else old(longest[..])[i])
    {
      IdAt(m, h, ns, calls, xs, k);
      var id := calls[k].entry.value.value.id;
      if longest[id].None? || |calls| > |longest[id].value| {
        if order.None? {
          var ids := StackIds(calls, m, h, ns, xs);
          order := Some(ids);
        }
        longest[id] := order;
      }
    }
    assert xs[..|calls|] == xs;
  }

  /** Whatever is kept for an operation is a partial linearization that contains it. */
  ghost predicate AllPartial<S, I, O>(m: Model<S, I, O>, h: History<I, O>, longest: Longest) {
    && Paired(h) && |longest| == |h.call|
    && forall i :: 0 <= i < |longest| && longest[i].Some? ==>
      i in longest[i].value && Partial(m, Ops(h), Precedes(h), longest[i].value)
  }

  lemma LengthenedIsPartial<S, I, O>(m: Model<S, I, O>, h: History<I, O>, longest: Longest, xs: seq<nat>)
    requires AllPartial(m, h, longest) && Partial(m, Ops(h), Precedes(h), xs)
    ensures AllPartial(m, h, Lengthened(longest, xs))
  {
    hide Partial;
  }

  lemma NextInList<I, O>(ns: EntryNodes<I, O>, nx: EntryLinks<I, O>, pv: EntryLinks<I, O>, h: History<I, O>,
      xs: seq<nat>, p: nat)
    requires Laid(ns, nx, pv, h, xs) && p <= |h.entries| && p !in Removed(h, xs)
    ensures |nx| == |ns| && nx[p] == NodeAt(ns, Following(h, xs, p)) && p < Following(h, xs, p) <= |ns|
  {
    hide NextLive, Removed, Linked, FrameParked;
    NextLinked(ns, nx, pv, Removed(h, xs), p);
  }

  /** The head is never removed. */
  lemma HeadStays<I, O>(h: History<I, O>, xs: seq<nat>)
    ensures 0 !in Removed(h, xs)
  {
  }

  /** On an entry, the search stands on the call or on the return of an operation not chosen yet. */
  lemma Standing<S, I, O>(m: Model<S, I, O>, h: History<I, O>, ns: EntryNodes<I, O>, xs: seq<nat>, seen: set<Config<S>>,
      e: nat)
    returns (x: nat)
    requires Searching(m, h, xs, seen, e) && e <= |h.entries| && Carries(ns, 1, h, 0)
    ensures x < |h.call| && x !in xs
    ensures ns[e].partner != null ==> CallAt(h, xs, e, x)
    ensures ns[e].partner == null ==> e == h.ret[x] + 1
  {
    hide Partial, TriedBelow, Tried, CacheSound, ReturnsAhead, Ops;
    x := h.entries[e - 1].id;
    IsPlaced(h, e - 1);
    AtCall(h, ns, x);
    assert !Belongs(h, xs, e);
  }

  lemma TakenOnce(before: Before, n: nat, xs: seq<nat>)
    requires TakenInTurn(before, n, xs)
    ensures Distinct(xs)
  {
    forall i, j | 0 <= i < j < |xs|
      ensures xs[i] != xs[j]
    {
      assert xs[i] in xs[..j];
    }
  }

  // ---------- One state of the search, and its moves

  datatype Registers<S, I, O> = Registers(linearized: Words, cache: Cache<S>, calls: seq<Frame<S, I, O>>, state: S)

  /** Bit set, cache, stack and state say what the search knows. */
  ghost predicate Registered<S(!new), I, O>(m: Model<S, I, O>, h: History<I, O>, ns: EntryNodes<I, O>,
      g: Registers<S, I, O>, xs: seq<nat>, seen: set<Config<S>>, e: nat)
  {
    && Searching(m, h, xs, seen, e)
    && Carries(ns, 1, h, 0)
    && Stacked(m, h, ns, g.calls, xs)
    && |g.linearized| == Chunks(|h.call|) && Numbers(g.linearized) == Ids(xs)
    && CacheHolds(g.cache, Chunks(|h.call|), seen)
    && seen <= Reachable(m, Ops(h), |h.call|)
    && g.state == Reached(m, h, xs)
  }

  lemma Initially<S(!new), I, O>(m: Model<S, I, O>, h: History<I, O>, ns: EntryNodes<I, O>, words: Words)
    requires Paired(h) && Carries(ns, 1, h, 0) && |words| == Chunks(|h.call|) && Numbers(words) == {}
    ensures Registered(m, h, ns, Registers(words, map[], [], m.init), [], {}, 1)
  {
    hide Reachable, Searching;
    Start(m, h);
    assert Ids([]) == {};
  }

  lemma Skipped<S(!new), I, O>(m: Model<S, I, O>, h: History<I, O>, ns: EntryNodes<I, O>, g: Registers<S, I, O>,
      xs: seq<nat>, seen: set<Config<S>>, e: nat, x: nat)
    requires Registered(m, h, ns, g, xs, seen, e) && CallAt(h, xs, e, x)
    requires RuledOut(m, Ops(h), Precedes(h), Ids(xs), Reached(m, h, xs), x)
    ensures e <= |h.entries| && Registered(m, h, ns, g, xs, seen, Following(h, xs, e))
  {
    hide Carries, Stacked, CacheHolds, Reachable, Searching, Reached, RuledOut, Numbers;
    Skip(m, h, xs, seen, e, x);
  }

  /** The cache entry for choosing `x` next. */
  ghost predicate EntryFor<S, I, O>(m: Model<S, I, O>, h: History<I, O>, g: Registers<S, I, O>, x: nat,
      entry: CacheEntry<S>)
  {
    && Paired(h) && x < |h.call| && x < 64 * |g.linearized|
    && Step(m, g.state, Ops(h)[x]) == (true, entry.state)
    && entry.linearized == Put(g.linearized, x, true)
  }

  lemma EntryMeans<S(!new), I, O>(m: Model<S, I, O>, h: History<I, O>, ns: EntryNodes<I, O>, g: Registers<S, I, O>,
      xs: seq<nat>, seen: set<Config<S>>, e: nat, x: nat, entry: CacheEntry<S>)
    requires Registered(m, h, ns, g, xs, seen, e) && EntryFor(m, h, g, x, entry)
    ensures Abstract(entry) == Config(Ids(xs) + {x}, Step(m, Reached(m, h, xs), Ops(h)[x]).1)
    ensures |entry.linearized| == Chunks(|h.call|)
    ensures InCache(g.cache, entry) <==> Abstract(entry) in seen
  {
    hide Carries, Stacked, Reachable, Searching, Reached, Numbers, InCache, Step, CacheHolds;
    PutRefines(g.linearized, x);
    CachedIffSeen(g.cache, Chunks(|h.call|), seen, entry);
  }

  lemma SkippedCached<S(!new), I, O>(m: Model<S, I, O>, h: History<I, O>, ns: EntryNodes<I, O>, g: Registers<S, I, O>,
      xs: seq<nat>, seen: set<Config<S>>, e: nat, x: nat, entry: CacheEntry<S>)
    requires Registered(m, h, ns, g, xs, seen, e) && CallAt(h, xs, e, x) && EntryFor(m, h, g, x, entry)
    requires InCache(g.cache, entry)
    ensures e <= |h.entries| && Registered(m, h, ns, g, xs, seen, Following(h, xs, e))
  {
    hide Carries, Stacked, CacheHolds, Reachable, Searching, Reached, RuledOut, Numbers, InCache, Abstract, Step;
    EntryMeans(m, h, ns, g, xs, seen, e, x, entry);
    CachedIsRuledOut(m, h, xs, seen, e, x);
    Skip(m, h, xs, seen, e, x);
  }

  lemma Pushed<S(!new), I, O>(m: Model<S, I, O>, h: History<I, O>, ns: EntryNodes<I, O>, g: Registers<S, I, O>,
      xs: seq<nat>, seen: set<Config<S>>, e: nat, x: nat, entry: CacheEntry<S>, cache: Cache<S>)
    requires Registered(m, h, ns, g, xs, seen, e) && CallAt(h, xs, e, x) && EntryFor(m, h, g, x, entry)
    requires !InCache(g.cache, entry)
    requires var hash := Hash(entry.linearized);
      cache == g.cache[hash := (if hash in g.cache then g.cache[hash] else []) + [entry]]
    ensures |ns| > e
    ensures Registered(m, h, ns, Registers(entry.linearized, cache, g.calls + [Frame(ns[e], g.state)], entry.state),
      xs + [x], seen + {Abstract(entry)}, Following(h, xs + [x], 0))
    ensures Abstract(entry) in Reachable(m, Ops(h), |h.call|) && Abstract(entry) !in seen
  {
    hide Carries, CacheHolds, Reachable, Searching, Numbers, InCache, Step, Stacked, Reached, Following;
    EntryMeans(m, h, ns, g, xs, seen, e, x, entry);
    Push(m, h, xs, seen, e, x);
    CacheGrows(g.cache, Chunks(|h.call|), seen, entry, cache);
    Spacious(m, h, ns, g.calls, xs);
    StackPush(m, h, ns, g.calls, xs, x, Frame(ns[e], g.state));
    Fits(m, h, xs + [x], seen + {ConfigAt(m, h, xs + [x])}, Following(h, xs + [x], 0));
    assert Ids(xs + [x]) == Ids(xs) + {x};
  }

  lemma Spacious<S, I, O>(m: Model<S, I, O>, h: History<I, O>, ns: EntryNodes<I, O>, calls: seq<Frame<S, I, O>>,
      xs: seq<nat>)
    requires Stacked(m, h, ns, calls, xs)
    ensures Paired(h) && |ns| == |h.entries| + 1 && |calls| == |xs|
  {
  }

  lemma Fits<S, I, O>(m: Model<S, I, O>, h: History<I, O>, xs: seq<nat>, seen: set<Config<S>>, e: nat)
    requires Searching(m, h, xs, seen, e)
    ensures ConfigAt(m, h, xs) in Reachable(m, Ops(h), |h.call|)
  {
    hide Minimal, Tried, CacheSound, ReturnsAhead, LivePosition, Reachable, ConfigAt, Accepts;
    PathBounded(Precedes(h), |h.call|, xs);
    PathReachable(m, h, xs, |h.call|);
  }

  lemma Popped<S(!new), I, O>(m: Model<S, I, O>, h: History<I, O>, ns: EntryNodes<I, O>, g: Registers<S, I, O>,
      xs: seq<nat>, seen: set<Config<S>>, e: nat, y: nat)
    requires Registered(m, h, ns, g, xs, seen, e) && y < |h.call| && e == h.ret[y] + 1 && y !in xs && |xs| > 0
    ensures |g.calls| == |xs| && xs[|xs| - 1] < |h.call| && h.call[xs[|xs| - 1]] + 1 < |ns|
    ensures xs[|xs| - 1] < 64 * |g.linearized|
    ensures g.calls[|xs| - 1].entry == ns[h.call[xs[|xs| - 1]] + 1]
    ensures h.call[xs[|xs| - 1]] + 1 !in Removed(h, xs[..|xs| - 1])
    ensures Registered(m, h, ns,
      Registers(Put(g.linearized, xs[|xs| - 1], false), g.cache, g.calls[..|xs| - 1], g.calls[|xs| - 1].state),
      xs[..|xs| - 1], seen, Following(h, xs[..|xs| - 1], h.call[xs[|xs| - 1]] + 1))
  {
    hide Carries, CacheHolds, Reachable, Searching, Numbers, Stacked, Reached, Following, Hopeless, ConfigAt, Removed;
    var ys, x := xs[..|xs| - 1], xs[|xs| - 1];
    assert xs == ys + [x];
    Spacious(m, h, ns, g.calls, xs);
    StuckAtReturn(m, h, xs, seen, e, y);
    Pop(m, h, xs, seen, e);
    StackPop(m, h, ns, g.calls, xs);
    PutRefines(g.linearized, x);
    NotTaken(m, h, ys, x, seen, e);
    Stays(h, ys, x);
    assert Ids(ys) == Ids(xs) - {x};
  }

  lemma NotTaken<S, I, O>(m: Model<S, I, O>, h: History<I, O>, ys: seq<nat>, x: nat, seen: set<Config<S>>, e: nat)
    requires Searching(m, h, ys + [x], seen, e)
    ensures x !in ys
  {
    hide Tried, CacheSound, ReturnsAhead, LivePosition, Minimal, Accepts;
    assert (ys + [x])[|ys|] == x && (ys + [x])[..|ys|] == ys;
  }

  lemma HalfOf<I, O>(h: History<I, O>, row: EntryNodes<I, O>)
    requires Paired(h) && Carries(row, 0, h, 0)
    ensures |row| / 2 == |h.call|
  {
  }

  lemma NothingRemoved<I, O>(ns: EntryNodes<I, O>, nx: EntryLinks<I, O>, pv: EntryLinks<I, O>, h: History<I, O>)
    requires Paired(h) && Carries(ns, 1, h, 0) && Linked(ns, nx, pv, {})
    ensures Laid(ns, nx, pv, h, [])
  {
    hide Linked;
    assert Removed(h, []) == {};
  }

  lemma NothingFound<S, I, O>(m: Model<S, I, O>, h: History<I, O>, longest: Longest)
    requires Paired(h) && |longest| == |h.call| && forall i :: 0 <= i < |longest| ==> longest[i].None?
    ensures AllPartial(m, h, longest)
  {
  }

  /** The list, the registers and the current entry fit together. */
  ghost predicate Consistent<S(!new), I, O>(m: Model<S, I, O>, h: History<I, O>, ns: EntryNodes<I, O>,
      entry: EntryRef<I, O>, g: Registers<S, I, O>, xs: seq<nat>, seen: set<Config<S>>, e: nat)
    reads ns
  {
    Nodes(ns) && Laid(ns, Nexts(ns), Prevs(ns), h, xs) && Registered(m, h, ns, g, xs, seen, e) && entry == NodeAt(ns, e)
  }

  /** While the list is not empty, the search stands on an entry of it. */
  lemma OnEntry<S(!new), I, O>(m: Model<S, I, O>, h: History<I, O>, ns: EntryNodes<I, O>, entry: EntryRef<I, O>,
      g: Registers<S, I, O>, xs: seq<nat>, seen: set<Config<S>>, e: nat)
    returns (x: nat)
    requires Consistent(m, h, ns, entry, g, xs, seen, e) && ns[0].next != null
    ensures Paired(h) && 0 < e < |ns| == |h.entries| + 1 && e !in Removed(h, xs) && entry == ns[e]
    ensures Carries(ns, 1, h, 0)
    ensures x < |h.call| && x !in xs && x < 64 * |g.linearized|
    ensures ns[e].partner != null ==> CallAt(h, xs, e, x)
    ensures ns[e].partner == null ==> e == h.ret[x] + 1
    ensures |g.calls| == |xs| && Stacked(m, h, ns, g.calls, xs) && Distinct(xs) && Partial(m, Ops(h), Precedes(h), xs)
    ensures g.state == Reached(m, h, xs)
  {
    hide Removed, Reachable, Carries, Stacked, CacheHolds, Numbers, Linked, FrameParked, Tried, TriedBelow, CacheSound,
      Minimal, ReturnsAhead, Accepts;
    HeadStays(h, xs);
    NextInList(ns, Nexts(ns), Prevs(ns), h, xs, 0);
    StandsOnEntry(m, h, xs, seen, e);
    x := Standing(m, h, ns, xs, seen, e);
    Spacious(m, h, ns, g.calls, xs);
    TakenOnce(Precedes(h), |h.call|, xs);
  }

  /** Go from the call of `x` to the next entry of the list. */
  method Pass<S(!new), I, O>(entry: EntryNode<I, O>, ghost m: Model<S, I, O>, ghost h: History<I, O>,
      ghost ns: EntryNodes<I, O>, ghost g: Registers<S, I, O>, ghost xs: seq<nat>, ghost seen: set<Config<S>>,
      ghost e: nat)
    returns (next: EntryRef<I, O>)
    requires e <= |h.entries| && e !in Removed(h, xs)
    requires Nodes(ns) && Laid(ns, Nexts(ns), Prevs(ns), h, xs) && entry == NodeAt(ns, e)
    requires Registered(m, h, ns, g, xs, seen, Following(h, xs, e))
    ensures Consistent(m, h, ns, next, g, xs, seen, Following(h, xs, e)) && e < Following(h, xs, e) <= |ns|
  {
    hide Laid, Registered, Following, Removed;
    NextInList(ns, Nexts(ns), Prevs(ns), h, xs, e);
    next := entry.next;
  }

  /** Choose the operation `x` whose call is `entry`. */
  method Choose<S(==, !new), I, O>(head: EntryNode<I, O>, entry: EntryNode<I, O>, newEntry: CacheEntry<S>,
      linearized: BitSet, cache: Cache<S>, calls: seq<Frame<S, I, O>>, state: S,
      ghost m: Model<S, I, O>, ghost h: History<I, O>, ghost ns: EntryNodes<I, O>, ghost xs: seq<nat>,
      ghost seen: set<Config<S>>, ghost e: nat, ghost x: nat)
    returns (next: EntryRef<I, O>, cache': Cache<S>, calls': seq<Frame<S, I, O>>)
    requires Consistent(m, h, ns, entry, Registers(linearized.words[..], cache, calls, state), xs, seen, e)
    requires CallAt(h, xs, e, x)
    requires EntryFor(m, h, Registers(linearized.words[..], cache, calls, state), x, newEntry)
    requires !InCache(cache, newEntry)
    requires head == ns[0] && Carries(ns, 1, h, 0)
    modifies ns, linearized.words
    ensures Consistent(m, h, ns, next, Registers(linearized.words[..], cache', calls', newEntry.state), xs + [x],
      seen + {Abstract(newEntry)}, Following(h, xs + [x], 0))
    ensures Following(h, xs + [x], 0) <= |ns|
    ensures Abstract(newEntry) in Reachable(m, Ops(h), |h.call|) && Abstract(newEntry) !in seen
  {
    hide Laid, Registered, Carries, Following, Removed, Reachable, Hash, Step, Ops, InCache, Abstract;
    ghost var g := Registers(linearized.words[..], cache, calls, state);
    AtCall(h, ns, x);
    var hash := HashCode(newEntry.linearized);
    cache' := cache[hash := (if hash in cache then cache[hash] else []) + [newEntry]];
    Pushed(m, h, ns, g, xs, seen, e, x, newEntry, cache');
    calls' := calls + [Frame(entry, state)];
    linearized.Set(entry.value.value.id);
    LiftCall(entry, ns, h, xs, x);
    HeadStays(h, xs + [x]);
    NextInList(ns, Nexts(ns), Prevs(ns), h, xs + [x], 0);
    next := head.next;
  }

  /** Undo the last choice, and go on behind its call. */
  method Retreat<S(!new), I, O>(ghost entry: EntryRef<I, O>, linearized: BitSet, cache: Cache<S>,
      calls: seq<Frame<S, I, O>>, ghost state: S,
      ghost m: Model<S, I, O>, ghost h: History<I, O>, ghost ns: EntryNodes<I, O>, ghost xs: seq<nat>,
      ghost seen: set<Config<S>>, ghost e: nat, ghost y: nat)
    returns (next: EntryRef<I, O>, calls': seq<Frame<S, I, O>>, state': S, ghost e': nat)
    requires Consistent(m, h, ns, entry, Registers(linearized.words[..], cache, calls, state), xs, seen, e)
    requires Paired(h) && Carries(ns, 1, h, 0)
    requires y < |h.call| && e == h.ret[y] + 1 && y !in xs && |xs| > 0 && |calls| == |xs|
    modifies ns, linearized.words
    ensures Consistent(m, h, ns, next, Registers(linearized.words[..], cache, calls', state'), xs[..|xs| - 1], seen, e')
    ensures e' <= |ns| && xs[|xs| - 1] < |h.call| && h.call[xs[|xs| - 1]] < |h.entries|
    ensures e' == Following(h, xs[..|xs| - 1], h.call[xs[|xs| - 1]] + 1)
  {
    hide Laid, Registered, Carries, Following, Removed;
    Popped(m, h, ns, Registers(linearized.words[..], cache, calls, state), xs, seen, e, y);
    ghost var ys, x := xs[..|xs| - 1], xs[|xs| - 1];
    assert xs == ys + [x];
    AtCall(h, ns, x);
    var top := calls[|calls| - 1];
    state' := top.state;
    linearized.Clear(top.entry.value.value.id);
    calls' := calls[..|calls| - 1];
    UnliftTop(top.entry, ns, h, ys, x);
    e' := Following(h, ys, h.call[x] + 1);
    next := Pass(top.entry, m, h, ns, Registers(linearized.words[..], cache, calls', state'), ys, seen, h.call[x] + 1);
  }

  /** Some measure of what is left falls: configurations, choices to undo, entries ahead. */
  ghost predicate Forward<S>(all: set<Config<S>>, xs: seq<nat>, seen: set<Config<S>>, e: nat, xs': seq<nat>,
      seen': set<Config<S>>, e': nat)
  {
    || (xs' == xs && seen' == seen && e' > e)
    || all - seen' < all - seen
  }

  /** Try the operation `x` whose call is `entry`: choose it, or pass it over. */
  method TryCall<S(==, !new), I, O>(model: Model<S, I, O>, head: EntryNode<I, O>, entry: EntryNode<I, O>,
      linearized: BitSet, cache: Cache<S>, calls: seq<Frame<S, I, O>>, state: S,
      ghost h: History<I, O>, ghost ns: EntryNodes<I, O>, ghost xs: seq<nat>, ghost seen: set<Config<S>>, ghost e: nat,
      ghost x: nat)
    returns (next: EntryRef<I, O>, cache': Cache<S>, calls': seq<Frame<S, I, O>>, state': S, ghost xs': seq<nat>,
        ghost seen': set<Config<S>>, ghost e': nat)
    requires Consistent(model, h, ns, entry, Registers(linearized.words[..], cache, calls, state), xs, seen, e)
    requires CallAt(h, xs, e, x)
    requires head == ns[0] && Carries(ns, 1, h, 0) && e <= |h.entries| && e !in Removed(h, xs)
    requires x < 64 * linearized.words.Length && state == Reached(model, h, xs)
    modifies ns, linearized.words
    ensures Consistent(model, h, ns, next, Registers(linearized.words[..], cache', calls', state'), xs', seen', e')
    ensures e' <= |ns|
    ensures Forward(Reachable(model, Ops(h), |h.call|), xs, seen, e, xs', seen', e')
    ensures Moved(model, h, xs, seen, e, x, xs', seen', e')
  {
    hide Laid, Registered, Carries, Following, Removed, Reachable, Ops, InCache, Abstract, Reached, RuledOut, Moved;
    ghost var g := Registers(linearized.words[..], cache, calls, state);
    AtCall(h, ns, x);
    xs', seen', cache', calls', state' := xs, seen, cache, calls, state;
    var matching := entry.partner;
    var (stepped, newState) := model.step(state, entry.value.value.input, matching.value.value.output);
    if stepped {
      var newLinearized := new BitSet.Clone(linearized);
      newLinearized.Set(entry.value.value.id);
      var newEntry := CacheEntry(newLinearized.words[..], newState);
      var cached := CacheContains(cache, newEntry);
      if !cached {
        next, cache', calls' := Choose(head, entry, newEntry, linearized, cache, calls, state, model, h, ns, xs, seen,
          e, x);
        state' := newState;
        xs', seen', e' := xs + [x], seen + {Abstract(newEntry)}, Following(h, xs + [x], 0);
        ChoiceMoves(model, h, ns, g, xs, seen, e, x, newEntry);
      } else {
        PassMoves(model, h, ns, g, xs, seen, e, x, newEntry);
        SkippedCached(model, h, ns, g, xs, seen, e, x, newEntry);
        next := Pass(entry, model, h, ns, g, xs, seen, e);
        e' := Following(h, xs, e);
      }
    } else {
      NotAccepted(model, h, xs, seen, e, x);
      Skipped(model, h, ns, g, xs, seen, e, x);
      next := Pass(entry, model, h, ns, g, xs, seen, e);
      e' := Following(h, xs, e);
    }
  }

  lemma NotAccepted<S, I, O>(m: Model<S, I, O>, h: History<I, O>, xs: seq<nat>, seen: set<Config<S>>, e: nat, x: nat)
    requires CallAt(h, xs, e, x) && e <= |h.entries| && !Step(m, Reached(m, h, xs), Ops(h)[x]).0
    ensures RuledOut(m, Ops(h), Precedes(h), Ids(xs), Reached(m, h, xs), x)
    ensures Moved(m, h, xs, seen, e, x, xs, seen, Following(h, xs, e))
  {
  }

  lemma PassMoves<S(!new), I, O>(m: Model<S, I, O>, h: History<I, O>, ns: EntryNodes<I, O>, g: Registers<S, I, O>,
      xs: seq<nat>, seen: set<Config<S>>, e: nat, x: nat, entry: CacheEntry<S>)
    requires Registered(m, h, ns, g, xs, seen, e) && CallAt(h, xs, e, x) && EntryFor(m, h, g, x, entry)
    requires InCache(g.cache, entry) && e <= |h.entries|
    ensures Moved(m, h, xs, seen, e, x, xs, seen, Following(h, xs, e))
  {
    hide Registered, Following, Reached, Ops, InCache, Abstract, EntryFor;
    EntryMeans(m, h, ns, g, xs, seen, e, x, entry);
  }

  lemma ChoiceMoves<S(!new), I, O>(m: Model<S, I, O>, h: History<I, O>, ns: EntryNodes<I, O>, g: Registers<S, I, O>,
      xs: seq<nat>, seen: set<Config<S>>, e: nat, x: nat, entry: CacheEntry<S>)
    requires Registered(m, h, ns, g, xs, seen, e) && CallAt(h, xs, e, x) && EntryFor(m, h, g, x, entry)
    requires e <= |h.entries|
    ensures Moved(m, h, xs, seen, e, x, xs + [x], seen + {Abstract(entry)}, Following(h, xs + [x], 0))
  {
    hide Carries, Stacked, CacheHolds, Reachable, Searching, Numbers, Following, Ops, InCache, Abstract;
    EntryMeans(m, h, ns, g, xs, seen, e, x, entry);
    Push(m, h, xs, seen, e, x);
  }

  /** What coverage needs to know of the search. */
  lemma StandsAhead<S(!new), I, O>(m: Model<S, I, O>, h: History<I, O>, ns: EntryNodes<I, O>, entry: EntryRef<I, O>,
      g: Registers<S, I, O>, xs: seq<nat>, seen: set<Config<S>>, e: nat)
    requires Consistent(m, h, ns, entry, g, xs, seen, e)
    ensures Paired(h) && ReturnsAhead(h, xs, e) && TakenInTurn(Precedes(h), |h.call|, xs)
  {
    hide Laid, Carries, Stacked, CacheHolds, Reachable, Numbers, Tried, TriedBelow, CacheSound, Accepts, Minimal;
  }

  /** Nothing has been chosen and the search is stuck: there is no linearization. */
  lemma NoLinearization<S(!new), I, O>(m: Model<S, I, O>, h: History<I, O>, ns: EntryNodes<I, O>, entry: EntryRef<I, O>,
      g: Registers<S, I, O>, xs: seq<nat>, seen: set<Config<S>>, e: nat, y: nat)
    requires Consistent(m, h, ns, entry, g, xs, seen, e) && Paired(h) && y < |h.call| && e == h.ret[y] + 1 && y !in xs
    requires xs == []
    ensures !Linearizable(m, Ops(h), Precedes(h))
  {
    hide Searching, Solvable, Carries, Stacked, CacheHolds, Reachable;
    StuckAtReturn(m, h, xs, seen, e, y);
    NoStep(m, h);
  }

  /** The list is empty: everything has been chosen. */
  lemma AllChosen<S(!new), I, O>(m: Model<S, I, O>, h: History<I, O>, ns: EntryNodes<I, O>, entry: EntryRef<I, O>,
      g: Registers<S, I, O>, xs: seq<nat>, seen: set<Config<S>>, e: nat)
    requires Consistent(m, h, ns, entry, g, xs, seen, e) && ns[0].next == null
    ensures Paired(h) && Linearizable(m, Ops(h), Precedes(h)) && Stacked(m, h, ns, g.calls, xs)
    ensures AllPartial(m, h, seq(|h.call|, _ => Some(xs))) && forall x: nat :: x < |h.call| ==> x in xs
    ensures LongestKept(m, Ops(h), Precedes(h), seq(|h.call|, _ => Some(xs)))
  {
    hide Removed, Reachable, Carries, Stacked, CacheHolds, Numbers, Linked, FrameParked, Tried, TriedBelow, CacheSound,
      Minimal, ReturnsAhead, Accepts, Linearizable;
    HeadStays(h, xs);
    NextInList(ns, Nexts(ns), Prevs(ns), h, xs, 0);
    Finished(m, h, xs, seen, e);
    FullIsLongest(m, h, xs);
  }

  /** Build the list and an empty bit set. */
  method Prepare<S(==, !new), I, O>(model: Model<S, I, O>, history: seq<Entry<I, O>>, ghost h: History<I, O>)
    returns (head: EntryNode<I, O>, entry: EntryRef<I, O>, n: nat, linearized: BitSet, ghost ns: EntryNodes<I, O>)
    requires Paired(h) && history == h.entries
    ensures fresh(ns) && fresh(linearized.words) && ns != [] && head == ns[0] && Carries(ns, 1, h, 0) && n == |h.call|
    ensures Consistent(model, h, ns, entry, Registers(linearized.words[..], map[], [], model.init), [], {}, 1)
  {
    hide Laid, Registered, Carries, Row, Linked, Numbers;
    ghost var row;
    entry, row := MakeLinkedEntries(history, h);
    var length := Length(entry, row);
    HalfOf(h, row);
    n := length / 2;
    linearized := new BitSet(n);
    head, ns := AddHead(entry, row, h);
    Initially(model, h, ns, linearized.words[..]);
    NothingRemoved(ns, Nexts(ns), Prevs(ns), h);
  }

  /** What the first `looks` looks at the kill flag see. */
  function Seen(kill: nat -> bool, looks: nat): (r: seq<bool>)
    ensures |r| == looks && forall k :: 0 <= k < looks ==> r[k] == kill(k)
  {
    seq(looks, k requires 0 <= k < looks => kill(k))
  }

  /** An answer is the truth, or no because the last look saw the flag set. */
  predicate Answers(linear: bool, seen: seq<bool>, ok: bool) {
    if ok then linear else !linear || (seen != [] && seen[|seen| - 1])
  }

  /**
   * Decide whether a history is linearizable. `kill(k)` is what the `k`-th look at the kill flag sees, and `looks`
   * is how often the search looked.
   */
  method CheckSingle<S(==, !new), I, O>(model: Model<S, I, O>, history: seq<Entry<I, O>>, computePartial: bool,
      kill: nat -> bool, ghost h: History<I, O>)
    returns (ok: bool, longest: Longest, ghost looks: nat)
    requires Paired(h) && history == h.entries
    ensures Answers(Linearizable(model, Ops(h), Precedes(h)), Seen(kill, looks), ok)
    ensures forall k: nat :: k < looks && (ok || k + 1 < looks) ==> !kill(k)
    ensures AllPartial(model, h, longest)
    ensures ok ==> forall i, x: nat :: 0 <= i < |longest| && x < |h.call| ==> longest[i].Some? && x in longest[i].value
    ensures ok || (computePartial && looks > 0 && !kill(looks - 1)) ==>
      LongestKept(model, Ops(h), Precedes(h), longest)
    ensures !ok && !computePartial ==> forall i :: 0 <= i < |longest| ==> longest[i].None?
  {
    hide Laid, Registered, Carries, AllPartial, Ops, Following, Linearizable, Reachable, Removed, CallAt, Precedes,
      Paired, Row, Linked, RuledOut, InCache, Abstract, Step, Reached, Lengthened, Stacked, Partial, Consistent,
      Numbers, Distinct, Explored, LongestKept, Moved, ReturnsAhead, TakenInTurn;
    var head, entry, n, linearized, ns := Prepare(model, history, h);
    var cache: Cache<S> := map[];
    var calls: seq<Frame<S, I, O>> := [];
    var found := new Option<seq<nat>>[n](_ => None);
    var state := model.init;
    NothingFound(model, h, found[..]);
    NothingMet(model, h, found[..]);
    ghost var xs: seq<nat>, seen: set<Config<S>>, e: nat := [], {}, 1;
    var count := 0;
    looks := 0;
    while head.next != null
      invariant |ns| > 0 && head == ns[0] && n == |h.call| == found.Length && Carries(ns, 1, h, 0) && e <= |ns|
      invariant fresh(linearized.words) && fresh(found) && fresh(ns)
      invariant Consistent(model, h, ns, entry, Registers(linearized.words[..], cache, calls, state), xs, seen, e)
      invariant AllPartial(model, h, found[..]) && looks == count && forall k: nat :: k < looks ==> !kill(k)
      invariant computePartial ==> Explored(model, h, xs, seen, e, found[..])
      invariant !computePartial ==> forall i :: 0 <= i < n ==> found[i].None?
      decreases Reachable(model, Ops(h), n) - seen, |xs|, |ns| - e
    {
      looks := count + 1;
      if kill(count) {
        return false, found[..], looks;
      }
      count := count + 1;
      ghost var g := Registers(linearized.words[..], cache, calls, state);
      ghost var x := OnEntry(model, h, ns, entry, g, xs, seen, e);
      StandsAhead(model, h, ns, entry, g, xs, seen, e);
      if entry.partner != null {
        ghost var ys, met, p := xs, seen, e;
        entry, cache, calls, state, xs, seen, e :=
          TryCall(model, head, entry, linearized, cache, calls, state, h, ns, xs, seen, e, x);
        if computePartial {
          MoveExplores(model, h, ys, met, p, x, xs, seen, e, found[..]);
        }
      } else {
        if |calls| == 0 {
          NoLinearization(model, h, ns, entry, g, xs, seen, e, x);
          if computePartial {
            StuckIsLongest(model, h, seen, e, x, found[..]);
          }
          return false, found[..], looks;
        }
        if computePartial {
          LengthenedIsPartial(model, h, found[..], xs);
          RetreatExplores(model, h, xs, seen, e, x, found[..]);
          Lengthen(found, calls, model, h, ns, xs);
        }
        entry, calls, state, e := Retreat(entry, linearized, cache, calls, state, model, h, ns, xs, seen, e, x);
        xs := xs[..|xs| - 1];
      }
    }
    AllChosen(model, h, ns, entry, Registers(linearized.words[..], cache, calls, state), xs, seen, e);
    var order := StackIds(calls, model, h, ns, xs);
    return true, seq(n, _ => Some(order)), looks;
  }
}
