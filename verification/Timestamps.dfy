/** From operations with call and return times to a history of entries. */
module Timestamps {
  import opened Linearizability
  import opened Sorting
  import opened EntryList
  import opened SearchSpace

  datatype Operation<I, O> = Operation(clientId: int, input: I, call: int, output: O, ret: int)

  datatype Timed<I, O> = Timed(entry: Entry<I, O>, time: int)

  /** Earlier first; at the same time, calls before returns. */
  predicate Less<I, O>(a: Timed<I, O>, b: Timed<I, O>) {
    if a.time != b.time then a.time < b.time else a.entry.CallEntry? && b.entry.ReturnEntry?
  }

  ghost predicate ByTime<I, O>(s: seq<Timed<I, O>>) {
    InOrder(Less, s)
  }

  function CallOf<I, O>(history: seq<Operation<I, O>>, i: nat): Timed<I, O>
    requires i < |history|
  {
    Timed(CallEntry(i, history[i].input), history[i].call)
  }

  function ReturnOf<I, O>(history: seq<Operation<I, O>>, i: nat): Timed<I, O>
    requires i < |history|
  {
    Timed(ReturnEntry(i, history[i].output), history[i].ret)
  }

  /** Call and return of each operation, in the order of the operations. */
  function Raw<I, O>(history: seq<Operation<I, O>>, n: nat): (r: seq<Timed<I, O>>)
    requires n <= |history|
    ensures |r| == 2 * n
  {
    if n == 0 then [] else Raw(history, n - 1) + [CallOf(history, n - 1), ReturnOf(history, n - 1)]
  }

  /** A sort may put the entries in any order that their times allow. */
  ghost predicate SortOf<I, O>(s: seq<Timed<I, O>>, history: seq<Operation<I, O>>) {
    multiset(s) == multiset(Raw(history, |history|)) && ByTime(s)
  }

  // ---------- Sorting

  method MakeEntries<I(!new), O(!new)>(history: seq<Operation<I, O>>) returns (entries: seq<Timed<I, O>>)
    ensures SortOf(entries, history)
  {
    var raw := [];
    for id := 0 to |history|
      invariant raw == Raw(history, id)
    {
      raw := raw + [CallOf(history, id)];
      raw := raw + [ReturnOf(history, id)];
    }
    entries := Sort(Less, raw);
  }

  // ---------- Where the entries of an operation end up

  /** `t` is the call or the return of one of the first `n` operations. */
  ghost predicate IsRaw<I, O>(history: seq<Operation<I, O>>, n: nat, t: Timed<I, O>)
    requires n <= |history|
  {
    t.entry.id < n && (t == CallOf(history, t.entry.id) || t == ReturnOf(history, t.entry.id))
  }

  lemma RawNone<I, O>(history: seq<Operation<I, O>>, t: Timed<I, O>)
    ensures multiset(Raw(history, 0))[t] == 0
  {
  }

  lemma RawOneMore<I, O>(history: seq<Operation<I, O>>, n: nat, t: Timed<I, O>)
    requires n < |history|
    ensures multiset(Raw(history, n + 1))[t] ==
      multiset(Raw(history, n))[t] + if t == CallOf(history, n) || t == ReturnOf(history, n) then 1 else 0
    ensures IsRaw(history, n + 1, t) <==> IsRaw(history, n, t) || t == CallOf(history, n) || t == ReturnOf(history, n)
  {
    var c, r := CallOf(history, n), ReturnOf(history, n);
    assert c != r;
    assert Raw(history, n + 1) == Raw(history, n) + [c, r];
    assert multiset([c, r])[t] == if t == c || t == r then 1 else 0;
  }

  lemma {:induction false} RawOnce<I, O>(history: seq<Operation<I, O>>, n: nat, t: Timed<I, O>)
    requires n <= |history|
    ensures multiset(Raw(history, n))[t] == if IsRaw(history, n, t) then 1 else 0
  {
    hide Raw;
    if n == 0 {
      RawNone(history, t);
    } else {
      RawOnce(history, n - 1, t);
      RawOneMore(history, n - 1, t);
    }
  }

  lemma Sorted<I(!new), O(!new)>(s: seq<Timed<I, O>>, history: seq<Operation<I, O>>, i: nat)
    requires SortOf(s, history) && i < |history|
    ensures CallOf(history, i) in s && ReturnOf(history, i) in s
  {
    RawOnce(history, |history|, CallOf(history, i));
    RawOnce(history, |history|, ReturnOf(history, i));
    assert CallOf(history, i) in multiset(s) && ReturnOf(history, i) in multiset(s);
  }

  lemma FoundAt<I(!new), O(!new)>(s: seq<Timed<I, O>>, history: seq<Operation<I, O>>, p: nat)
    requires SortOf(s, history) && p < |s|
    ensures IsRaw(history, |history|, s[p]) && p == IndexOf(s, s[p])
  {
    RawOnce(history, |history|, s[p]);
    assert s[p] in multiset(s);
    var q := IndexOf(s, s[p]);
    if p < q {
      Repeats(s, p, q);
    } else if q < p {
      Repeats(s, q, p);
    }
  }

  ghost function Calls<I, O>(history: seq<Operation<I, O>>): seq<Call<I, O>> {
    seq(|history|, i requires 0 <= i < |history| => Call(history[i].input, history[i].output))
  }

  /** Operation `a` returned at an earlier time than `b` was called. */
  ghost function Earlier<I, O>(history: seq<Operation<I, O>>): Before {
    (a: nat, b: nat) => a < |history| && b < |history| && history[a].ret < history[b].call
  }

  ghost predicate ValidTimes<I, O>(history: seq<Operation<I, O>>) {
    forall i :: 0 <= i < |history| ==> history[i].call <= history[i].ret
  }

  function Entries<I, O>(s: seq<Timed<I, O>>): (r: seq<Entry<I, O>>)
    ensures |r| == |s| && forall p :: 0 <= p < |s| ==> r[p] == s[p].entry
  {
    seq(|s|, p requires 0 <= p < |s| => s[p].entry)
  }

  /** The sorted entries, with the places of each operation's call and return. */
  ghost function Placement<I(!new), O(!new)>(s: seq<Timed<I, O>>, history: seq<Operation<I, O>>): (h: History<I, O>)
    requires SortOf(s, history)
    ensures h.entries == Entries(s) && |h.call| == |h.ret| == |history|
    ensures forall i :: 0 <= i < |history| ==> h.call[i] < |s| && s[h.call[i]] == CallOf(history, i)
    ensures forall i :: 0 <= i < |history| ==> h.ret[i] < |s| && s[h.ret[i]] == ReturnOf(history, i)
  {
    History(Entries(s),
            seq(|history|, i requires 0 <= i < |history| => Sorted(s, history, i); IndexOf(s, CallOf(history, i))),
            seq(|history|, i requires 0 <= i < |history| => Sorted(s, history, i); IndexOf(s, ReturnOf(history, i))))
  }

  lemma SortedLength<I, O>(s: seq<Timed<I, O>>, history: seq<Operation<I, O>>)
    requires SortOf(s, history)
    ensures |s| == 2 * |history|
  {
    assert |multiset(s)| == |s|;
  }

  /** However ties are broken, sorting gives a history whose order of events is the order in time. */
  lemma PlacedByTime<I(!new), O(!new)>(s: seq<Timed<I, O>>, history: seq<Operation<I, O>>)
    requires SortOf(s, history) && ValidTimes(history)
    ensures Paired(Placement(s, history))
    ensures Ops(Placement(s, history)) == Calls(history)
    ensures forall a: nat, b: nat :: Precedes(Placement(s, history))(a, b) <==> Earlier(history)(a, b)
  {
    hide IndexOf;
    var h := Placement(s, history);
    SortedLength(s, history);
    forall i | 0 <= i < |history|
      ensures h.call[i] < h.ret[i]
    {
      assert Less(s[h.call[i]], s[h.ret[i]]);
    }
    forall p | 0 <= p < |s|
      ensures Placed(h, p)
    {
      FoundAt(s, history, p);
      var i := s[p].entry.id;
      FoundAt(s, history, h.call[i]);
      FoundAt(s, history, h.ret[i]);
    }
    assert Paired(h);
    forall a: nat, b: nat | a < |history| && b < |history|
      ensures h.ret[a] < h.call[b] <==> history[a].ret < history[b].call
    {
      assert h.ret[a] != h.call[b];
      assert h.ret[a] < h.call[b] ==> !Less(s[h.call[b]], s[h.ret[a]]);
      assert h.call[b] < h.ret[a] ==> !Less(s[h.ret[a]], s[h.call[b]]);
    }
  }

  lemma SameOrderSameAnswer<S, I, O>(m: Model<S, I, O>, ops: seq<Call<I, O>>, one: Before, two: Before)
    requires forall a: nat, b: nat :: one(a, b) <==> two(a, b)
    ensures Linearizable(m, ops, one) <==> Linearizable(m, ops, two)
  {
    forall order: seq<nat>
      ensures Completes(m, ops, one, {}, m.init, order) <==> Completes(m, ops, two, {}, m.init, order)
    {
      assert InTime(one, order) <==> InTime(two, order);
    }
  }

  /** Linearizable in the order of events is linearizable in the order of times. */
  lemma EventsMeanTimes<S, I(!new), O(!new)>(m: Model<S, I, O>, s: seq<Timed<I, O>>, history: seq<Operation<I, O>>)
    requires SortOf(s, history) && ValidTimes(history)
    ensures Paired(Placement(s, history))
    ensures Linearizable(m, Ops(Placement(s, history)), Precedes(Placement(s, history))) <==>
      Linearizable(m, Calls(history), Earlier(history))
  {
    PlacedByTime(s, history);
    SameOrderSameAnswer(m, Calls(history), Precedes(Placement(s, history)), Earlier(history));
  }
}
