/** The doubly linked list of history entries that the checker unlinks and relinks in place. */
module EntryList {
  import opened Wrappers

  /** The call or the return of operation `id`. */
  datatype Entry<I, O> = CallEntry(id: nat, input: I) | ReturnEntry(id: nat, output: O)

  /** A call's partner is its return; a return and the list's head have none, and the head has no value either. */
  class Node<V> {
    const value: Option<V>
    const partner: Node?<V>
    var next: Node?<V>
    var prev: Node?<V>

    constructor (value: Option<V>, partner: Node?<V>)
      ensures this.value == value && this.partner == partner && next == null && prev == null
    {
      this.value := value;
      this.partner := partner;
      next, prev := null, null;
    }
  }

  method InsertBefore<V>(n: Node<V>, mark: Node?<V>)
    requires mark != null ==> n != mark && mark.prev != n && mark.prev != mark
    modifies n, mark, if mark == null then null else mark.prev
    ensures mark == null ==> n.next == old(n.next) && n.prev == old(n.prev)
    ensures mark != null ==> mark.prev == n && n.next == mark && mark.next == old(mark.next)
    ensures mark != null && old(mark.prev) == null ==> n.prev == old(n.prev)
    ensures mark != null && old(mark.prev) != null ==> n.prev == old(mark.prev) && old(mark.prev).next == n
  {
    if mark != null {
      var beforeMark := mark.prev;
      mark.prev := n;
      n.next := mark;
      if beforeMark != null {
        n.prev := beforeMark;
        beforeMark.next := n;
      }
    }
  }

  // ---------- The list, seen as positions with some removed

  /** The first position after `p` that is not removed, or `len`. */
  function NextLive(gone: set<nat>, p: nat, len: nat): (q: nat)
    requires p < len
    ensures p < q <= len && (q < len ==> q !in gone)
    ensures forall x :: p < x < q ==> x in gone
    decreases len - p
  {
    if p + 1 == len || p + 1 !in gone then p + 1 else NextLive(gone, p + 1, len)
  }

  /** The last position before `p` that is not removed. */
  function PrevLive(gone: set<nat>, p: nat): (q: nat)
    requires p > 0 && 0 !in gone
    ensures q < p && q !in gone
    ensures forall x :: q < x < p ==> x in gone
  {
    if p - 1 !in gone then p - 1 else PrevLive(gone, p - 1)
  }

  function NodeAt<V>(ns: seq<Node<V>>, q: nat): Node?<V> {
    if q < |ns| then ns[q] else null
  }

  ghost predicate Nodes<V>(ns: seq<Node<V>>) {
    |ns| > 0 && forall i, j :: 0 <= i < j < |ns| ==> ns[i] != ns[j]
  }

  /** The pointers of the nodes, in a given state of the heap. */
  ghost function Nexts<V>(ns: seq<Node<V>>): (r: seq<Node?<V>>)
    reads ns
    ensures |r| == |ns| && forall p :: 0 <= p < |ns| ==> r[p] == ns[p].next
  {
    seq(|ns|, p requires 0 <= p < |ns| reads ns => ns[p].next)
  }

  ghost function Prevs<V>(ns: seq<Node<V>>): (r: seq<Node?<V>>)
    reads ns
    ensures |r| == |ns| && forall p :: 0 <= p < |ns| ==> r[p] == ns[p].prev
  {
    seq(|ns|, p requires 0 <= p < |ns| reads ns => ns[p].prev)
  }

  /** Node `p` points to its neighbours in the list without the positions `gone`. */
  ghost predicate Parked<V>(ns: seq<Node<V>>, nx: seq<Node?<V>>, pv: seq<Node?<V>>, gone: set<nat>, p: nat) {
    && 0 < p < |ns| == |nx| == |pv| && 0 !in gone
    && nx[p] == NodeAt(ns, NextLive(gone, p, |ns|))
    && pv[p] == ns[PrevLive(gone, p)]
  }

  /** The list holds exactly the positions that are not `gone`, in order; position 0 is its head. */
  ghost predicate Linked<V>(ns: seq<Node<V>>, nx: seq<Node?<V>>, pv: seq<Node?<V>>, gone: set<nat>) {
    && 0 < |ns| == |nx| == |pv|
    && 0 !in gone
    && nx[0] == NodeAt(ns, NextLive(gone, 0, |ns|))
    && forall p :: 0 < p < |ns| && p !in gone ==> Parked(ns, nx, pv, gone, p)
  }

  lemma NextWithout(gone: set<nat>, c: nat, p: nat, len: nat)
    requires p < len && 0 < c < len && c !in gone && p != c
    ensures NextLive(gone + {c}, p, len) ==
      if NextLive(gone, p, len) == c then NextLive(gone, c, len) else NextLive(gone, p, len)
  {
    var q := NextLive(gone + {c}, p, len);
    var r := NextLive(gone, p, len);
  }

  lemma PrevWithout(gone: set<nat>, c: nat, p: nat)
    requires p > 0 && 0 !in gone && 0 < c && c !in gone && p != c
    ensures PrevLive(gone + {c}, p) == if PrevLive(gone, p) == c then PrevLive(gone, c) else PrevLive(gone, p)
  {
    var q := PrevLive(gone + {c}, p);
    var r := PrevLive(gone, p);
  }

  lemma Neighbours(gone: set<nat>, c: nat, p: nat, len: nat)
    requires 0 !in gone && 0 < c < len && c !in gone && p < len && p !in gone
    ensures NextLive(gone, p, len) == c <==> p == PrevLive(gone, c)
    ensures p > 0 ==> (PrevLive(gone, p) == c <==> p == NextLive(gone, c, len))
  {
  }

  /** The pointers after node `c` has been bypassed. */
  ghost predicate Bypassed<V>(ns: seq<Node<V>>, nx: seq<Node?<V>>, pv: seq<Node?<V>>, nx': seq<Node?<V>>,
      pv': seq<Node?<V>>, gone: set<nat>, c: nat)
    requires 0 < c < |ns| == |nx| == |pv| && 0 !in gone
  {
    var a, b := PrevLive(gone, c), NextLive(gone, c, |ns|);
    && nx' == nx[a := nx[c]]
    && pv' == if b < |ns| then pv[b := pv[c]] else pv
  }

  lemma BypassUnlinks<V>(ns: seq<Node<V>>, nx: seq<Node?<V>>, pv: seq<Node?<V>>, nx': seq<Node?<V>>, pv': seq<Node?<V>>,
      gone: set<nat>, c: nat)
    requires Linked(ns, nx, pv, gone) && 0 < c < |ns| && c !in gone && Bypassed(ns, nx, pv, nx', pv', gone, c)
    ensures Linked(ns, nx', pv', gone + {c})
    ensures forall p :: 0 <= p < |ns| && p in gone + {c} ==> nx'[p] == nx[p] && pv'[p] == pv[p]
  {
    hide NextLive, PrevLive;
    assert Parked(ns, nx, pv, gone, c);
    forall p | 0 <= p < |ns| && p !in gone + {c}
      ensures nx'[p] == NodeAt(ns, NextLive(gone + {c}, p, |ns|))
      ensures p > 0 ==> pv'[p] == ns[PrevLive(gone + {c}, p)]
    {
      Neighbours(gone, c, p, |ns|);
      NextWithout(gone, c, p, |ns|);
      if p > 0 {
        assert Parked(ns, nx, pv, gone, p);
        PrevWithout(gone, c, p);
      }
    }
  }

  /** The pointers after both neighbours of `c` point to it again. */
  ghost predicate Restored<V>(ns: seq<Node<V>>, nx: seq<Node?<V>>, pv: seq<Node?<V>>, nx': seq<Node?<V>>,
      pv': seq<Node?<V>>, gone: set<nat>, c: nat)
    requires 0 < c < |ns| == |nx| == |pv| && 0 !in gone
  {
    var a, b := PrevLive(gone, c), NextLive(gone, c, |ns|);
    && nx' == nx[a := ns[c]]
    && pv' == if b < |ns| then pv[b := ns[c]] else pv
  }

  lemma RestoreRelinks<V>(ns: seq<Node<V>>, nx: seq<Node?<V>>, pv: seq<Node?<V>>, nx': seq<Node?<V>>,
      pv': seq<Node?<V>>, gone: set<nat>, c: nat)
    requires 0 < c < |ns| && c !in gone && Linked(ns, nx, pv, gone + {c}) && Parked(ns, nx, pv, gone, c)
    requires Restored(ns, nx, pv, nx', pv', gone, c)
    ensures Linked(ns, nx', pv', gone)
    ensures forall p :: 0 <= p < |ns| && p in gone ==> nx'[p] == nx[p] && pv'[p] == pv[p]
  {
    hide NextLive, PrevLive;
    forall p | 0 <= p < |ns| && p !in gone
      ensures nx'[p] == NodeAt(ns, NextLive(gone, p, |ns|))
      ensures p > 0 ==> pv'[p] == ns[PrevLive(gone, p)]
    {
      Neighbours(gone, c, p, |ns|);
      if p != c {
        NextWithout(gone, c, p, |ns|);
        if p > 0 {
          assert Parked(ns, nx, pv, gone + {c}, p);
          PrevWithout(gone, c, p);
        }
      }
    }
  }

  /** Take node `c` out; it and all nodes taken out before keep their own pointers. */
  method Unlink<V>(x: Node<V>, ghost ns: seq<Node<V>>, ghost gone: set<nat>, ghost c: nat)
    requires Nodes(ns) && Linked(ns, Nexts(ns), Prevs(ns), gone) && 0 < c < |ns| && c !in gone && x == ns[c]
    modifies ns
    ensures Linked(ns, Nexts(ns), Prevs(ns), gone + {c})
    ensures forall p :: 0 <= p < |ns| && p in gone + {c} ==>
      ns[p].next == old(ns[p].next) && ns[p].prev == old(ns[p].prev)
  {
    hide Linked;
    ghost var nx, pv := Nexts(ns), Prevs(ns);
    IsParked(ns, nx, pv, gone, c);
    x.prev.next := x.next;
    if x.next != null {
      x.next.prev := x.prev;
    }
    assert Bypassed(ns, nx, pv, Nexts(ns), Prevs(ns), gone, c);
    BypassUnlinks(ns, nx, pv, Nexts(ns), Prevs(ns), gone, c);
  }

  lemma IsParked<V>(ns: seq<Node<V>>, nx: seq<Node?<V>>, pv: seq<Node?<V>>, gone: set<nat>, c: nat)
    requires Linked(ns, nx, pv, gone) && 0 < c < |ns| && c !in gone
    ensures Parked(ns, nx, pv, gone, c)
  {
  }

  lemma NextLinked<V>(ns: seq<Node<V>>, nx: seq<Node?<V>>, pv: seq<Node?<V>>, gone: set<nat>, p: nat)
    requires Linked(ns, nx, pv, gone) && p < |ns| && p !in gone
    ensures |nx| == |ns| && nx[p] == NodeAt(ns, NextLive(gone, p, |ns|))
  {
    hide NextLive, PrevLive;
    if p > 0 {
      IsParked(ns, nx, pv, gone, p);
    }
  }

  /** Put node `c` back where it was taken out. */
  method Relink<V>(x: Node<V>, ghost ns: seq<Node<V>>, ghost gone: set<nat>, ghost c: nat)
    requires Nodes(ns) && 0 < c < |ns| && c !in gone && x == ns[c]
    requires Linked(ns, Nexts(ns), Prevs(ns), gone + {c}) && Parked(ns, Nexts(ns), Prevs(ns), gone, c)
    modifies ns
    ensures Linked(ns, Nexts(ns), Prevs(ns), gone)
    ensures forall p :: 0 <= p < |ns| && p in gone ==> ns[p].next == old(ns[p].next) && ns[p].prev == old(ns[p].prev)
  {
    hide Linked;
    ghost var nx, pv := Nexts(ns), Prevs(ns);
    x.prev.next := x;
    if x.next != null {
      x.next.prev := x;
    }
    assert Restored(ns, nx, pv, Nexts(ns), Prevs(ns), gone, c);
    RestoreRelinks(ns, nx, pv, Nexts(ns), Prevs(ns), gone, c);
  }

  // ---------- Taking a call and its return out together

  /** Both nodes of a pair remember the neighbours they had when they were taken out. */
  ghost predicate PairParked<V>(ns: seq<Node<V>>, nx: seq<Node?<V>>, pv: seq<Node?<V>>, gone: set<nat>, c: nat,
      r: nat)
  {
    Parked(ns, nx, pv, gone, c) && Parked(ns, nx, pv, gone + {c}, r)
  }

  method Lift<V>(entry: Node<V>, ghost ns: seq<Node<V>>, ghost gone: set<nat>, ghost c: nat, ghost r: nat)
    requires Nodes(ns) && Linked(ns, Nexts(ns), Prevs(ns), gone)
    requires 0 < c < r < |ns| && c !in gone && r !in gone && entry == ns[c] && entry.partner == ns[r]
    modifies ns
    ensures Linked(ns, Nexts(ns), Prevs(ns), gone + {c, r})
    ensures PairParked(ns, Nexts(ns), Prevs(ns), gone, c, r)
    ensures forall p :: 0 <= p < |ns| && p in gone ==> ns[p].next == old(ns[p].next) && ns[p].prev == old(ns[p].prev)
  {
    hide Linked;
    ghost var nx, pv := Nexts(ns), Prevs(ns);
    IsParked(ns, nx, pv, gone, c);
    entry.prev.next := entry.next;
    entry.next.prev := entry.prev;
    BypassUnlinks(ns, nx, pv, Nexts(ns), Prevs(ns), gone, c);
    IsParked(ns, Nexts(ns), Prevs(ns), gone + {c}, r);
    Unlink(entry.partner, ns, gone + {c}, r);
    assert gone + {c} + {r} == gone + {c, r};
  }

  method Unlift<V>(entry: Node<V>, ghost ns: seq<Node<V>>, ghost gone: set<nat>, ghost c: nat, ghost r: nat)
    requires Nodes(ns) && Linked(ns, Nexts(ns), Prevs(ns), gone + {c, r})
    requires 0 < c < r < |ns| && c !in gone && r !in gone && entry == ns[c] && entry.partner == ns[r]
    requires PairParked(ns, Nexts(ns), Prevs(ns), gone, c, r)
    modifies ns
    ensures Linked(ns, Nexts(ns), Prevs(ns), gone)
    ensures forall p :: 0 <= p < |ns| && p in gone ==> ns[p].next == old(ns[p].next) && ns[p].prev == old(ns[p].prev)
  {
    hide Linked;
    assert gone + {c} + {r} == gone + {c, r};
    Relink(entry.partner, ns, gone + {c}, r);
    ghost var nx, pv := Nexts(ns), Prevs(ns);
    entry.prev.next := entry;
    entry.next.prev := entry;
    RestoreRelinks(ns, nx, pv, Nexts(ns), Prevs(ns), gone, c);
  }

  // ---------- Building the list

  type EntryNode<I, O> = Node<Entry<I, O>>

  type EntryRef<I, O> = Node?<Entry<I, O>>

  type EntryNodes<I, O> = seq<EntryNode<I, O>>

  type EntryLinks<I, O> = seq<EntryRef<I, O>>

  /** A history with, for each operation, the places of its call and of its return. */
  datatype History<I, O> = History(entries: seq<Entry<I, O>>, call: seq<nat>, ret: seq<nat>)

  /** Every operation has one call and one return, in this order, and there are no other entries. */
  ghost predicate Paired<I, O>(h: History<I, O>) {
    && |h.call| == |h.ret|
    && |h.entries| == 2 * |h.call|
    && (forall i :: 0 <= i < |h.call| ==> h.call[i] < h.ret[i] < |h.entries|)
    && (forall i :: 0 <= i < |h.call| ==> h.entries[h.call[i]].CallEntry? && h.entries[h.call[i]].id == i)
    && (forall i :: 0 <= i < |h.call| ==> h.entries[h.ret[i]].ReturnEntry? && h.entries[h.ret[i]].id == i)
    && (forall p :: 0 <= p < |h.entries| ==> Placed(h, p))
  }

  ghost predicate Placed<I, O>(h: History<I, O>, p: nat)
    requires |h.call| == |h.ret| && p < |h.entries|
  {
    var e := h.entries[p];
    e.id < |h.call| && p == if e.CallEntry? then h.call[e.id] else h.ret[e.id]
  }

  /** The nodes from position `base` on carry the entries, and calls know their returns. */
  ghost predicate Carries<I, O>(ns: EntryNodes<I, O>, base: nat, h: History<I, O>, from: nat)
    requires Paired(h) && from <= |h.entries|
  {
    && |ns| == base + |h.entries| - from
    && (forall p :: from <= p < |h.entries| ==> Carried(ns, base, h, from, p))
  }

  /** The node for entry `p` holds it, and a call's node knows the node of its return. */
  ghost predicate Carried<I, O>(ns: EntryNodes<I, O>, base: nat, h: History<I, O>, from: nat, p: nat)
    requires Paired(h) && from <= p < |h.entries| && |ns| == base + |h.entries| - from
  {
    var node, e := ns[base + p - from], h.entries[p];
    && node.value == Some(e) && Placed(h, p)
    && node.partner == if e.CallEntry? then ns[base + h.ret[e.id] - from] else null
  }

  /** Each node points to the next and the previous one of the row. */
  ghost predicate Row<V>(ns: seq<Node<V>>)
    reads ns
  {
    && (forall i, j :: 0 <= i < j < |ns| ==> ns[i] != ns[j])
    && (forall p :: 0 <= p < |ns| ==> ns[p].next == NodeAt(ns, p + 1))
    && (|ns| > 0 ==> ns[0].prev == null)
    && (forall p :: 0 < p < |ns| ==> ns[p].prev == ns[p - 1])
  }

  lemma RowIsLinked<V>(ns: seq<Node<V>>)
    requires Row(ns) && |ns| > 0
    ensures Nodes(ns) && Linked(ns, Nexts(ns), Prevs(ns), {})
  {
  }

  /** A new node in front of a row makes a longer row. */
  method Prepend<V>(entry: Node<V>, root: Node?<V>, ghost ns: seq<Node<V>>)
    requires Row(ns) && root == NodeAt(ns, 0) && entry !in ns && entry.next == entry.prev == null
    modifies entry, ns
    ensures Row([entry] + ns)
  {
    assert |ns| > 0 ==> ns[0].prev == null;
    InsertBefore(entry, root);
    assert forall p :: 0 < p < |ns| ==> ns[p].next == old(ns[p].next) && ns[p].prev == old(ns[p].prev);
    RowBehind(entry, ns);
  }

  lemma {:induction false} RowBehind<V>(entry: Node<V>, ns: seq<Node<V>>)
    requires (forall i, j :: 0 <= i < j < |ns| ==> ns[i] != ns[j]) && entry !in ns
    requires forall p :: 0 <= p < |ns| ==> ns[p].next == NodeAt(ns, p + 1)
    requires |ns| > 0 ==> ns[0].prev == entry
    requires forall p :: 0 < p < |ns| ==> ns[p].prev == ns[p - 1]
    requires entry.next == NodeAt(ns, 0) && entry.prev == null
    ensures Row([entry] + ns)
  {
    var all := [entry] + ns;
    forall p | 0 < p < |all|
      ensures all[p].next == NodeAt(all, p + 1) && all[p].prev == all[p - 1]
    {
      assert all[p] == ns[p - 1];
      assert p > 1 ==> all[p - 1] == ns[p - 2];
      assert p > 1 ==> ns[p - 1].prev == ns[p - 2];
    }
    forall i, j | 0 <= i < j < |all|
      ensures all[i] != all[j]
    {
      assert all[j] == ns[j - 1] && (i > 0 ==> all[i] == ns[i - 1]);
    }
  }

  /** The returns met so far, by operation. */
  ghost predicate Matching<I, O>(matching: map<nat, EntryNode<I, O>>, ns: EntryNodes<I, O>, h: History<I, O>, from: nat)
    requires Paired(h) && from <= |h.entries| && |ns| == |h.entries| - from
  {
    forall x :: 0 <= x < |h.ret| && from <= h.ret[x] ==> x in matching && matching[x] == ns[h.ret[x] - from]
  }

  lemma IsPlaced<I, O>(h: History<I, O>, i: nat)
    requires Paired(h) && i < |h.entries|
    ensures Placed(h, i) && h.entries[i].id < |h.call|
    ensures i == if h.entries[i].CallEntry? then h.call[h.entries[i].id] else h.ret[h.entries[i].id]
  {
  }

  lemma Nothing<I, O>(h: History<I, O>)
    requires Paired(h)
    ensures Row<Entry<I, O>>([]) && Carries([], 0, h, |h.entries|) && Matching(map[], [], h, |h.entries|)
  {
  }

  lemma CarriesOneMore<I, O>(ns: EntryNodes<I, O>, h: History<I, O>, i: nat, entry: EntryNode<I, O>,
      matching: map<nat, EntryNode<I, O>>)
    requires Paired(h) && i < |h.entries| && Carries(ns, 0, h, i + 1) && Matching(matching, ns, h, i + 1)
    requires Placed(h, i) && entry.value == Some(h.entries[i])
    requires h.entries[i].ReturnEntry? ==> entry.partner == null
    requires h.entries[i].CallEntry? ==> h.entries[i].id in matching && entry.partner == matching[h.entries[i].id]
    ensures Carries([entry] + ns, 0, h, i)
  {
    hide Matching, Carried, Paired;
    forall p | i <= p < |h.entries|
      ensures Carried([entry] + ns, 0, h, i, p)
    {
      if p == i {
        CarriedFirst(ns, h, i, entry, matching);
      } else {
        CarriedStill(ns, h, i, entry, p);
      }
    }
  }

  lemma CarriedFirst<I, O>(ns: EntryNodes<I, O>, h: History<I, O>, i: nat, entry: EntryNode<I, O>,
      matching: map<nat, EntryNode<I, O>>)
    requires Paired(h) && i < |h.entries| && |ns| == |h.entries| - (i + 1) && Matching(matching, ns, h, i + 1)
    requires Placed(h, i) && entry.value == Some(h.entries[i])
    requires h.entries[i].ReturnEntry? ==> entry.partner == null
    requires h.entries[i].CallEntry? ==> h.entries[i].id in matching && entry.partner == matching[h.entries[i].id]
    ensures Carried([entry] + ns, 0, h, i, i)
  {
  }

  lemma CarriedStill<I, O>(ns: EntryNodes<I, O>, h: History<I, O>, i: nat, entry: EntryNode<I, O>, p: nat)
    requires Paired(h) && i < p < |h.entries| && |ns| == |h.entries| - (i + 1) && Carried(ns, 0, h, i + 1, p)
    ensures Carried([entry] + ns, 0, h, i, p)
  {
  }

  lemma MatchKnown<I, O>(matching: map<nat, EntryNode<I, O>>, ns: EntryNodes<I, O>, h: History<I, O>, i: nat)
    requires Paired(h) && i < |h.entries| && |ns| == |h.entries| - (i + 1) && Matching(matching, ns, h, i + 1)
    ensures h.entries[i].CallEntry? ==> h.entries[i].id in matching
  {
    assert Placed(h, i);
  }

  lemma MatchingOneMore<I, O>(matching: map<nat, EntryNode<I, O>>, ns: EntryNodes<I, O>, h: History<I, O>, i: nat,
      entry: EntryNode<I, O>)
    requires Paired(h) && i < |h.entries| && |ns| == |h.entries| - (i + 1) && Matching(matching, ns, h, i + 1)
    ensures var e := h.entries[i];
      Matching(if e.ReturnEntry? then matching[e.id := entry] else matching, [entry] + ns, h, i)
  {
    assert Placed(h, i);
  }

  /** Build the list from the last entry to the first. */
  method MakeLinkedEntries<I, O>(history: seq<Entry<I, O>>, ghost h: History<I, O>)
    returns (root: EntryRef<I, O>, ghost ns: EntryNodes<I, O>)
    requires Paired(h) && history == h.entries
    ensures fresh(ns) && Row(ns) && root == NodeAt(ns, 0) && Carries(ns, 0, h, 0)
  {
    hide Carries, Row, Placed, Matching, Paired;
    root, ns := null, [];
    Nothing(h);
    var matching: map<nat, EntryNode<I, O>> := map[];
    for i := |history| downto 0
      invariant fresh(ns) && Row(ns) && root == NodeAt(ns, 0)
      invariant |ns| == |history| - i && Carries(ns, 0, h, i) && Matching(matching, ns, h, i)
    {
      var elem := history[i];
      IsPlaced(h, i);
      var entry;
      MatchKnown(matching, ns, h, i);
      if elem.ReturnEntry? {
        entry := new Node(Some(elem), null);
        CarriesOneMore(ns, h, i, entry, matching);
        MatchingOneMore(matching, ns, h, i, entry);
        matching := matching[elem.id := entry];
      } else {
        entry := new Node(Some(elem), matching[elem.id]);
        CarriesOneMore(ns, h, i, entry, matching);
        MatchingOneMore(matching, ns, h, i, entry);
      }
      Prepend(entry, root, ns);
      root, ns := entry, [entry] + ns;
    }
  }

  method Length<V>(first: Node?<V>, ghost ns: seq<Node<V>>) returns (l: nat)
    requires Row(ns) && first == NodeAt(ns, 0)
    ensures l == |ns|
  {
    l := 0;
    var n := first;
    while n != null
      invariant l <= |ns| && n == NodeAt(ns, l)
      decreases |ns| - l
    {
      n := n.next;
      l := l + 1;
    }
  }

  /** Put a head in front of the row. */
  method AddHead<I, O>(root: EntryRef<I, O>, ghost row: EntryNodes<I, O>, ghost h: History<I, O>)
    returns (head: EntryNode<I, O>, ghost ns: EntryNodes<I, O>)
    requires Row(row) && root == NodeAt(row, 0) && Paired(h) && Carries(row, 0, h, 0)
    modifies row
    ensures ns == [head] + row && fresh(head)
    ensures Nodes(ns) && Linked(ns, Nexts(ns), Prevs(ns), {}) && Carries(ns, 1, h, 0)
  {
    hide Carries, Row, Linked;
    head := new Node(None, null);
    Prepend(head, root, row);
    ns := [head] + row;
    RowIsLinked(ns);
    CarriesBehind(row, h, head);
  }

  lemma CarriesBehind<I, O>(row: EntryNodes<I, O>, h: History<I, O>, head: EntryNode<I, O>)
    requires Paired(h) && Carries(row, 0, h, 0)
    ensures Carries([head] + row, 1, h, 0)
  {
    forall p | 0 <= p < |h.entries|
      ensures Carried([head] + row, 1, h, 0, p)
    {
      assert Carried(row, 0, h, 0, p);
    }
  }
}
