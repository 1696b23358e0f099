/** The key-value model that histories are checked against, and how it splits a history by key. */
module KvModel {
  import opened Linearizability
  import opened Sorting
  import opened Timestamps
  import opened Locality

  /** Operation 0 is a get, 1 a put, anything else an append. */
  datatype KvInput = KvInput(op: nat, key: string, value: string)

  datatype KvOutput = KvOutput(value: string)

  type KvOperation = Operation<KvInput, KvOutput>

  /** One step on the value of one key. */
  function KvStep(value: string, input: KvInput, output: KvOutput): (bool, string) {
    if input.op == 0 then (output.value == value, value)
    else if input.op == 1 then (true, input.value)
    else (true, value + input.value)
  }

  const Kv: Keyed<string, string, KvInput, KvOutput> := Keyed((input: KvInput) => input.key, "", KvStep)

  /** On the whole map, a get answers the value of its key, and only a put or an append changes one, its own. */
  lemma MapSteps(state: map<string, string>, input: KvInput, output: KvOutput, k: string)
    ensures var (ok, state') := WholeMap(Kv).step(state, input, output);
      && (ok <==> (input.op == 0 ==> output.value == Lookup(Kv, state, input.key)))
      && Lookup(Kv, state', k) ==
         if k != input.key || input.op == 0 then Lookup(Kv, state, k)
         else if input.op == 1 then input.value
         else Lookup(Kv, state, k) + input.value
  {
    var value := Lookup(Kv, state, input.key);
    assert Kv.step(value, input, output) == KvStep(value, input, output) && Kv.key(input) == input.key;
  }

  // ---------- The operations on one key

  ghost function KeysOf(history: seq<KvOperation>): set<string> {
    set op | op in history :: op.input.key
  }

  function Part(history: seq<KvOperation>, k: string): seq<KvOperation> {
    if history == [] then []
    else
      var last := history[|history| - 1];
      Part(history[..|history| - 1], k) + if last.input.key == k then [last] else []
  }

  /** Where the operations on `k` stand in the history. */
  ghost function Places(history: seq<KvOperation>, k: string): seq<nat> {
    if history == [] then []
    else Places(history[..|history| - 1], k) + if history[|history| - 1].input.key == k then [|history| - 1] else []
  }

  lemma {:induction false} PlacesOfPart(history: seq<KvOperation>, k: string)
    ensures |Places(history, k)| == |Part(history, k)| && Distinct(Places(history, k))
    ensures forall x: nat :: x in Places(history, k) <==> x < |history| && history[x].input.key == k
    ensures forall j :: 0 <= j < |Part(history, k)| ==>
      Places(history, k)[j] < |history| && Part(history, k)[j] == history[Places(history, k)[j]]
  {
    if history != [] {
      var front := history[..|history| - 1];
      PlacesOfPart(front, k);
      assert forall x: nat :: x < |front| ==> history[x] == front[x];
      var p, last := Places(front, k), |history| - 1;
      forall i | 0 <= i < |p|
        ensures p[i] < last
      {
        assert p[i] in p;
      }
    }
  }

  lemma PartIsSubHistory(history: seq<KvOperation>, k: string)
    ensures SubHistory(Calls(history), Earlier(history), Foreign(Kv, Calls(history), k), Calls(Part(history, k)),
      Earlier(Part(history, k)), Places(history, k))
  {
    PlacesOfPart(history, k);
    var ops, idx := Calls(history), Places(history, k);
    forall x: nat
      ensures x in idx <==> x < |ops| && x !in Foreign(Kv, ops, k)
    {
      if x < |ops| {
        assert KeyOf(Kv, ops, x) == history[x].input.key;
      }
    }
  }

  lemma TimesOf(history: seq<KvOperation>)
    requires ValidTimes(history)
    ensures Timely(seq(|history|, i requires 0 <= i < |history| => history[i].call),
      seq(|history|, i requires 0 <= i < |history| => history[i].ret), Earlier(history))
  {
  }

  /** The order-respecting answer for the part of one key. */
  ghost predicate PartLinearizable(history: seq<KvOperation>, k: string) {
    Linearizable(OneKey(Kv), Calls(Part(history, k)), Earlier(Part(history, k)))
  }

  /** A history is linearizable over the whole map exactly when the part of every key is, over that key's value. */
  lemma PartitionIsExact(history: seq<KvOperation>, keys: seq<string>)
    requires ValidTimes(history)
    requires (forall x: nat :: x < |history| ==> history[x].input.key in keys) && Distinct(keys)
    ensures Linearizable(WholeMap(Kv), Calls(history), Earlier(history)) <==>
      forall k :: k in keys ==> PartLinearizable(history, k)
  {
    hide Linearizable, Timely, Part, Places, SubHistory;
    TimesOf(history);
    var ops := Calls(history);
    assert forall x: nat :: x < |ops| ==> KeyOf(Kv, ops, x) == history[x].input.key;
    Local(Kv, ops, seq(|history|, i requires 0 <= i < |history| => history[i].call),
      seq(|history|, i requires 0 <= i < |history| => history[i].ret), Earlier(history), keys);
    forall k | k in keys
      ensures KeyLinearizable(Kv, ops, Earlier(history), k) <==> PartLinearizable(history, k)
    {
      PartIsSubHistory(history, k);
      SubHistorySolvable(OneKey(Kv), ops, Earlier(history), Foreign(Kv, ops, k), Kv.blank, Calls(Part(history, k)),
        Earlier(Part(history, k)), Places(history, k));
      AsSolvable(history, k);
    }
  }

  lemma AsSolvable(history: seq<KvOperation>, k: string)
    ensures PartLinearizable(history, k) <==>
      Solvable(OneKey(Kv), Calls(Part(history, k)), Earlier(Part(history, k)), {}, Kv.blank)
  {
  }

  // ---------- Splitting a history

  /** Strings in dictionary order. */
  predicate Smaller(a: string, b: string) {
    if a == [] || b == [] then a == [] && b != []
    else if a[0] != b[0] then a[0] < b[0]
    else Smaller(a[1..], b[1..])
  }

  lemma {:induction false} SmallerOrders(a: string, b: string)
    ensures !Smaller(a, a)
    ensures a != b ==> Smaller(a, b) || Smaller(b, a)
  {
    if a != [] {
      SmallerOrders(a[1..], if b != [] then b[1..] else b);
      if b != [] {
        assert a == [a[0]] + a[1..] && b == [b[0]] + b[1..];
      }
    }
  }

  lemma {:induction false} SmallerTransitive(a: string, b: string, c: string)
    requires Smaller(a, b) && Smaller(b, c)
    ensures Smaller(a, c)
  {
    if a != [] && a[0] == b[0] == c[0] {
      SmallerTransitive(a[1..], b[1..], c[1..]);
    }
  }

  ghost predicate Increasing(keys: seq<string>) {
    forall i, j :: 0 <= i < j < |keys| ==> Smaller(keys[i], keys[j])
  }

  lemma IncreasingDistinct(keys: seq<string>, i: nat, j: nat)
    requires Increasing(keys) && i < j < |keys|
    ensures keys[i] != keys[j]
  {
    SmallerOrders(keys[i], keys[j]);
  }

  /** The parts are those of the keys, in dictionary order of the keys. */
  ghost predicate Partitioned(history: seq<KvOperation>, parts: seq<seq<KvOperation>>, keys: seq<string>) {
    && Increasing(keys)
    && (forall k :: k in keys <==> k in KeysOf(history))
    && |parts| == |keys|
    && forall i :: 0 <= i < |parts| ==> parts[i] == Part(history, keys[i])
  }

  ghost predicate Grouped(m: map<string, seq<KvOperation>>, history: seq<KvOperation>) {
    && m.Keys == KeysOf(history)
    && (forall k :: k in m ==> m[k] == Part(history, k))
    && (forall k :: k !in m ==> Part(history, k) == [])
  }

  lemma GroupedOneMore(m: map<string, seq<KvOperation>>, history: seq<KvOperation>, v: KvOperation)
    requires Grouped(m, history)
    ensures Grouped(m[v.input.key := (if v.input.key in m then m[v.input.key] else []) + [v]], history + [v])
  {
    var longer := history + [v];
    assert longer[..|history|] == history;
    assert KeysOf(longer) == KeysOf(history) + {v.input.key} by {
      assert forall op :: op in longer <==> op in history || op == v;
    }
  }

  lemma SmallerIsOrder()
    ensures StrictOrder(Smaller)
  {
    forall a, b | Smaller(a, b)
      ensures !Smaller(b, a)
    {
      if Smaller(b, a) {
        SmallerTransitive(a, b, a);
        SmallerOrders(a, a);
      }
    }
    forall a, b, c | Smaller(a, c)
      ensures Smaller(a, b) || Smaller(b, c)
    {
      SmallerOrders(a, b);
      if Smaller(b, a) {
        SmallerTransitive(b, a, c);
      }
    }
  }

  method SortKeys(names: set<string>) returns (keys: seq<string>)
    ensures Increasing(keys) && forall k :: k in keys <==> k in names
  {
    var listed := Elements(names);
    SmallerIsOrder();
    keys := Sort(Smaller, listed);
    SortedDistinct(keys, listed);
    forall i, j | 0 <= i < j < |keys|
      ensures Smaller(keys[i], keys[j])
    {
      SmallerOrders(keys[i], keys[j]);
    }
  }

  method Partition(history: seq<KvOperation>) returns (parts: seq<seq<KvOperation>>)
    ensures exists keys :: Partitioned(history, parts, keys)
  {
    hide Part, KeysOf, Increasing;
    var m: map<string, seq<KvOperation>> := map[];
    GroupedNone();
    for i := 0 to |history|
      invariant Grouped(m, history[..i])
    {
      var v := history[i];
      GroupedOneMore(m, history[..i], v);
      assert history[..i] + [v] == history[..i + 1];
      m := m[v.input.key := (if v.input.key in m then m[v.input.key] else []) + [v]];
    }
    assert history[..|history|] == history;
    var keys := SortKeys(m.Keys);
    parts := [];
    for i := 0 to |keys|
      invariant |parts| == i && forall j :: 0 <= j < i ==> parts[j] == Part(history, keys[j])
    {
      assert keys[i] in keys;
      parts := parts + [m[keys[i]]];
    }
    assert Partitioned(history, parts, keys);
  }

  lemma GroupedNone()
    ensures Grouped(map[], [])
  {
  }

  /** Checking every part answers for the whole map. */
  lemma PartsAnswer(history: seq<KvOperation>, parts: seq<seq<KvOperation>>, keys: seq<string>)
    requires ValidTimes(history) && Partitioned(history, parts, keys)
    ensures Linearizable(WholeMap(Kv), Calls(history), Earlier(history)) <==>
      forall i :: 0 <= i < |parts| ==> Linearizable(OneKey(Kv), Calls(parts[i]), Earlier(parts[i]))
    ensures forall i :: 0 <= i < |parts| ==> ValidTimes(parts[i])
  {
    hide Linearizable, Increasing, Part;
    forall x: nat | x < |history|
      ensures history[x].input.key in keys
    {
      assert history[x] in history;
    }
    forall i, j | 0 <= i < j < |keys|
      ensures keys[i] != keys[j]
    {
      IncreasingDistinct(keys, i, j);
    }
    PartitionIsExact(history, keys);
    assert (forall k :: k in keys ==> PartLinearizable(history, k)) <==>
      forall i :: 0 <= i < |keys| ==> PartLinearizable(history, keys[i]);
    forall i | 0 <= i < |parts|
      ensures ValidTimes(parts[i])
    {
      PlacesOfPart(history, keys[i]);
    }
  }
}
