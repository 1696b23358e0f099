/** From a log that explains what each client was told to one order in which a single map would have said the same. */
module KvOrder {
  import opened KvClients
  import opened Linearizability
  import opened Sorting
  import opened Timestamps
  import opened KvModel
  import KvService
  import Sessions
  import Locality

  type Op = KvService.Op

  // ---------- What a run tells about its clients

  ghost predicate IssuedBefore(xs: seq<Invocation>, r: Request, t: nat) {
    exists i :: 0 <= i < |xs| && xs[i].request == r && xs[i].call < t
  }

  /** Each client issues its commands one after another. */
  ghost predicate InTurn(xs: seq<Invocation>) {
    && (forall i :: 0 <= i < |xs| ==> xs[i].request.task in {KvService.GET, KvService.PUT, KvService.APPEND})
    && (forall i, j :: 0 <= i < j < |xs| && xs[i].request.clientId == xs[j].request.clientId ==>
          && xs[i].outcome.Done? && xs[i].outcome.time < xs[j].call
          && xs[i].request.commandId < xs[j].request.commandId)
  }

  /** How many commands the service had applied that answered. */
  function Reach(x: Invocation): nat
    requires x.outcome.Done?
  {
    if |x.outcome.prefix| == 0 then 0 else |x.outcome.prefix| - 1
  }

  ghost predicate Among(ops: seq<Op>, r: Request) {
    exists q :: 0 <= q < |ops| && RequestOf(ops[q]) == r
  }

  /** The answer was read from a prefix that has the request, with every command in it issued before the return. */
  ghost predicate Told(xs: seq<Invocation>, ops: seq<Op>, x: Invocation)
    requires x.outcome.Done?
  {
    && Reach(x) <= |ops| && Among(ops[..Reach(x)], x.request)
    && (forall q :: 0 <= q < Reach(x) ==> IssuedBefore(xs, RequestOf(ops[q]), x.outcome.time))
    && x.call < x.outcome.time
    && (x.request.task == KvService.GET ==> x.outcome.value == Read(KvService.Replay(ops[..Reach(x)]), x.request.key))
  }

  ghost predicate Story(xs: seq<Invocation>, ops: seq<Op>, now: nat) {
    && InTurn(xs)
    && (forall q :: 0 <= q < |ops| ==> IssuedBefore(xs, RequestOf(ops[q]), now))
    && (forall i :: 0 <= i < |xs| ==> xs[i].call < now)
    && (forall i :: 0 <= i < |xs| && xs[i].outcome.Done? ==> xs[i].outcome.time < now && Told(xs, ops, xs[i]))
  }

  lemma OneInvocation(xs: seq<Invocation>, i: nat, j: nat)
    requires InTurn(xs) && i < |xs| && j < |xs|
    requires xs[i].request.clientId == xs[j].request.clientId && xs[i].request.commandId == xs[j].request.commandId
    ensures i == j
  {
  }

  /** The request of an operation that was called after a return is not in the prefix that was returned from. */
  lemma NotYet(xs: seq<Invocation>, ops: seq<Op>, now: nat, a: nat, b: nat, q: nat)
    requires Story(xs, ops, now) && a < |xs| && b < |xs| && xs[a].outcome.Done? && xs[a].outcome.time < xs[b].call
    requires q < |ops| && SameId(RequestOf(ops[q]), xs[b].request)
    ensures Reach(xs[a]) <= q
  {
    if q < Reach(xs[a]) {
      assert Told(xs, ops, xs[a]);
      assert IssuedBefore(xs, RequestOf(ops[q]), xs[a].outcome.time);
      var i :| 0 <= i < |xs| && xs[i].request == RequestOf(ops[q]) && xs[i].call < xs[a].outcome.time;
      OneInvocation(xs, i, b);
    }
  }

  predicate SameId(r: Request, s: Request) {
    r.clientId == s.clientId && r.commandId == s.commandId
  }

  /** A client's commands enter the log in order, so that the service applies each exactly once. */
  lemma LogInClientOrder(xs: seq<Invocation>, ops: seq<Op>, now: nat)
    requires Story(xs, ops, now)
    ensures Sessions.InClientOrder(KvService.Stamps(ops))
  {
    forall j, k | 0 <= j < k < |ops| && Sessions.Younger(KvService.StampOf(ops[j]), KvService.StampOf(ops[k]))
      ensures Sessions.Repeated(KvService.Stamps(ops), k)
    {
      RepeatedAt(xs, ops, now, j, k);
    }
  }

  lemma RepeatedAt(xs: seq<Invocation>, ops: seq<Op>, now: nat, j: nat, k: nat)
    requires Story(xs, ops, now) && j < k < |ops|
    requires ops[j].clientId == ops[k].clientId && ops[j].commandId > ops[k].commandId
    ensures Sessions.Repeated(KvService.Stamps(ops), k)
  {
    hide KvService.Replay, Read;
    assert IssuedBefore(xs, RequestOf(ops[j]), now) && IssuedBefore(xs, RequestOf(ops[k]), now);
    var b :| 0 <= b < |xs| && xs[b].request == RequestOf(ops[j]);
    var a :| 0 <= a < |xs| && xs[a].request == RequestOf(ops[k]);
    assert a < b;
    assert Told(xs, ops, xs[a]);
    var q :| 0 <= q < |ops[..Reach(xs[a])]| && RequestOf(ops[..Reach(xs[a])][q]) == xs[a].request;
    NotYet(xs, ops, now, a, b, j);
    assert KvService.Stamps(ops)[q] == KvService.Stamps(ops)[k];
  }

  // ---------- Where each operation takes effect

  /** The first place of the request in the log, or the log's length. */
  function FirstAt(ops: seq<Op>, r: Request): (q: nat)
    ensures q <= |ops|
    ensures q < |ops| ==> RequestOf(ops[q]) == r
    ensures forall p :: 0 <= p < q ==> RequestOf(ops[p]) != r
  {
    if ops == [] then 0
    else
      var front := ops[..|ops| - 1];
      var q := FirstAt(front, r);
      if q < |front| then q
      else if RequestOf(ops[|ops| - 1]) == r then |ops| - 1
      else |ops|
  }

  /**
   Twice the number of log commands before which the operation takes effect, or behind which: an update is that command
   itself, a read comes after it.  What is pending without effect comes at the end.
   */
  function Rank(ops: seq<Op>, x: Invocation): nat {
    if x.request.task == KvService.GET then
      if x.outcome.Done? then 2 * Reach(x) + 1 else 2 * |ops| + 2
    else
      var q := FirstAt(ops, x.request);
      if q < |ops| then 2 * (q + 1) else 2 * |ops| + 3
  }

  lemma RankWithin(xs: seq<Invocation>, ops: seq<Op>, now: nat, i: nat)
    requires Story(xs, ops, now) && i < |xs|
    ensures xs[i].outcome.Done? ==> Rank(ops, xs[i]) <= 2 * Reach(xs[i]) + 1
    ensures Rank(ops, xs[i]) <= 2 * |ops| + 3
  {
    hide KvService.Replay, Read;
    if xs[i].outcome.Done? {
      assert Told(xs, ops, xs[i]);
      var q :| 0 <= q < |ops[..Reach(xs[i])]| && RequestOf(ops[..Reach(xs[i])][q]) == xs[i].request;
      assert RequestOf(ops[q]) == xs[i].request;
    }
  }

  /** What returns before another is called takes effect before it. */
  lemma RankRespectsTime(xs: seq<Invocation>, ops: seq<Op>, now: nat, a: nat, b: nat)
    requires Story(xs, ops, now) && a < |xs| && b < |xs| && xs[a].outcome.Done? && xs[a].outcome.time < xs[b].call
    ensures Rank(ops, xs[a]) < Rank(ops, xs[b])
  {
    hide KvService.Replay, Read, FirstAt;
    RankWithin(xs, ops, now, a);
    assert Told(xs, ops, xs[a]);
    if xs[b].outcome.Done? {
      assert Told(xs, ops, xs[b]);
      var q :| 0 <= q < |ops[..Reach(xs[b])]| && RequestOf(ops[..Reach(xs[b])][q]) == xs[b].request;
      assert RequestOf(ops[q]) == xs[b].request;
      NotYet(xs, ops, now, a, b, q);
    }
    var p := FirstAt(ops, xs[b].request);
    if p < |ops| {
      NotYet(xs, ops, now, a, b, p);
    }
  }

  // ---------- The order

  predicate Sooner(rank: seq<nat>, i: nat, j: nat) {
    i < |rank| && j < |rank| && (rank[i] < rank[j] || (rank[i] == rank[j] && i < j))
  }

  predicate Ascends(rank: seq<nat>, s: seq<nat>) {
    forall a, b :: 0 <= a < b < |s| ==> Sooner(rank, s[a], s[b])
  }

  /** Those of the first `k` that have rank `r`. */
  function OfRank(rank: seq<nat>, r: nat, k: nat): (s: seq<nat>)
    requires k <= |rank|
    ensures forall i: nat :: i in s <==> i < k && rank[i] == r
    ensures Ascends(rank, s)
  {
    if k == 0 then []
    else
      var s := OfRank(rank, r, k - 1);
      assert forall a :: 0 <= a < |s| ==> s[a] in s;
      if rank[k - 1] == r then s + [k - 1] else s
  }

  /** All of rank less than `r`, by rank. */
  function ByRank(rank: seq<nat>, r: nat): (s: seq<nat>)
    ensures forall i: nat :: i in s <==> i < |rank| && rank[i] < r
    ensures Ascends(rank, s)
  {
    if r == 0 then []
    else
      var s, t := ByRank(rank, r - 1), OfRank(rank, r - 1, |rank|);
      assert forall a :: 0 <= a < |s| ==> s[a] in s;
      assert forall a :: 0 <= a < |t| ==> t[a] in t;
      s + t
  }

  lemma OnlyOne(rank: seq<nat>, r: nat, u: nat)
    requires u < |rank| && forall i :: 0 <= i < |rank| ==> (rank[i] == r <==> i == u)
    ensures OfRank(rank, r, |rank|) == [u]
  {
    var s := OfRank(rank, r, |rank|);
    assert u in s;
    assert forall a :: 0 <= a < |s| ==> s[a] in s;
    assert |s| > 1 ==> Sooner(rank, s[0], s[1]);
  }

  // ---------- The history

  function InputOf(r: Request): KvInput {
    KvInput(if r.task == KvService.GET then 0 else if r.task == KvService.PUT then 1 else 2, r.key, r.value)
  }

  /** What the client got; for a pending read, what the longest log gives. */
  function OutputOf(ops: seq<Op>, x: Invocation): KvOutput {
    if x.outcome.Done? then KvOutput(x.outcome.value)
    else if x.request.task == KvService.GET then KvOutput(Read(KvService.Replay(ops), x.request.key))
    else KvOutput("")
  }

  function OperationOf(ops: seq<Op>, now: nat, x: Invocation): KvOperation {
    Operation(x.request.clientId, InputOf(x.request), x.call, OutputOf(ops, x),
              if x.outcome.Done? then x.outcome.time else now)
  }

  function HistoryOf(xs: seq<Invocation>, ops: seq<Op>, now: nat): seq<KvOperation> {
    seq(|xs|, i requires 0 <= i < |xs| => OperationOf(ops, now, xs[i]))
  }

  function Ranks(xs: seq<Invocation>, ops: seq<Op>): seq<nat> {
    seq(|xs|, i requires 0 <= i < |xs| => Rank(ops, xs[i]))
  }

  // ---------- The map accepts the order

  type MapModel = Model<map<string, string>, KvInput, KvOutput>

  const Map: MapModel := Locality.WholeMap(Kv)

  ghost predicate Reflects(state: map<string, string>, kv: KvService.Kv) {
    forall k :: Locality.Lookup(Kv, state, k) == Read(kv, k)
  }

  /** The map accepts what has been done so far, and then holds what the service holds. */
  ghost predicate Reaches(calls: seq<Call<KvInput, KvOutput>>, order: seq<nat>, kv: KvService.Kv) {
    Accepts(Map, calls, Map.init, order) && Reflects(After(Map, calls, Map.init, order), kv)
  }

  ghost predicate Reads(call: Call<KvInput, KvOutput>, kv: KvService.Kv) {
    call.input.op == 0 && call.output.value == Read(kv, call.input.key)
  }

  lemma OneRead(calls: seq<Call<KvInput, KvOutput>>, order: seq<nat>, kv: KvService.Kv, x: nat)
    requires Reaches(calls, order, kv) && x < |calls| && Reads(calls[x], kv)
    ensures Reaches(calls, order + [x], kv)
  {
    var state := After(Map, calls, Map.init, order);
    forall k
      ensures Locality.Lookup(Kv, Step(Map, state, calls[x]).1, k) == Read(kv, k) && Step(Map, state, calls[x]).0
    {
      MapSteps(state, calls[x].input, calls[x].output, k);
    }
    MapSteps(state, calls[x].input, calls[x].output, "");
    AcceptsOneMore(Map, calls, Map.init, order, x);
  }

  lemma OneUpdate(calls: seq<Call<KvInput, KvOutput>>, order: seq<nat>, kv: KvService.Kv, x: nat, op: Op)
    requires Reaches(calls, order, kv) && x < |calls| && calls[x].input == InputOf(RequestOf(op))
    requires op.task in {KvService.PUT, KvService.APPEND}
    requires !Sessions.Dup(kv.latestTime, op.commandId, op.clientId)
    ensures Reaches(calls, order + [x], KvService.Apply(kv, op))
  {
    var state := After(Map, calls, Map.init, order);
    forall k
      ensures Locality.Lookup(Kv, Step(Map, state, calls[x]).1, k) == Read(KvService.Apply(kv, op), k)
    {
      MapSteps(state, calls[x].input, calls[x].output, k);
    }
    MapSteps(state, calls[x].input, calls[x].output, "");
    AcceptsOneMore(Map, calls, Map.init, order, x);
  }

  lemma RankOneMore(order: seq<nat>, rank: seq<nat>, r: nat, k: nat)
    requires k <= |rank|
    ensures order + OfRank(rank, r, k) ==
      if k == 0 then order
      else if rank[k - 1] == r then order + OfRank(rank, r, k - 1) + [k - 1]
      else order + OfRank(rank, r, k - 1)
  {
  }

  lemma {:induction false} AllRead(calls: seq<Call<KvInput, KvOutput>>, order: seq<nat>, kv: KvService.Kv,
      rank: seq<nat>, r: nat, k: nat)
    requires Reaches(calls, order, kv) && k <= |rank| == |calls|
    requires forall i :: 0 <= i < k && rank[i] == r ==> Reads(calls[i], kv)
    ensures Reaches(calls, order + OfRank(rank, r, k), kv)
  {
    hide Reaches, Reads, OfRank;
    RankOneMore(order, rank, r, k);
    if k > 0 {
      AllRead(calls, order, kv, rank, r, k - 1);
      if rank[k - 1] == r {
        OneRead(calls, order + OfRank(rank, r, k - 1), kv, k - 1);
      }
    }
  }

  lemma {:induction false} AllUpdates(calls: seq<Call<KvInput, KvOutput>>, order: seq<nat>, rank: seq<nat>, r: nat,
      k: nat)
    requires Accepts(Map, calls, Map.init, order) && k <= |rank| == |calls|
    requires forall i :: 0 <= i < k && rank[i] == r ==> calls[i].input.op != 0
    ensures Accepts(Map, calls, Map.init, order + OfRank(rank, r, k))
  {
    hide Accepts, OfRank;
    RankOneMore(order, rank, r, k);
    if k > 0 {
      AllUpdates(calls, order, rank, r, k - 1);
      if rank[k - 1] == r {
        OneMoreUpdate(calls, order + OfRank(rank, r, k - 1), k - 1);
      }
    }
  }

  lemma OneMoreUpdate(calls: seq<Call<KvInput, KvOutput>>, order: seq<nat>, x: nat)
    requires Accepts(Map, calls, Map.init, order) && x < |calls| && calls[x].input.op != 0
    ensures Accepts(Map, calls, Map.init, order + [x])
  {
    hide Accepts;
    MapSteps(After(Map, calls, Map.init, order), calls[x].input, calls[x].output, "");
    AcceptsOneMore(Map, calls, Map.init, order, x);
  }

  ghost function CallsOf(xs: seq<Invocation>, ops: seq<Op>, now: nat): (calls: seq<Call<KvInput, KvOutput>>)
    ensures |calls| == |xs|
    ensures forall i :: 0 <= i < |xs| ==> calls[i] == Call(InputOf(xs[i].request), OutputOf(ops, xs[i]))
  {
    Calls(HistoryOf(xs, ops, now))
  }

  /** The operations of an odd rank read the map as it is after that many commands. */
  lemma {:induction false} ReadersAt(xs: seq<Invocation>, ops: seq<Op>, now: nat, m: nat, order: seq<nat>)
    requires Story(xs, ops, now) && m <= |ops|
    requires Reaches(CallsOf(xs, ops, now), order, KvService.Replay(ops[..m]))
    ensures Reaches(CallsOf(xs, ops, now), order + OfRank(Ranks(xs, ops), 2 * m + 1, |xs|), KvService.Replay(ops[..m]))
  {
    hide Reaches, KvService.Replay, Read, FirstAt;
    var calls, kv := CallsOf(xs, ops, now), KvService.Replay(ops[..m]);
    forall i | 0 <= i < |xs| && Ranks(xs, ops)[i] == 2 * m + 1
      ensures Reads(calls[i], kv)
    {
      assert xs[i].outcome.Done? ==> Told(xs, ops, xs[i]);
    }
    AllRead(calls, order, kv, Ranks(xs, ops), 2 * m + 1, |xs|);
  }

  lemma {:induction false} PendingReadersAt(xs: seq<Invocation>, ops: seq<Op>, now: nat, order: seq<nat>)
    requires Story(xs, ops, now)
    requires Reaches(CallsOf(xs, ops, now), order, KvService.Replay(ops))
    ensures Reaches(CallsOf(xs, ops, now), order + OfRank(Ranks(xs, ops), 2 * |ops| + 2, |xs|), KvService.Replay(ops))
  {
    hide Reaches, KvService.Replay, Read, FirstAt;
    var calls, kv, r := CallsOf(xs, ops, now), KvService.Replay(ops), 2 * |ops| + 2;
    forall i | 0 <= i < |xs| && Ranks(xs, ops)[i] == r
      ensures Reads(calls[i], kv)
    {
    }
    AllRead(calls, order, kv, Ranks(xs, ops), r, |xs|);
  }

  /** An even rank belongs to the first occurrence of an update in the log, if the command is one. */
  lemma UpdateAt(xs: seq<Invocation>, ops: seq<Op>, now: nat, m: nat, u: nat)
    requires Story(xs, ops, now) && m < |ops| && u < |xs| && xs[u].request == RequestOf(ops[m])
    ensures Ranks(xs, ops)[u] == 2 * (m + 1) <==>
            !Sessions.Repeated(KvService.Stamps(ops), m) && xs[u].request.task != KvService.GET
    ensures forall i :: 0 <= i < |xs| && Ranks(xs, ops)[i] == 2 * (m + 1) ==> i == u
  {
    hide KvService.Replay, Read, Told, Sessions.Repeated, FirstAt;
    forall i | 0 <= i < |xs| && Ranks(xs, ops)[i] == 2 * (m + 1)
      ensures i == u
    {
      assert RequestOf(ops[m]) == xs[i].request;
      OneInvocation(xs, i, u);
    }
    RepeatedLater(xs, ops, now, m);
  }

  /** A command is a repetition exactly when its request is in the log before. */
  lemma RepeatedLater(xs: seq<Invocation>, ops: seq<Op>, now: nat, m: nat)
    requires Story(xs, ops, now) && m < |ops|
    ensures FirstAt(ops, RequestOf(ops[m])) <= m
    ensures Sessions.Repeated(KvService.Stamps(ops), m) <==> FirstAt(ops, RequestOf(ops[m])) < m
  {
    hide Story, FirstAt;
    var p := FirstAt(ops, RequestOf(ops[m]));
    assert p <= m;
    if Sessions.Repeated(KvService.Stamps(ops), m) {
      var j :| 0 <= j < m && KvService.Stamps(ops)[j] == KvService.Stamps(ops)[m];
      SameRequest(xs, ops, now, j, m);
    }
    assert KvService.Stamps(ops)[p].clientId == KvService.Stamps(ops)[m].clientId;
  }

  lemma SameRequest(xs: seq<Invocation>, ops: seq<Op>, now: nat, j: nat, k: nat)
    requires Story(xs, ops, now) && j < |ops| && k < |ops| && KvService.StampOf(ops[j]) == KvService.StampOf(ops[k])
    ensures RequestOf(ops[j]) == RequestOf(ops[k])
  {
    hide KvService.Replay, Read, Told;
    assert IssuedBefore(xs, RequestOf(ops[j]), now) && IssuedBefore(xs, RequestOf(ops[k]), now);
    var a :| 0 <= a < |xs| && xs[a].request == RequestOf(ops[j]);
    var b :| 0 <= b < |xs| && xs[b].request == RequestOf(ops[k]);
    OneInvocation(xs, a, b);
  }

  /** One command of the log: the map does what the service does. */
  lemma CommandAt(xs: seq<Invocation>, ops: seq<Op>, now: nat, m: nat, order: seq<nat>)
    requires Story(xs, ops, now) && m < |ops|
    requires Reaches(CallsOf(xs, ops, now), order, KvService.Replay(ops[..m]))
    ensures Reaches(CallsOf(xs, ops, now), order + OfRank(Ranks(xs, ops), 2 * (m + 1), |xs|),
      KvService.Replay(ops[..m + 1]))
  {
    hide Story, Reaches, FirstAt, OfRank, Ranks, Sessions.Dup, Sessions.Repeated, Sessions.InClientOrder,
      KvService.Apply, KvService.Replay, CallsOf;
    var calls, kv, op, r := CallsOf(xs, ops, now), KvService.Replay(ops[..m]), ops[m], 2 * (m + 1);
    var u := IssuedAt(xs, ops, now, m);
    UpdateAt(xs, ops, now, m, u);
    LogInClientOrder(xs, ops, now);
    KvService.IgnoresExactlyRepetitions(ops);
    assert KvService.Ignored(ops, m) <==> Sessions.Repeated(KvService.Stamps(ops), m);
    ReplayOneMore(ops, m);
    RanksSize(xs, ops);
    if Ranks(xs, ops)[u] == r {
      OnlyOne(Ranks(xs, ops), r, u);
      OneUpdate(calls, order, kv, u, op);
    } else {
      assert OfRank(Ranks(xs, ops), r, |xs|) == [] by {
        NoneOf(Ranks(xs, ops), r, |xs|);
      }
      assert order + [] == order;
      SameStorage(kv, op);
      ReachesSame(calls, order, kv, KvService.Apply(kv, op));
    }
  }

  lemma IssuedAt(xs: seq<Invocation>, ops: seq<Op>, now: nat, m: nat) returns (u: nat)
    requires Story(xs, ops, now) && m < |ops|
    ensures u < |xs| && xs[u].request == RequestOf(ops[m])
    ensures ops[m].task in {KvService.GET, KvService.PUT, KvService.APPEND}
  {
    hide Told;
    assert IssuedBefore(xs, RequestOf(ops[m]), now);
    u :| 0 <= u < |xs| && xs[u].request == RequestOf(ops[m]);
  }

  lemma ReplayOneMore(ops: seq<Op>, m: nat)
    requires m < |ops|
    ensures KvService.Replay(ops[..m + 1]) == KvService.Apply(KvService.Replay(ops[..m]), ops[m])
  {
    assert ops[..m + 1][..m] == ops[..m];
  }

  lemma ReachesSame(calls: seq<Call<KvInput, KvOutput>>, order: seq<nat>, kv: KvService.Kv, kv': KvService.Kv)
    requires Reaches(calls, order, kv) && kv'.storage == kv.storage
    ensures Reaches(calls, order, kv')
  {
  }

  lemma RanksSize(xs: seq<Invocation>, ops: seq<Op>)
    ensures |Ranks(xs, ops)| == |xs|
  {
  }

  lemma {:induction false} NoneOf(rank: seq<nat>, r: nat, k: nat)
    requires k <= |rank| && forall i :: 0 <= i < k ==> rank[i] != r
    ensures OfRank(rank, r, k) == []
  {
    if k > 0 {
      NoneOf(rank, r, k - 1);
    }
  }

  lemma NextRank(rank: seq<nat>, r: nat)
    ensures ByRank(rank, r + 1) == ByRank(rank, r) + OfRank(rank, r, |rank|)
  {
  }

  lemma SameStorage(kv: KvService.Kv, op: Op)
    requires Sessions.Dup(kv.latestTime, op.commandId, op.clientId) || op.task == KvService.GET
    ensures KvService.Apply(kv, op).storage == kv.storage
  {
  }

  lemma {:induction false} CommandsUpTo(xs: seq<Invocation>, ops: seq<Op>, now: nat, m: nat)
    requires Story(xs, ops, now) && m <= |ops|
    ensures Reaches(CallsOf(xs, ops, now), ByRank(Ranks(xs, ops), 2 * m + 1), KvService.Replay(ops[..m]))
  {
    hide Story, Reaches, KvService.Replay, Ranks, CallsOf, ByRank, OfRank;
    var rank := Ranks(xs, ops);
    RanksSize(xs, ops);
    if m == 0 {
      NothingYet(xs, ops, now);
    } else {
      var l := m - 1;
      CommandsUpTo(xs, ops, now, l);
      ReadersAt(xs, ops, now, l, ByRank(rank, 2 * l + 1));
      NextRank(rank, 2 * l + 1);
      CommandAt(xs, ops, now, l, ByRank(rank, 2 * l + 2));
      NextRank(rank, 2 * l + 2);
    }
  }

  lemma NothingYet(xs: seq<Invocation>, ops: seq<Op>, now: nat)
    ensures Reaches(CallsOf(xs, ops, now), ByRank(Ranks(xs, ops), 1), KvService.Replay(ops[..0]))
  {
    var rank := Ranks(xs, ops);
    NextRank(rank, 0);
    NoneOf(rank, 0, |xs|);
    assert ByRank(rank, 1) == [];
  }

  lemma LastAreUpdates(xs: seq<Invocation>, ops: seq<Op>, now: nat, i: nat)
    requires Story(xs, ops, now) && i < |xs|
    requires |Ranks(xs, ops)| == |xs| && Ranks(xs, ops)[i] == 2 * |ops| + 3
    ensures CallsOf(xs, ops, now)[i].input.op != 0
  {
    hide KvService.Replay, Read, FirstAt;
    assert xs[i].outcome.Done? ==> Told(xs, ops, xs[i]);
  }

  lemma AllAccepted(xs: seq<Invocation>, ops: seq<Op>, now: nat)
    requires Story(xs, ops, now)
    ensures Accepts(Map, CallsOf(xs, ops, now), Map.init, ByRank(Ranks(xs, ops), 2 * |ops| + 4))
  {
    hide Story, Accepts, Reaches, KvService.Replay, Ranks, CallsOf, ByRank, OfRank;
    var rank, calls, n := Ranks(xs, ops), CallsOf(xs, ops, now), 2 * |ops|;
    RanksSize(xs, ops);
    CommandsUpTo(xs, ops, now, |ops|);
    assert ops[..|ops|] == ops;
    ReadersAt(xs, ops, now, |ops|, ByRank(rank, n + 1));
    NextRank(rank, n + 1);
    PendingReadersAt(xs, ops, now, ByRank(rank, n + 2));
    NextRank(rank, n + 2);
    ReachesAccepts(calls, ByRank(rank, n + 3), KvService.Replay(ops));
    forall i | 0 <= i < |xs| && rank[i] == n + 3
      ensures calls[i].input.op != 0
    {
      LastAreUpdates(xs, ops, now, i);
    }
    AllUpdates(calls, ByRank(rank, n + 3), rank, n + 3, |xs|);
    NextRank(rank, n + 3);
  }

  lemma ReachesAccepts(calls: seq<Call<KvInput, KvOutput>>, order: seq<nat>, kv: KvService.Kv)
    requires Reaches(calls, order, kv)
    ensures Accepts(Map, calls, Map.init, order)
  {
  }

  // ---------- Linearizable

  lemma AllInTime(xs: seq<Invocation>, ops: seq<Op>, now: nat)
    requires Story(xs, ops, now)
    ensures InTime(Earlier(HistoryOf(xs, ops, now)), ByRank(Ranks(xs, ops), 2 * |ops| + 4))
  {
    hide Told, KvService.Replay, Read, Rank;
    var order, h := ByRank(Ranks(xs, ops), 2 * |ops| + 4), HistoryOf(xs, ops, now);
    forall a, b | 0 <= a < b < |order|
      ensures !Earlier(h)(order[b], order[a])
    {
      assert Sooner(Ranks(xs, ops), order[a], order[b]);
      if Earlier(h)(order[b], order[a]) {
        RankRespectsTime(xs, ops, now, order[b], order[a]);
      }
    }
  }

  /** A log that explains what every client was told gives an order in which one map would have told them the same. */
  lemma StoryLinearizable(xs: seq<Invocation>, ops: seq<Op>, now: nat)
    requires Story(xs, ops, now)
    ensures ValidTimes(HistoryOf(xs, ops, now))
    ensures Linearizable(Map, Calls(HistoryOf(xs, ops, now)), Earlier(HistoryOf(xs, ops, now)))
  {
    var order, h := ByRank(Ranks(xs, ops), 2 * |ops| + 4), HistoryOf(xs, ops, now);
    assert ValidTimes(h) by {
      assert forall i :: 0 <= i < |xs| && xs[i].outcome.Done? ==> Told(xs, ops, xs[i]);
    }
    forall i | 0 <= i < |xs|
      ensures i in order
    {
      RankWithin(xs, ops, now, i);
    }
    AllAccepted(xs, ops, now);
    AllInTime(xs, ops, now);
    assert Distinct(order) by {
      assert Ascends(Ranks(xs, ops), order);
    }
    assert Completes(Map, Calls(h), Earlier(h), {}, Map.init, order);
  }
}
