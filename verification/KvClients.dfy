/**
 Clients of the replicated key-value service.  A client sends one command at a time, to any server and as often as it
 likes, and takes any successful reply.  Requests and replies may be lost, delayed, reordered and repeated.
 */
module KvClients {
  import opened RaftTypes
  import opened Cluster
  import opened RaftSafety
  import opened RaftValidity
  import opened KvReplicas
  import opened KvService
  import opened Sessions

  datatype Request = Request(clientId: int, commandId: int, task: string, key: string, value: string)

  function RequestOf(op: Op): Request {
    Request(op.clientId, op.commandId, op.task, op.key, op.value)
  }

  /** `prefix` is the log prefix that the answering service reflected; it is recorded, not sent. */
  datatype Outcome = Pending | Done(time: nat, value: string, prefix: Log)

  datatype Invocation = Invocation(request: Request, call: nat, outcome: Outcome)

  datatype Reply = Reply(request: Request, value: string, prefix: Log)

  /**
   A run of the cluster and its services so far, the commands that clients have issued, every operation a handler has
   ever registered, the handlers that wait and those that were woken at each server, and every successful reply
   ever sent.
   */
  datatype World = World(
    run: seq<State>,
    steps: seq<Step>,
    services: seq<Services>,
    clock: nat,
    invocations: seq<Invocation>,
    used: set<Op>,
    waiting: seq<set<Op>>,
    woken: seq<set<Op>>,
    replies: set<Reply>)

  datatype Event =
    | Inside(st: Step)
    | Invoke(request: Request)
    | Register(v: nat, op: Op)
    | AnswerRepeated(v: nat, request: Request)
    | Propose(v: nat, command: Command)
    | Answer(v: nat, op: Op)
    | Return(i: nat, reply: Reply)

  function Now(w: World): State
    requires |w.run| > 0
  {
    w.run[|w.run| - 1]
  }

  function Last(w: World): Services
    requires |w.services| > 0
  {
    w.services[|w.services| - 1]
  }

  ghost predicate Begins(n: nat, w: World) {
    && |w.run| == 1 && Init(n, w.run[0])
    && w == World(w.run, [], [Services(seq(n, _ => Empty), map[])], 0, [], {}, seq(n, _ => {}), seq(n, _ => {}), {})
  }

  predicate Requested(w: World, r: Request) {
    exists i :: 0 <= i < |w.invocations| && w.invocations[i].request == r
  }

  function Read(kv: Kv, key: string): string {
    if key in kv.storage then kv.storage[key] else ""
  }

  /** A server, its service and the service's state, while it serves. */
  predicate Serving(w: World, v: nat) {
    && |w.run| > 0 && |w.services| > 0
    && v < |Now(w).servers| && v < |Last(w).kvs| && v < |w.waiting| && v < |w.woken|
    && Now(w).servers[v].service.serving
  }

  function KvAt(w: World, v: nat): Kv
    requires Serving(w, v)
  {
    Last(w).kvs[v]
  }

  function PrefixAt(w: World, v: nat): Log
    requires Serving(w, v)
  {
    Now(w).servers[v].service.applied
  }

  /** The cluster takes a step, and its services follow. */
  predicate Runs(decode: Command -> Op, w: World, st: Step, w': World) {
    && |w.run| > 0 && |w.services| > 0 && |w'.run| == |w.run| + 1 && |w'.services| == |w.services| + 1
    && Taken(Now(w), st, Now(w')) && Served(decode, Now(w), st, Last(w), Last(w'))
    && w'.run == w.run + [Now(w')] && w'.services == w.services + [Last(w')] && w'.steps == w.steps + [st]
  }

  /** Receiving a command wakes the handlers that wait for its serial number; a crash ends all handlers. */
  function Woken(decode: Command -> Op, w: World, st: Step): seq<set<Op>>
    requires |w.run| > 0 && Ready(Now(w), st) && Actor(st) < |w.woken| == |w.waiting|
  {
    var v := Actor(st);
    if st.CrashAndRestart? then w.woken[v := {}]
    else if st.ServiceReceive? && Now(w).servers[v].service.channel[0].CommandMsg? then
      var op := decode(Now(w).servers[v].service.channel[0].entry.command);
      w.woken[v := w.woken[v] + set o | o in w.waiting[v] && o.serial == op.serial]
    else w.woken
  }

  ghost predicate Moves(decode: Command -> Op, w: World, a: Event, w': World) {
    && w'.clock == w.clock + 1
    && match a
       case Inside(st) =>
         && !st.ClientCommand? && Runs(decode, w, st, w') && Actor(st) < |w.woken| == |w.waiting|
         && w' == w.(run := w'.run, steps := w'.steps, services := w'.services, clock := w'.clock,
                     waiting := if st.CrashAndRestart? then w.waiting[Actor(st) := {}] else w.waiting,
                     woken := Woken(decode, w, st))
       case Invoke(r) =>
         && r.task in {GET, PUT, APPEND}
         && (forall i :: 0 <= i < |w.invocations| && w.invocations[i].request.clientId == r.clientId ==>
               w.invocations[i].outcome.Done? && w.invocations[i].request.commandId < r.commandId)
         && w' == w.(clock := w'.clock, invocations := w.invocations + [Invocation(r, w.clock, Pending)])
       case Register(v, op) =>
         && Serving(w, v) && Requested(w, RequestOf(op))
         && !Dup(KvAt(w, v).latestTime, op.commandId, op.clientId)
         && (forall o :: o in w.used ==> o.serial != op.serial)
         && w' == w.(clock := w'.clock, used := w.used + {op}, waiting := w.waiting[v := w.waiting[v] + {op}])
       case AnswerRepeated(v, r) =>
         && Serving(w, v) && Requested(w, r) && Dup(KvAt(w, v).latestTime, r.commandId, r.clientId)
         && w' == w.(clock := w'.clock, replies := w.replies + {Reply(r, Read(KvAt(w, v), r.key), PrefixAt(w, v))})
       case Propose(v, command) =>
         && v < |w.waiting| && decode(command) in w.waiting[v] && Runs(decode, w, ClientCommand(v, command), w')
         && w' == w.(run := w'.run, steps := w'.steps, services := w'.services, clock := w'.clock)
       case Answer(v, op) =>
         && Serving(w, v) && op in w.woken[v]
         && var value := if op.task == GET then Read(KvAt(w, v), op.key) else "";
            w' == w.(clock := w'.clock, replies := w.replies + {Reply(RequestOf(op), value, PrefixAt(w, v))})
       case Return(i, reply) =>
         && i < |w.invocations| && reply in w.replies
         && w.invocations[i].request == reply.request && w.invocations[i].outcome.Pending?
         && w' == w.(clock := w'.clock,
                     invocations := w.invocations[i :=
                       w.invocations[i].(outcome := Done(w.clock, reply.value, reply.prefix))])
  }

  ghost predicate IsWorldRun(n: nat, decode: Command -> Op, ws: seq<World>, events: seq<Event>) {
    && |ws| == |events| + 1
    && Begins(n, ws[0])
    && forall k :: 0 <= k < |events| ==> Moves(decode, ws[k], events[k], ws[k + 1])
  }

  // ---------- What every step keeps

  /** What the handlers have proposed they registered before, and what they registered a client issued before. */
  ghost predicate Registered(decode: Command -> Op, w: World) {
    && (forall k :: 0 <= k < |w.steps| && w.steps[k].ClientCommand? ==> decode(w.steps[k].command) in w.used)
    && (forall op :: op in w.used ==> Requested(w, RequestOf(op)))
    && (forall o, p :: o in w.used && p in w.used && o.serial == p.serial ==> o == p)
  }

  /** The service has received the operation, so that it stays covered. */
  ghost predicate Received(decode: Command -> Op, s: Service, op: Op) {
    exists p :: 1 <= p <= s.received && p < |s.applied| && decode(s.applied[p].command) == op
  }

  ghost predicate HandlersOk(n: nat, decode: Command -> Op, w: World) {
    && |w.waiting| == |w.woken| == n && |w.run| > 0 && |Now(w).servers| == n
    && (forall v :: 0 <= v < n ==> HandlerOk(decode, w.used, Now(w).servers[v].service, w.waiting[v], w.woken[v]))
  }

  ghost predicate HandlerOk(decode: Command -> Op, used: set<Op>, s: Service, waiting: set<Op>, woken: set<Op>) {
    && waiting <= used && woken <= waiting
    && (!s.serving ==> waiting == {})
    && (forall op :: op in woken ==> Received(decode, s, op))
  }

  /** Each client issues its commands one after another. */
  ghost predicate SessionsOk(w: World) {
    && (forall i :: 0 <= i < |w.invocations| ==>
          w.invocations[i].call < w.clock && w.invocations[i].request.task in {GET, PUT, APPEND})
    && (forall i, j :: 0 <= i < j < |w.invocations|
                       && w.invocations[i].request.clientId == w.invocations[j].request.clientId ==>
          && w.invocations[i].outcome.Done? && w.invocations[i].outcome.time < w.invocations[j].call
          && w.invocations[i].request.commandId < w.invocations[j].request.commandId)
  }

  /** Some service reflects, or reflected, the prefix. */
  ghost predicate IsApplied(n: nat, w: World, prefix: Log) {
    exists a: nat, v: nat :: Point(n, w.run, a, v) && At(w.run, a, v).service.applied == prefix
  }

  predicate InvokedBefore(w: World, r: Request, t: nat) {
    exists i :: 0 <= i < |w.invocations| && w.invocations[i].request == r && w.invocations[i].call < t
  }

  ghost predicate AllInvoked(decode: Command -> Op, w: World, prefix: Log, t: nat) {
    forall p :: 1 <= p < |prefix| ==> InvokedBefore(w, RequestOf(decode(prefix[p].command)), t)
  }

  ghost predicate Occurs(decode: Command -> Op, prefix: Log, r: Request) {
    exists p :: 1 <= p < |prefix| && RequestOf(decode(prefix[p].command)) == r
  }

  /** The reply was right when it was sent. */
  ghost predicate AnswerOk(n: nat, decode: Command -> Op, w: World, r: Request, value: string, prefix: Log, t: nat) {
    && IsApplied(n, w, prefix) && AllInvoked(decode, w, prefix, t)
    && (r.task == GET ==> value == Read(KvOf(decode, prefix), r.key))
  }

  /** The client has issued nothing after the request. */
  predicate Latest(w: World, r: Request) {
    forall i :: 0 <= i < |w.invocations| && w.invocations[i].request.clientId == r.clientId ==>
      w.invocations[i].request.commandId <= r.commandId
  }

  ghost predicate RepliesOk(n: nat, decode: Command -> Op, w: World) {
    forall reply :: reply in w.replies ==>
      && AnswerOk(n, decode, w, reply.request, reply.value, reply.prefix, w.clock)
      && (Latest(w, reply.request) ==> Occurs(decode, reply.prefix, reply.request))
  }

  ghost predicate DoneOk(n: nat, decode: Command -> Op, w: World, x: Invocation) {
    x.outcome.Done? ==>
      && x.call < x.outcome.time < w.clock
      && AnswerOk(n, decode, w, x.request, x.outcome.value, x.outcome.prefix, x.outcome.time)
      && Occurs(decode, x.outcome.prefix, x.request)
  }

  ghost predicate OutcomesOk(n: nat, decode: Command -> Op, w: World) {
    forall i :: 0 <= i < |w.invocations| ==> DoneOk(n, decode, w, w.invocations[i])
  }

  ghost predicate WorldOk(n: nat, decode: Command -> Op, w: World) {
    && Serves(n, decode, w.run, w.steps, w.services)
    && Registered(decode, w)
    && HandlersOk(n, decode, w)
    && SessionsOk(w)
    && RepliesOk(n, decode, w)
    && OutcomesOk(n, decode, w)
  }

  // ---------- The cluster under the clients

  lemma BeginsServes(n: nat, decode: Command -> Op, w: World)
    requires Begins(n, w)
    ensures Serves(n, decode, w.run, w.steps, w.services)
  {
  }

  lemma RunsServes(n: nat, decode: Command -> Op, w: World, st: Step, w': World)
    requires Serves(n, decode, w.run, w.steps, w.services) && Runs(decode, w, st, w')
    ensures Serves(n, decode, w'.run, w'.steps, w'.services)
  {
    hide Taken, Served;
    forall k | 0 <= k < |w'.steps|
      ensures Taken(w'.run[k], w'.steps[k], w'.run[k + 1])
      ensures Served(decode, w'.run[k], w'.steps[k], w'.services[k], w'.services[k + 1])
    {
      if k < |w.steps| {
        assert Taken(w.run[k], w.steps[k], w.run[k + 1]);
        assert Served(decode, w.run[k], w.steps[k], w.services[k], w.services[k + 1]);
      }
    }
  }

  /** The present server `v` as a point of the run. */
  lemma NowIs(n: nat, decode: Command -> Op, w: World, v: nat)
    requires Serves(n, decode, w.run, w.steps, w.services) && |w.run| > 0 && v < |Now(w).servers|
    ensures Point(n, w.run, |w.run| - 1, v) && At(w.run, |w.run| - 1, v) == Now(w).servers[v]
    ensures IsRun(n, w.run, w.steps) && |w.services| == |w.run|
  {
    assert IsRun(n, w.run, w.steps);
    hide IsRun, Explains, Serves;
    var ps := RunHistory(n, w.run, w.steps);
    SizeAt(n, w.run, w.steps, ps, |w.run| - 1);
  }

  lemma SizeNow(n: nat, decode: Command -> Op, w: World)
    requires Serves(n, decode, w.run, w.steps, w.services)
    ensures |w.run| > 0 && |Now(w).servers| == n
  {
    assert IsRun(n, w.run, w.steps);
    hide IsRun, Explains, Serves;
    var ps := RunHistory(n, w.run, w.steps);
    SizeAt(n, w.run, w.steps, ps, |w.run| - 1);
  }

  /** Every command in what a service reflects was issued by a client. */
  lemma PrefixInvoked(n: nat, decode: Command -> Op, w: World, a: nat, v: nat)
    requires Serves(n, decode, w.run, w.steps, w.services) && Registered(decode, w) && SessionsOk(w)
    requires Point(n, w.run, a, v)
    ensures AllInvoked(decode, w, At(w.run, a, v).service.applied, w.clock)
    ensures forall p :: 1 <= p < |At(w.run, a, v).service.applied| ==>
      decode(At(w.run, a, v).service.applied[p].command) in w.used
  {
    assert IsRun(n, w.run, w.steps);
    hide IsRun, Serves;
    var prefix := At(w.run, a, v).service.applied;
    RunHolds(n, w.run, w.steps, a);
    AppliedHolds(n, w.run, w.steps, Submitted(w.steps, a), a, v);
    forall p | 1 <= p < |prefix|
      ensures InvokedBefore(w, RequestOf(decode(prefix[p].command)), w.clock) && decode(prefix[p].command) in w.used
    {
      var k := NothingInvented(n, w.run, w.steps, a, v, p);
      assert decode(w.steps[k].command) in w.used;
      assert Requested(w, RequestOf(decode(prefix[p].command)));
      var i :| 0 <= i < |w.invocations| && w.invocations[i].request == RequestOf(decode(prefix[p].command));
    }
  }

  // ---------- Replies

  /** A service that counts a request as repeated has it in its prefix, if it is the client's latest. */
  lemma RepeatedOccurs(decode: Command -> Op, w: World, prefix: Log, r: Request)
    requires Dup(KvOf(decode, prefix).latestTime, r.commandId, r.clientId)
    requires AllInvoked(decode, w, prefix, w.clock) && SessionsOk(w) && Requested(w, r) && Latest(w, r)
    ensures Occurs(decode, prefix, r)
  {
    var ops := Ops(decode, prefix);
    KvService.LatestIsLargest(ops, r.clientId, r.commandId);
    var j :| 0 <= j < |ops| && ops[j].clientId == r.clientId && r.commandId <= ops[j].commandId;
    hide Ops, SessionsOk, Latest, Replay;
    OpsSize(decode, prefix);
    OpsAt(decode, prefix, j + 1);
    assert InvokedBefore(w, RequestOf(decode(prefix[j + 1].command)), w.clock);
    LatestIsIt(w, RequestOf(decode(prefix[j + 1].command)), r);
  }

  lemma LatestIsIt(w: World, q: Request, r: Request)
    requires SessionsOk(w) && Requested(w, q) && Requested(w, r) && Latest(w, r)
    requires q.clientId == r.clientId && r.commandId <= q.commandId
    ensures q == r
  {
    var i :| 0 <= i < |w.invocations| && w.invocations[i].request == q;
    var k :| 0 <= k < |w.invocations| && w.invocations[k].request == r;
    assert i == k;
  }

  lemma {:induction false} OpsSize(decode: Command -> Op, prefix: Log)
    ensures |Ops(decode, prefix)| == if |prefix| <= 1 then 0 else |prefix| - 1
  {
    if |prefix| > 1 {
      OpsSize(decode, prefix[..|prefix| - 1]);
    }
  }

  lemma ServedNow(n: nat, decode: Command -> Op, w: World, v: nat)
    requires Serves(n, decode, w.run, w.steps, w.services) && Registered(decode, w) && SessionsOk(w) && Serving(w, v)
    ensures KvAt(w, v) == KvOf(decode, PrefixAt(w, v))
    ensures IsApplied(n, w, PrefixAt(w, v)) && AllInvoked(decode, w, PrefixAt(w, v), w.clock)
  {
    hide Registered, SessionsOk, AllInvoked, KvOf;
    NowIs(n, decode, w, v);
    PrefixInvoked(n, decode, w, |w.run| - 1, v);
    ReplicaIsReplay(n, decode, w.run, w.steps, w.services, |w.run| - 1, v);
  }

  lemma ReceivedOccurs(decode: Command -> Op, s: Service, op: Op)
    requires Received(decode, s, op)
    ensures Occurs(decode, s.applied, RequestOf(op))
  {
  }

  // ---------- Nothing that was said becomes wrong

  /** The run goes on, and issued commands keep their requests and times. */
  predicate Later(w: World, w': World) {
    && w.run <= w'.run && w.clock <= w'.clock && |w.invocations| <= |w'.invocations|
    && forall i :: 0 <= i < |w.invocations| ==>
         w'.invocations[i].request == w.invocations[i].request && w'.invocations[i].call == w.invocations[i].call
  }

  lemma AnswerLater(n: nat, decode: Command -> Op, w: World, w': World, r: Request, value: string, prefix: Log, t: nat,
      t': nat)
    requires AnswerOk(n, decode, w, r, value, prefix, t) && Later(w, w') && t <= t'
    ensures AnswerOk(n, decode, w', r, value, prefix, t')
  {
    hide KvOf;
    var a: nat, v: nat :| Point(n, w.run, a, v) && At(w.run, a, v).service.applied == prefix;
    assert Point(n, w'.run, a, v) && At(w'.run, a, v).service.applied == prefix;
    forall p | 1 <= p < |prefix|
      ensures InvokedBefore(w', RequestOf(decode(prefix[p].command)), t')
    {
      assert InvokedBefore(w, RequestOf(decode(prefix[p].command)), t);
      var i :| 0 <= i < |w.invocations| && w.invocations[i].request == RequestOf(decode(prefix[p].command)) &&
        w.invocations[i].call < t;
      assert w'.invocations[i].request == w.invocations[i].request && w'.invocations[i].call < t';
    }
  }

  lemma RequestedLater(w: World, w': World, r: Request)
    requires Later(w, w') && Requested(w, r)
    ensures Requested(w', r)
  {
    var i :| 0 <= i < |w.invocations| && w.invocations[i].request == r;
    assert w'.invocations[i].request == r;
  }

  lemma LatestBefore(w: World, w': World, r: Request)
    requires Later(w, w') && Latest(w', r)
    ensures Latest(w, r)
  {
    forall i | 0 <= i < |w.invocations| && w.invocations[i].request.clientId == r.clientId
      ensures w.invocations[i].request.commandId <= r.commandId
    {
      assert w'.invocations[i].request == w.invocations[i].request;
    }
  }

  /** Old replies stay right. */
  lemma RepliesLater(n: nat, decode: Command -> Op, w: World, w': World)
    requires RepliesOk(n, decode, w) && Later(w, w') && w'.replies <= w.replies
    ensures RepliesOk(n, decode, w')
  {
    hide AnswerOk, Occurs, Latest, Later;
    forall reply | reply in w'.replies
      ensures AnswerOk(n, decode, w', reply.request, reply.value, reply.prefix, w'.clock)
      ensures Latest(w', reply.request) ==> Occurs(decode, reply.prefix, reply.request)
    {
      ClockLater(w, w');
      AnswerLater(n, decode, w, w', reply.request, reply.value, reply.prefix, w.clock, w'.clock);
      if Latest(w', reply.request) {
        LatestBefore(w, w', reply.request);
      }
    }
  }

  lemma ClockLater(w: World, w': World)
    requires Later(w, w')
    ensures w.clock <= w'.clock
  {
  }

  /** Old outcomes stay right. */
  lemma DoneLater(n: nat, decode: Command -> Op, w: World, w': World, x: Invocation)
    requires DoneOk(n, decode, w, x) && Later(w, w')
    ensures DoneOk(n, decode, w', x)
  {
    hide AnswerOk, Occurs, Later;
    ClockLater(w, w');
    if x.outcome.Done? {
      AnswerLater(n, decode, w, w', x.request, x.outcome.value, x.outcome.prefix, x.outcome.time, x.outcome.time);
    }
  }

  lemma OutcomesLater(n: nat, decode: Command -> Op, w: World, w': World)
    requires OutcomesOk(n, decode, w) && Later(w, w') && w'.invocations == w.invocations
    ensures OutcomesOk(n, decode, w')
  {
    hide DoneOk, Later;
    forall i | 0 <= i < |w'.invocations|
      ensures DoneOk(n, decode, w', w'.invocations[i])
    {
      DoneLater(n, decode, w, w', w.invocations[i]);
    }
  }

  lemma SessionsLater(w: World, w': World)
    requires SessionsOk(w) && w'.invocations == w.invocations && w.clock <= w'.clock
    ensures SessionsOk(w')
  {
  }

  lemma RegisteredLater(decode: Command -> Op, w: World, w': World)
    requires Registered(decode, w) && Later(w, w') && w'.used == w.used
    requires w'.steps == w.steps || (|w'.steps| == |w.steps| + 1 && w.steps <= w'.steps &&
      (w'.steps[|w.steps|].ClientCommand? ==> decode(w'.steps[|w.steps|].command) in w.used))
    ensures Registered(decode, w')
  {
    hide Requested, Later;
    forall op | op in w'.used
      ensures Requested(w', RequestOf(op))
    {
      RequestedLater(w, w', RequestOf(op));
    }
  }

  // ---------- Handlers

  lemma ReceivedStays(decode: Command -> Op, s: Service, s': Service, op: Op)
    requires Received(decode, s, op) && s.received <= s'.received && s.received < |s.applied| &&
      s.received < |s'.applied|
    requires s'.applied[..s.received + 1] == s.applied[..s.received + 1]
    ensures Received(decode, s', op)
  {
    var p :| 1 <= p <= s.received && p < |s.applied| && decode(s.applied[p].command) == op;
    assert s'.applied[p] == s'.applied[..s.received + 1][p] == s.applied[..s.received + 1][p];
  }

  lemma QuietHandler(decode: Command -> Op, used: set<Op>, s: Service, s': Service, waiting: set<Op>, woken: set<Op>)
    requires HandlerOk(decode, used, s, waiting, woken) && s' == s.(channel := s'.channel)
    ensures HandlerOk(decode, used, s', waiting, woken)
  {
    forall op | op in woken
      ensures Received(decode, s', op)
    {
      assert Received(decode, s, op);
      var p :| 1 <= p <= s.received && p < |s.applied| && decode(s.applied[p].command) == op;
      assert decode(s'.applied[p].command) == op;
    }
  }

  /** Receiving a message keeps what was received, and wakes only handlers whose operation it is. */
  lemma WakingHandler(decode: Command -> Op, used: set<Op>, s: Service, s': Service, waiting: set<Op>, woken: set<Op>,
      more: set<Op>)
    requires HandlerOk(decode, used, s, waiting, woken) && |s.channel| > 0 && s.received < |s.applied|
    requires InOrder(s, s.channel[0], s') && s'.serving && s.serving
    requires more <= waiting
    requires forall o :: o in more ==> s.channel[0].CommandMsg? && decode(s.channel[0].entry.command) == o
    requires s.channel[0].CommandMsg? ==> s.channel[0].entry.index > 0
    ensures HandlerOk(decode, used, s', waiting, woken + more)
  {
    forall op | op in woken + more
      ensures Received(decode, s', op)
    {
      if op in woken {
        assert s'.applied[..s.received + 1] == s.applied[..s.received + 1];
        ReceivedStays(decode, s, s', op);
      } else {
        var e := s.channel[0].entry;
        assert decode(s'.applied[e.index].command) == op;
      }
    }
  }

  lemma ServiceNow(n: nat, decode: Command -> Op, w: World, st: Step, w': World, v: nat)
    requires Serves(n, decode, w.run, w.steps, w.services) && Runs(decode, w, st, w') && v < |Now(w).servers|
    ensures v < |Now(w').servers|
    ensures v != Actor(st) ==> Now(w').servers[v] == Now(w).servers[v]
    ensures st != ServiceStart(v) && st != CrashAndRestart(v) && st != ServiceReceive(v) ==>
      Now(w').servers[v].service == Now(w).servers[v].service.(channel := Now(w').servers[v].service.channel)
    ensures st == CrashAndRestart(v) ==> !Now(w').servers[v].service.serving
    ensures st == ServiceStart(v) ==> !Now(w).servers[v].service.serving
  {
    if st != ServiceStart(v) && st != CrashAndRestart(v) && st != ServiceReceive(v) {
      ServiceMoves(Now(w), st, Now(w'), v);
    }
    OthersStay(Now(w), st, Now(w'), v);
  }

  lemma OthersStay(c: State, st: Step, c': State, v: nat)
    requires Taken(c, st, c') && v < |c.servers|
    ensures v < |c'.servers| && (v != Actor(st) ==> c'.servers[v] == c.servers[v])
    ensures st == CrashAndRestart(v) ==> !c'.servers[v].service.serving
    ensures st == ServiceStart(v) ==> !c.servers[v].service.serving
  {
  }

  /** What a service receives next, in order. */
  lemma ReceiptNow(n: nat, decode: Command -> Op, w: World, st: Step, w': World)
    requires Serves(n, decode, w.run, w.steps, w.services) && Runs(decode, w, st, w') && st.ServiceReceive?
    ensures st.v < |Now(w).servers| == |Now(w').servers|
    ensures var s, s' := Now(w).servers[st.v].service, Now(w').servers[st.v].service;
      s.serving && s'.serving && |s.channel| > 0 && s.received < |s.applied| && InOrder(s, s.channel[0], s')
  {
    RunsServes(n, decode, w, st, w');
    assert IsRun(n, w'.run, w'.steps);
    ReceiveMoves(Now(w), st, Now(w'));
    hide IsRun, Serves, Taken, InOrder;
    var k := |w.run| - 1;
    assert w'.run[k] == Now(w) && w'.run[k + 1] == Now(w') && w'.steps[k] == st by { StepsSize(n, decode, w); }
    DeliveredInOrder(n, w'.run, w'.steps, k);
  }

  lemma StepsSize(n: nat, decode: Command -> Op, w: World)
    requires Serves(n, decode, w.run, w.steps, w.services)
    ensures |w.run| == |w.steps| + 1
  {
  }

  lemma InsideHandlers(n: nat, decode: Command -> Op, w: World, st: Step, w': World)
    requires WorldOk(n, decode, w) && Moves(decode, w, Inside(st), w')
    requires Serves(n, decode, w'.run, w'.steps, w'.services) && Registered(decode, w') && SessionsOk(w')
    ensures HandlersOk(n, decode, w')
  {
    hide Serves, Registered, SessionsOk, RepliesOk, OutcomesOk, Runs, HandlerOk, Woken;
    SizeNow(n, decode, w');
    assert |w'.waiting| == |w'.woken| == n by { RunsReady(decode, w, st, w'); WokenSize(decode, w, st); }
    forall v | 0 <= v < n
      ensures HandlerOk(decode, w'.used, Now(w').servers[v].service, w'.waiting[v], w'.woken[v])
    {
      assert HandlerOk(decode, w.used, Now(w).servers[v].service, w.waiting[v], w.woken[v]);
      InsideHandler(n, decode, w, st, w', v);
    }
  }

  lemma RunsReady(decode: Command -> Op, w: World, st: Step, w': World)
    requires Runs(decode, w, st, w')
    ensures |w.run| > 0 && Ready(Now(w), st)
  {
  }

  lemma WokenSize(decode: Command -> Op, w: World, st: Step)
    requires |w.run| > 0 && Ready(Now(w), st) && Actor(st) < |w.woken| == |w.waiting|
    ensures |Woken(decode, w, st)| == |w.woken|
    ensures forall v :: 0 <= v < |w.woken| && v != Actor(st) ==> Woken(decode, w, st)[v] == w.woken[v]
    ensures !st.CrashAndRestart? && !st.ServiceReceive? ==> Woken(decode, w, st) == w.woken
    ensures st.CrashAndRestart? ==> Woken(decode, w, st)[Actor(st)] == {}
  {
  }

  lemma InsideHandler(n: nat, decode: Command -> Op, w: World, st: Step, w': World, v: nat)
    requires Serves(n, decode, w.run, w.steps, w.services) && Moves(decode, w, Inside(st), w') && v < n
    requires Serves(n, decode, w'.run, w'.steps, w'.services) && Registered(decode, w') && SessionsOk(w')
    requires |w.waiting| == |w.woken| == n && |Now(w).servers| == n && |Now(w').servers| == n &&
      |w'.waiting| == |w'.woken| == n
    requires HandlerOk(decode, w.used, Now(w).servers[v].service, w.waiting[v], w.woken[v])
    ensures HandlerOk(decode, w'.used, Now(w').servers[v].service, w'.waiting[v], w'.woken[v])
  {
    hide Serves, Registered, SessionsOk, Woken;
    ServiceNow(n, decode, w, st, w', v);
    RunsReady(decode, w, st, w');
    WokenSize(decode, w, st);
    hide Runs;
    var s, s' := Now(w).servers[v].service, Now(w').servers[v].service;
    if st == ServiceReceive(v) {
      ReceiptHandler(n, decode, w, st, w');
    } else if st != CrashAndRestart(v) && st != ServiceStart(v) {
      QuietHandler(decode, w.used, s, s', w.waiting[v], w.woken[v]);
    }
  }

  lemma ReceiptHandler(n: nat, decode: Command -> Op, w: World, st: Step, w': World)
    requires Serves(n, decode, w.run, w.steps, w.services) && Moves(decode, w, Inside(st), w') && st.ServiceReceive?
    requires Serves(n, decode, w'.run, w'.steps, w'.services) && Registered(decode, w') && SessionsOk(w')
    requires |w.waiting| == |w.woken| == n && |Now(w).servers| == |Now(w').servers| == n && st.v < n
    requires HandlerOk(decode, w.used, Now(w).servers[st.v].service, w.waiting[st.v], w.woken[st.v])
    ensures |w'.waiting| == |w'.woken| == n
    ensures HandlerOk(decode, w'.used, Now(w').servers[st.v].service, w'.waiting[st.v], w'.woken[st.v])
  {
    ReceiptNow(n, decode, w, st, w');
    RunsReady(decode, w, st, w');
    hide Serves, SessionsOk, Runs, HandlerOk, InOrder, Moves;
    var v := st.v;
    var s, s' := Now(w).servers[v].service, Now(w').servers[v].service;
    assert w'.used == w.used && w'.waiting == w.waiting && w'.woken == Woken(decode, w, st) by {
      InsideIs(decode, w, st, w');
    }
    var more: set<Op> :=
      if s.channel[0].CommandMsg? then
        set o | o in w.waiting[v] && o.serial == decode(s.channel[0].entry.command).serial
      else {};
    if s.channel[0].CommandMsg? {
      var op := decode(s.channel[0].entry.command);
      NowIs(n, decode, w', v);
      PrefixInvoked(n, decode, w', |w'.run| - 1, v);
      EntryThere(s, s');
      assert op in w'.used;
      forall o | o in more
        ensures o == op
      {
        assert o in w.used by { WaitingUsed(decode, w.used, s, w.waiting[v], w.woken[v]); }
      }
    }
    WakingHandler(decode, w.used, s, s', w.waiting[v], w.woken[v], more);
    assert w'.woken[v] == w.woken[v] + more;
  }

  lemma InsideIs(decode: Command -> Op, w: World, st: Step, w': World)
    requires Moves(decode, w, Inside(st), w') && st.ServiceReceive?
    ensures Actor(st) < |w.woken| == |w.waiting| && |w.run| > 0 && Ready(Now(w), st)
    ensures w'.used == w.used && w'.waiting == w.waiting && w'.woken == Woken(decode, w, st)
  {
  }

  lemma EntryThere(s: Service, s': Service)
    requires |s.channel| > 0 && s.channel[0].CommandMsg? && s.received < |s.applied| && InOrder(s, s.channel[0], s')
    ensures 1 <= s.channel[0].entry.index < |s'.applied| && s'.applied[s.channel[0].entry.index] == s.channel[0].entry
  {
  }

  lemma WaitingUsed(decode: Command -> Op, used: set<Op>, s: Service, waiting: set<Op>, woken: set<Op>)
    requires HandlerOk(decode, used, s, waiting, woken)
    ensures waiting <= used
  {
  }

  // ---------- Steps

  /** A step of the cluster changes nothing that was said before. */
  lemma RunsLater(decode: Command -> Op, w: World, st: Step, w': World)
    requires Runs(decode, w, st, w') && w'.invocations == w.invocations && w.clock <= w'.clock
    ensures Later(w, w')
  {
    hide Taken, Served;
  }

  lemma InsideKeeps(n: nat, decode: Command -> Op, w: World, st: Step, w': World)
    requires WorldOk(n, decode, w) && Moves(decode, w, Inside(st), w')
    ensures WorldOk(n, decode, w')
  {
    InsideFacts(decode, w, st, w');
    hide Serves, Registered, SessionsOk, RepliesOk, OutcomesOk, HandlersOk, Runs, Moves;
    RunsServes(n, decode, w, st, w');
    RunsLater(decode, w, st, w');
    RegisteredLater(decode, w, w');
    SessionsLater(w, w');
    RepliesLater(n, decode, w, w');
    OutcomesLater(n, decode, w, w');
    InsideHandlers(n, decode, w, st, w');
  }

  lemma InsideFacts(decode: Command -> Op, w: World, st: Step, w': World)
    requires Moves(decode, w, Inside(st), w')
    ensures Runs(decode, w, st, w') && w'.invocations == w.invocations && w.clock <= w'.clock && w'.used == w.used
    ensures w'.replies == w.replies && |w'.steps| == |w.steps| + 1 && w.steps <= w'.steps &&
      !w'.steps[|w.steps|].ClientCommand?
  {
    hide Taken, Served, Woken;
  }

  lemma ProposeKeeps(n: nat, decode: Command -> Op, w: World, v: nat, command: Command, w': World)
    requires WorldOk(n, decode, w) && Moves(decode, w, Propose(v, command), w')
    ensures WorldOk(n, decode, w')
  {
    var st := ClientCommand(v, command);
    assert Runs(decode, w, st, w');
    assert w'.steps[|w.steps|] == st && w.steps <= w'.steps;
    hide Serves, Registered, SessionsOk, RepliesOk, OutcomesOk, Runs, HandlerOk;
    assert HandlerOk(decode, w.used, Now(w).servers[v].service, w.waiting[v], w.woken[v]);
    WaitingUsed(decode, w.used, Now(w).servers[v].service, w.waiting[v], w.woken[v]);
    RunsServes(n, decode, w, st, w');
    RunsLater(decode, w, st, w');
    RegisteredLater(decode, w, w');
    SessionsLater(w, w');
    RepliesLater(n, decode, w, w');
    OutcomesLater(n, decode, w, w');
    SizeNow(n, decode, w');
    forall u | 0 <= u < n
      ensures HandlerOk(decode, w'.used, Now(w').servers[u].service, w'.waiting[u], w'.woken[u])
    {
      assert HandlerOk(decode, w.used, Now(w).servers[u].service, w.waiting[u], w.woken[u]);
      ServiceNow(n, decode, w, st, w', u);
      QuietHandler(decode, w.used, Now(w).servers[u].service, Now(w').servers[u].service, w.waiting[u], w.woken[u]);
    }
  }

  lemma RegisterKeeps(n: nat, decode: Command -> Op, w: World, v: nat, op: Op, w': World)
    requires WorldOk(n, decode, w) && Moves(decode, w, Register(v, op), w')
    ensures WorldOk(n, decode, w')
  {
    hide Serves, RepliesOk, OutcomesOk, Requested;
    assert Later(w, w');
    SessionsLater(w, w');
    RepliesLater(n, decode, w, w');
    OutcomesLater(n, decode, w, w');
    forall o | o in w'.used
      ensures Requested(w', RequestOf(o))
    {
      RequestedLater(w, w', RequestOf(o));
    }
  }

  lemma NewReply(n: nat, decode: Command -> Op, w: World, w': World, reply: Reply)
    requires WorldOk(n, decode, w) && w' == w.(clock := w.clock + 1, replies := w.replies + {reply})
    requires AnswerOk(n, decode, w, reply.request, reply.value, reply.prefix, w.clock)
    requires Latest(w, reply.request) ==> Occurs(decode, reply.prefix, reply.request)
    ensures WorldOk(n, decode, w')
  {
    hide Serves, OutcomesOk, AnswerOk, HandlerOk, Occurs, Latest;
    assert Later(w, w');
    SessionsLater(w, w');
    RegisteredLater(decode, w, w');
    OutcomesLater(n, decode, w, w');
    forall r | r in w'.replies
      ensures AnswerOk(n, decode, w', r.request, r.value, r.prefix, w'.clock)
      ensures Latest(w', r.request) ==> Occurs(decode, r.prefix, r.request)
    {
      AnswerLater(n, decode, w, w', r.request, r.value, r.prefix, w.clock, w'.clock);
      if Latest(w', r.request) {
        LatestBefore(w, w', r.request);
      }
    }
  }

  lemma AnswerRepeatedKeeps(n: nat, decode: Command -> Op, w: World, v: nat, r: Request, w': World)
    requires WorldOk(n, decode, w) && Moves(decode, w, AnswerRepeated(v, r), w')
    ensures WorldOk(n, decode, w')
  {
    hide Serves, OutcomesOk, RepliesOk, HandlersOk, Registered, SessionsOk, AllInvoked, KvOf, Occurs, Latest, IsApplied,
      Requested;
    ServedNow(n, decode, w, v);
    if Latest(w, r) {
      RepeatedOccurs(decode, w, PrefixAt(w, v), r);
    }
    NewReply(n, decode, w, w', Reply(r, Read(KvAt(w, v), r.key), PrefixAt(w, v)));
  }

  lemma AnswerKeeps(n: nat, decode: Command -> Op, w: World, v: nat, op: Op, w': World)
    requires WorldOk(n, decode, w) && Moves(decode, w, Answer(v, op), w')
    ensures WorldOk(n, decode, w')
  {
    hide Serves, OutcomesOk, RepliesOk, Registered, SessionsOk, AllInvoked, KvOf, Occurs, Latest, IsApplied;
    ServedNow(n, decode, w, v);
    assert HandlerOk(decode, w.used, Now(w).servers[v].service, w.waiting[v], w.woken[v]);
    ReceivedOccurs(decode, Now(w).servers[v].service, op);
    NewReply(n, decode, w, w',
      Reply(RequestOf(op), if op.task == GET then Read(KvAt(w, v), op.key) else "", PrefixAt(w, v)));
  }

  lemma InvokeKeeps(n: nat, decode: Command -> Op, w: World, r: Request, w': World)
    requires WorldOk(n, decode, w) && Moves(decode, w, Invoke(r), w')
    ensures WorldOk(n, decode, w')
  {
    hide Serves, DoneOk, HandlerOk;
    assert Later(w, w');
    RegisteredLater(decode, w, w');
    RepliesLater(n, decode, w, w');
    forall i | 0 <= i < |w'.invocations|
      ensures DoneOk(n, decode, w', w'.invocations[i])
      ensures w'.invocations[i].outcome.Done? ==> w'.invocations[i].outcome.time < w.clock
    {
      if i < |w.invocations| {
        DoneLater(n, decode, w, w', w.invocations[i]);
        DoneBefore(n, decode, w, w.invocations[i]);
      } else {
        PendingOk(n, decode, w', w'.invocations[i]);
      }
    }
  }

  lemma DoneBefore(n: nat, decode: Command -> Op, w: World, x: Invocation)
    requires DoneOk(n, decode, w, x)
    ensures x.outcome.Done? ==> x.outcome.time < w.clock
  {
  }

  lemma PendingOk(n: nat, decode: Command -> Op, w: World, x: Invocation)
    requires x.outcome.Pending?
    ensures DoneOk(n, decode, w, x)
  {
  }

  lemma ReturnKeeps(n: nat, decode: Command -> Op, w: World, k: nat, reply: Reply, w': World)
    requires WorldOk(n, decode, w) && Moves(decode, w, Return(k, reply), w')
    ensures WorldOk(n, decode, w')
  {
    hide Serves, DoneOk, HandlerOk, AnswerOk, Occurs;
    assert Later(w, w');
    RegisteredLater(decode, w, w');
    RepliesLater(n, decode, w, w');
    PendingIsLatest(w, k);
    forall i | 0 <= i < |w'.invocations|
      ensures DoneOk(n, decode, w', w'.invocations[i])
    {
      if i != k {
        DoneLater(n, decode, w, w', w.invocations[i]);
      } else {
        Returned(n, decode, w, w', k, reply);
      }
    }
  }

  lemma PendingIsLatest(w: World, k: nat)
    requires SessionsOk(w) && k < |w.invocations| && w.invocations[k].outcome.Pending?
    ensures Latest(w, w.invocations[k].request)
  {
  }

  lemma Returned(n: nat, decode: Command -> Op, w: World, w': World, k: nat, reply: Reply)
    requires k < |w.invocations| && w.invocations[k].request == reply.request && w.invocations[k].call < w.clock
    requires AnswerOk(n, decode, w, reply.request, reply.value, reply.prefix, w.clock)
    requires Occurs(decode, reply.prefix, reply.request) && Later(w, w') && w'.clock == w.clock + 1
    ensures DoneOk(n, decode, w', w.invocations[k].(outcome := Done(w.clock, reply.value, reply.prefix)))
  {
    hide AnswerOk, Occurs;
    AnswerLater(n, decode, w, w', reply.request, reply.value, reply.prefix, w.clock, w.clock);
  }

  lemma BeginsOk(n: nat, decode: Command -> Op, w: World)
    requires Begins(n, w)
    ensures WorldOk(n, decode, w)
  {
    BeginsServes(n, decode, w);
  }

  lemma {:induction false} WorldsOk(n: nat, decode: Command -> Op, ws: seq<World>, events: seq<Event>, k: nat)
    requires IsWorldRun(n, decode, ws, events) && k < |ws|
    ensures WorldOk(n, decode, ws[k])
  {
    if k == 0 {
      BeginsOk(n, decode, ws[0]);
    } else {
      assert Moves(decode, ws[k - 1], events[k - 1], ws[k]);
      WorldsOk(n, decode, ws, events, k - 1);
      hide IsWorldRun, WorldOk, Moves;
      StepKeepsWorld(n, decode, ws[k - 1], events[k - 1], ws[k]);
    }
  }

  /** Whatever happens, replies and outcomes stay right. */
  lemma StepKeepsWorld(n: nat, decode: Command -> Op, w: World, a: Event, w': World)
    requires WorldOk(n, decode, w) && Moves(decode, w, a, w')
    ensures WorldOk(n, decode, w')
  {
    hide WorldOk, Moves;
    match a
    case Inside(st) => InsideKeeps(n, decode, w, st, w');
    case Invoke(r) => InvokeKeeps(n, decode, w, r, w');
    case Register(v, op) => RegisterKeeps(n, decode, w, v, op, w');
    case AnswerRepeated(v, r) => AnswerRepeatedKeeps(n, decode, w, v, r, w');
    case Propose(v, command) => ProposeKeeps(n, decode, w, v, command, w');
    case Answer(v, op) => AnswerKeeps(n, decode, w, v, op, w');
    case Return(i, reply) => ReturnKeeps(n, decode, w, i, reply, w');
  }
}
