/**
 The key-value service on top of a running cluster: every replica is a replay of the commands the
 cluster has agreed upon, through snapshots, installations and restarts.
 */
module KvReplicas {
  import opened RaftTypes
  import opened RaftLog
  import opened RaftServer
  import opened Cluster
  import opened RaftSafety
  import KvService

  /** The operations in a log prefix, its head entry aside. */
  function Ops(decode: Command -> KvService.Op, w: Log): seq<KvService.Op> {
    if |w| <= 1 then [] else Ops(decode, w[..|w| - 1]) + [decode(w[|w| - 1].command)]
  }

  function KvOf(decode: Command -> KvService.Op, w: Log): KvService.Kv {
    KvService.Replay(Ops(decode, w))
  }

  /** The service at each server, and the bytes saved for each snapshot any of them has taken. */
  datatype Services = Services(kvs: seq<KvService.Kv>, saved: map<Log, KvService.Kv>)

  function Bytes(saved: map<Log, KvService.Kv>, snapshot: Log): KvService.Data {
    if snapshot in saved then KvService.Data(saved[snapshot]) else KvService.NoData
  }

  /** What a step of the cluster does to the services. */
  function Follow(decode: Command -> KvService.Op, c: State, st: Step, x: Services): Services
    requires Actor(st) < |c.servers| && Actor(st) < |x.kvs|
    requires st.ServiceReceive? ==> |c.servers[st.v].service.channel| > 0
  {
    var v := Actor(st);
    var s, kv := c.servers[v], x.kvs[v];
    match st
    case ServiceReceive(_) =>
      (match s.service.channel[0]
       case CommandMsg(e) => x.(kvs := x.kvs[v := KvService.Apply(kv, decode(e.command))])
       case SnapshotMsg(snapshot, _) => x.(kvs := x.kvs[v := KvService.Install(kv, Bytes(x.saved, snapshot))]))
    case ServiceStart(_) => x.(kvs := x.kvs[v := KvService.Install(KvService.Empty, Bytes(x.saved, s.disk.snapshot))])
    case ServiceSnapshot(_) => x.(saved := x.saved[s.service.applied := kv])
    case CrashAndRestart(_) => x.(kvs := x.kvs[v := KvService.Empty])
    case _ => x
  }

  /** The services along a run. */
  ghost predicate Serves(n: nat, decode: Command -> KvService.Op, run: seq<State>, steps: seq<Step>,
      xs: seq<Services>)
  {
    && IsRun(n, run, steps)
    && |xs| == |run|
    && xs[0] == Services(seq(n, _ => KvService.Empty), map[])
    && forall k :: 0 <= k < |steps| ==> Served(decode, run[k], steps[k], xs[k], xs[k + 1])
  }

  predicate Served(decode: Command -> KvService.Op, c: State, st: Step, x: Services, x': Services) {
    && Ready(c, st) && Actor(st) < |x.kvs|
    && x' == Follow(decode, c, st, x)
  }

  // ---------- Snapshots in circulation were saved by some service

  predicate Known(saved: map<Log, KvService.Kv>, snapshot: Log) {
    snapshot == [Dummy] || snapshot in saved
  }

  predicate AllKnownIn(saved: map<Log, KvService.Kv>, queue: seq<ApplyMsg>) {
    forall k :: 0 <= k < |queue| && queue[k].SnapshotMsg? ==> Known(saved, queue[k].snapshot)
  }

  predicate ServerKnown(saved: map<Log, KvService.Kv>, s: Server) {
    && Known(saved, s.disk.snapshot)
    && AllKnownIn(saved, s.service.channel)
    && (s.applier.Sending? ==> AllKnownIn(saved, s.applier.queue))
  }

  predicate MessageKnown(saved: map<Log, KvService.Kv>, m: Message) {
    m.InstallRequest? ==> Known(saved, m.install.snapshot)
  }

  ghost predicate AllKnown(c: State, x: Services) {
    && (forall v :: 0 <= v < |c.servers| ==> ServerKnown(x.saved, c.servers[v]))
    && (forall m :: m in c.net ==> MessageKnown(x.saved, m))
  }

  /** A step that saves nothing and moves no snapshot leaves everything known. */
  lemma QuietKnown(saved: map<Log, KvService.Kv>, s: Server, s': Server)
    requires ServerKnown(saved, s)
    requires s'.disk.snapshot == s.disk.snapshot && s'.applier == s.applier && s'.service == s.service
    ensures ServerKnown(saved, s')
  {
  }

  lemma ReceivedKnown(saved: map<Log, KvService.Kv>, c: State, m: Message)
    requires Ready(c, Receive(m)) && Safe(c.servers[m.dst], Receive(m))
    requires ServerKnown(saved, c.servers[m.dst]) && MessageKnown(saved, m)
    ensures ServerKnown(saved, Act(c, Receive(m)).0)
    ensures forall r :: r in Act(c, Receive(m)).1 ==> MessageKnown(saved, r)
  {
    hide Act, ServerKnown;
    var s, s' := c.servers[m.dst], Act(c, Receive(m)).0;
    ReceivedSnapshot(c, m);
    if s'.disk.snapshot == s.disk.snapshot {
      QuietKnown(saved, s, s');
    } else {
      InstalledKnown(saved, s, s');
    }
  }

  /** Messages between servers leave the service alone, and only an installation replaces the snapshot on disk. */
  lemma ReceivedSnapshot(c: State, m: Message)
    requires Ready(c, Receive(m)) && Safe(c.servers[m.dst], Receive(m))
    ensures var s, s' := c.servers[m.dst], Act(c, Receive(m)).0;
      && s'.applier == s.applier && s'.service == s.service
      && (s'.disk.snapshot == s.disk.snapshot || (m.InstallRequest? && s'.disk.snapshot == m.install.snapshot))
    ensures forall r :: r in Act(c, Receive(m)).1 ==> !r.InstallRequest?
  {
    hide HandleRequestVote, VoteReturned, HandleAppend, AppendReturned, HandleInstall, InstallReturned;
    var s := c.servers[m.dst];
    match m
    case VoteRequest(_, args) => VoteKeepsSnapshot(s, args);
    case VoteAnswer(_, src, term, reply) => CountKeepsSnapshot(s, |c.servers|, src, term, reply);
    case AppendRequest(_, args) => AppendKeepsSnapshot(s, args);
    case AppendAnswer(v, src, args, reply) => AnswerKeepsSnapshot(s, v, src, args, reply);
    case InstallRequest(_, args) => InstallTakesSnapshot(s, args);
    case InstallAnswer(_, src, args, term) => InstalledKeepsSnapshot(s, src, args, term);
  }

  predicate SameSnapshot(s: Server, s': Server) {
    s'.applier == s.applier && s'.service == s.service && s'.disk.snapshot == s.disk.snapshot
  }

  lemma VoteKeepsSnapshot(s: Server, args: VoteArgs)
    requires |s.logs| > 0
    ensures SameSnapshot(s, HandleRequestVote(s, args).0)
  {
  }

  lemma CountKeepsSnapshot(s: Server, n: nat, src: nat, term: nat, reply: VoteReply)
    requires |s.logs| > 0
    ensures SameSnapshot(s, VoteReturned(s, n, src, term, reply))
  {
  }

  lemma AppendKeepsSnapshot(s: Server, args: AppendArgs)
    requires CanHandleAppend(s, args)
    ensures SameSnapshot(s, HandleAppend(s, args).0)
  {
    hide Merge, MatchLog, ConflictFrom, FirstMissing;
  }

  lemma AnswerKeepsSnapshot(s: Server, v: nat, src: nat, args: AppendArgs, reply: AppendReply)
    requires CanReturnAppend(s, src)
    ensures SameSnapshot(s, AppendReturned(s, v, src, args, reply))
  {
    hide CommitScan;
  }

  lemma InstallTakesSnapshot(s: Server, args: InstallArgs)
    requires LogShape(s.logs) && DummyIndex(s.logs) <= s.commitIndex
    ensures var s' := HandleInstall(s, args).0;
      && s'.applier == s.applier && s'.service == s.service
      && (s'.disk.snapshot == s.disk.snapshot || s'.disk.snapshot == args.snapshot)
  {
    hide InstalledLog;
  }

  lemma InstalledKeepsSnapshot(s: Server, src: nat, args: InstallArgs, term: nat)
    requires |s.logs| > 0 && src < |s.nextIndex| == |s.matchIndex|
    ensures SameSnapshot(s, InstallReturned(s, src, args, term))
  {
  }

  lemma InstalledKnown(saved: map<Log, KvService.Kv>, s: Server, s': Server)
    requires ServerKnown(saved, s) && Known(saved, s'.disk.snapshot) && s'.applier == s.applier &&
      s'.service == s.service
    ensures ServerKnown(saved, s')
  {
  }

  lemma CollectedKnown(saved: map<Log, KvService.Kv>, s: Server)
    requires ServerKnown(saved, s) && CanCollect(s)
    ensures ServerKnown(saved, Collect(s))
  {
  }

  lemma SentKnown(saved: map<Log, KvService.Kv>, s: Server)
    requires ServerKnown(saved, s) && s.applier.Sending? && |s.applier.queue| > 0
    ensures ServerKnown(saved, SendOne(s))
  {
    var q := s.applier.queue;
    assert q[0].SnapshotMsg? ==> Known(saved, q[0].snapshot);
    assert forall k :: 0 <= k < |q[1..]| ==> q[1..][k] == q[k + 1];
  }

  lemma TakenKnown(saved: map<Log, KvService.Kv>, s: Server)
    requires ServerKnown(saved, s) && |s.service.channel| > 0
    ensures ServerKnown(saved, RaftServer.Receive(s))
  {
    var q := s.service.channel;
    assert forall k :: 0 <= k < |q[1..]| ==> q[1..][k] == q[k + 1];
  }

  lemma SavedKnown(saved: map<Log, KvService.Kv>, saved': map<Log, KvService.Kv>, s: Server)
    requires ServerKnown(saved, s) && saved.Keys <= saved'.Keys
    ensures ServerKnown(saved', s)
  {
  }

  lemma OwnKnown(decode: Command -> KvService.Op, c: State, st: Step, x: Services)
    requires Ready(c, st) && Safe(c.servers[Actor(st)], st) && Actor(st) < |x.kvs|
    requires ServerKnown(x.saved, c.servers[Actor(st)]) && !st.Receive?
    ensures ServerKnown(Follow(decode, c, st, x).saved, Act(c, st).0)
  {
    hide ServerKnown, Collect, SendOne, RaftServer.Receive;
    var s, x' := c.servers[Actor(st)], Follow(decode, c, st, x);
    match st
    case ApplierCollect(_) => CollectedKnown(x.saved, s);
    case ApplierSend(_) => SentKnown(x.saved, s);
    case ServiceReceive(_) => TakenKnown(x.saved, s);
    case ApplierFinish(_) => FinishedKnown(x.saved, s);
    case ServiceStart(_) => StartedKnown(x.saved, s);
    case CrashAndRestart(_) => RestartedKnown(x.saved, s, |c.servers|);
    case ServiceSnapshot(_) =>
      SavedKnown(x.saved, x'.saved, s);
      CompactedKnown(x'.saved, s);
    case Timeout(_) => QuietKnown(x.saved, s, Act(c, st).0);
    case ClientCommand(_, _) => QuietKnown(x.saved, s, Act(c, st).0);
    case SendRound(_, _) => QuietKnown(x.saved, s, Act(c, st).0);
  }

  lemma FinishedKnown(saved: map<Log, KvService.Kv>, s: Server)
    requires ServerKnown(saved, s) && s.applier.Sending? && s.applier.queue == []
    ensures ServerKnown(saved, Finish(s))
  {
  }

  lemma StartedKnown(saved: map<Log, KvService.Kv>, s: Server)
    requires ServerKnown(saved, s)
    ensures ServerKnown(saved, StartService(s))
  {
  }

  lemma RestartedKnown(saved: map<Log, KvService.Kv>, s: Server, n: nat)
    requires ServerKnown(saved, s) && (s.disk.state.Some? ==> |s.disk.state.value.logs| > 0)
    ensures ServerKnown(saved, Restart(s.disk, n))
  {
  }

  lemma CompactedKnown(saved: map<Log, KvService.Kv>, s: Server)
    requires ServerKnown(saved, s) && s.service.applied in saved
    requires LogShape(s.logs) && 0 < |s.service.applied| <= LastIndex(s.logs) + 1
    ensures ServerKnown(saved, Compact(s, |s.service.applied| - 1, s.service.applied))
  {
  }

  /** Requests sent by a step carry the server's own snapshot. */
  lemma SendsKnown(saved: map<Log, KvService.Kv>, c: State, st: Step)
    requires Ready(c, st) && Safe(c.servers[Actor(st)], st)
    requires ServerKnown(saved, c.servers[Actor(st)]) && !st.Receive?
    ensures forall m :: m in Act(c, st).1 ==> MessageKnown(saved, m)
  {
  }

  lemma ActKnown(decode: Command -> KvService.Op, c: State, st: Step, x: Services)
    requires AllKnown(c, x) && Ready(c, st) && Safe(c.servers[Actor(st)], st) && Actor(st) < |x.kvs|
    ensures ServerKnown(Follow(decode, c, st, x).saved, Act(c, st).0)
    ensures forall m :: m in Act(c, st).1 ==> MessageKnown(Follow(decode, c, st, x).saved, m)
  {
    hide ServerKnown, Act, Safe;
    var s, x' := c.servers[Actor(st)], Follow(decode, c, st, x);
    assert ServerKnown(x.saved, s);
    SavedKnown(x.saved, x'.saved, s);
    if st.Receive? {
      assert MessageKnown(x.saved, st.m);
      ReceivedKnown(x.saved, c, st.m);
    } else {
      OwnKnown(decode, c, st, x);
      SendsKnown(x'.saved, c, st);
    }
  }

  lemma KnownKept(decode: Command -> KvService.Op, c: State, st: Step, x: Services)
    requires AllKnown(c, x) && Ready(c, st) && Safe(c.servers[Actor(st)], st) && Actor(st) < |x.kvs|
    ensures AllKnown(Next(c, st), Follow(decode, c, st, x))
  {
    ActKnown(decode, c, st, x);
    hide Act, Ready, Safe;
    var x', c' := Follow(decode, c, st, x), Next(c, st);
    assert forall w :: w in x.saved ==> w in x'.saved;
    forall v | 0 <= v < |c'.servers|
      ensures ServerKnown(x'.saved, c'.servers[v])
    {
      if v != Actor(st) {
        assert ServerKnown(x.saved, c.servers[v]);
      }
    }
    forall m | m in c'.net
      ensures MessageKnown(x'.saved, m)
    {
      if m in c.net {
        assert MessageKnown(x.saved, m);
      }
    }
  }

  // ---------- Every service is a replay

  ghost predicate Replays(decode: Command -> KvService.Op, c: State, x: Services) {
    && |x.kvs| == |c.servers|
    && (forall v :: 0 <= v < |c.servers| && c.servers[v].service.serving ==>
          x.kvs[v] == KvOf(decode, c.servers[v].service.applied))
    && (forall w :: w in x.saved ==> x.saved[w] == KvOf(decode, w))
  }

  lemma OneMore(decode: Command -> KvService.Op, w: Log, e: Entry)
    requires |w| >= 1
    ensures KvOf(decode, w + [e]) == KvService.Apply(KvOf(decode, w), decode(e.command))
  {
    assert (w + [e])[..|w|] == w;
    var ops := Ops(decode, w + [e]);
    assert ops[..|ops| - 1] == Ops(decode, w);
  }

  /** A command that the state already covers is ignored, in whatever order commands were first applied. */
  lemma CoveredIgnored(decode: Command -> KvService.Op, w: Log, i: nat)
    requires 0 < i < |w|
    ensures KvService.Apply(KvOf(decode, w), decode(w[i].command)) == KvOf(decode, w)
  {
    OpsAt(decode, w, i);
    var op := decode(w[i].command);
    KvService.LatestIsLargest(Ops(decode, w), op.clientId, op.commandId);
  }

  lemma {:induction false} OpsAt(decode: Command -> KvService.Op, w: Log, i: nat)
    requires 0 < i < |w|
    ensures |Ops(decode, w)| == |w| - 1 && Ops(decode, w)[i - 1] == decode(w[i].command)
  {
    if |w| > 2 {
      OpsAt(decode, w[..|w| - 1], if i < |w| - 1 then i else i - 1);
    }
  }

  /** Outside of receipts, starts and crashes a step leaves what the service reflects. */
  lemma AppliedMoves(c: State, st: Step)
    requires Ready(c, st) && Safe(c.servers[Actor(st)], st)
    ensures var s := c.servers[Actor(st)].service; var s' := Act(c, st).0.service;
      if st.ServiceReceive? then |s.channel| > 0 && s' == Take(s)
      else if st.ServiceStart? then s'.applied == c.servers[Actor(st)].disk.snapshot
      else if st.CrashAndRestart? then !s'.serving
      else s'.applied == s.applied && s'.serving == s.serving
  {
    hide Merge, MatchLog, CommitScan, ConflictFrom, InstalledLog;
    if st.Receive? {
      ReceivedSnapshot(c, st.m);
    } else {
      hide Take;
    }
  }

  /** What a service does with the message it takes out. */
  lemma ReceiptReplays(decode: Command -> KvService.Op, x: Services, s: Service, kv: KvService.Kv)
    requires |s.channel| > 0 && s.received < |s.applied| && InOrder(s, s.channel[0], Take(s)) &&
      kv == KvOf(decode, s.applied)
    requires s.channel[0].SnapshotMsg? ==> Known(x.saved, s.channel[0].snapshot)
    requires forall w :: w in x.saved ==> x.saved[w] == KvOf(decode, w)
    ensures match s.channel[0]
      case CommandMsg(e) => KvService.Apply(kv, decode(e.command)) == KvOf(decode, Take(s).applied)
      case SnapshotMsg(snapshot, _) => KvService.Install(kv, Bytes(x.saved, snapshot)) == KvOf(decode, Take(s).applied)
  {
    hide KvOf;
    match s.channel[0]
    case CommandMsg(e) =>
      if e.index < |s.applied| {
        CoveredIgnored(decode, s.applied, e.index);
      } else {
        OneMore(decode, s.applied, e);
      }
    case SnapshotMsg(snapshot, index) =>
  }

  lemma ReplayKept(decode: Command -> KvService.Op, c: State, st: Step, x: Services)
    requires Replays(decode, c, x) && AllKnown(c, x) && Ready(c, st) && Safe(c.servers[Actor(st)], st)
    requires st.ServiceReceive? ==>
      var s := c.servers[st.v].service; s.received < |s.applied| && InOrder(s, s.channel[0], Take(s))
    ensures Replays(decode, Next(c, st), Follow(decode, c, st, x))
  {
    hide Act, Safe, KvOf, InOrder, Take, KvService.Apply;
    AppliedMoves(c, st);
    var v := Actor(st);
    var s := c.servers[v];
    assert ServerKnown(x.saved, s);
    EmptyIsReplay(decode);
    if st.ServiceReceive? {
      ReceiptReplays(decode, x, s.service, x.kvs[v]);
    }
  }

  lemma EmptyIsReplay(decode: Command -> KvService.Op)
    ensures KvOf(decode, [Dummy]) == KvService.Empty
  {
  }

  /**
   On every server, at every moment, the service's state is the deduplicated replay of the log prefix
   it reflects: through snapshots, installations, crashes, and starts that find a newer snapshot than the server did.
   */
  lemma {:induction false} ReplicaIsReplay(n: nat, decode: Command -> KvService.Op, run: seq<State>, steps: seq<Step>,
      xs: seq<Services>, a: nat, v: nat)
    requires Serves(n, decode, run, steps, xs) && Point(n, run, a, v)
    requires At(run, a, v).service.serving
    ensures v < |xs[a].kvs| && xs[a].kvs[v] == KvOf(decode, At(run, a, v).service.applied)
  {
    ServicesFollow(n, decode, run, steps, xs, a);
  }

  lemma ServedStep(n: nat, decode: Command -> KvService.Op, run: seq<State>, steps: seq<Step>, xs: seq<Services>,
      k: nat)
    requires Serves(n, decode, run, steps, xs) && k < |steps|
    ensures |xs| == |run| == |steps| + 1
    ensures Taken(run[k], steps[k], run[k + 1]) && Served(decode, run[k], steps[k], xs[k], xs[k + 1])
    ensures steps[k].ServiceReceive? ==>
      && steps[k].v < |run[k].servers|
      && var s := run[k].servers[steps[k].v].service;
         |s.channel| > 0 && s.received < |s.applied| && InOrder(s, s.channel[0], Take(s))
  {
    hide InOrder, Served;
    assert Taken(run[k], steps[k], run[k + 1]);
    if steps[k].ServiceReceive? {
      DeliveredInOrder(n, run, steps, k);
      ReceiveMoves(run[k], steps[k], run[k + 1]);
    }
  }

  lemma {:induction false} ServicesFollow(n: nat, decode: Command -> KvService.Op, run: seq<State>, steps: seq<Step>,
      xs: seq<Services>, a: nat)
    requires Serves(n, decode, run, steps, xs) && a < |run|
    ensures Replays(decode, run[a], xs[a]) && AllKnown(run[a], xs[a])
  {
    if a == 0 {
      EmptyIsReplay(decode);
    } else {
      ServicesFollow(n, decode, run, steps, xs, a - 1);
      hide Replays, AllKnown, Next, Follow, Serves, InOrder;
      ServedStep(n, decode, run, steps, xs, a - 1);
      KnownKept(decode, run[a - 1], steps[a - 1], xs[a - 1]) by { ReplaysSize(decode, run[a - 1], xs[a - 1]); }
      ReplayKept(decode, run[a - 1], steps[a - 1], xs[a - 1]);
    }
  }

  lemma ReplaysSize(decode: Command -> KvService.Op, c: State, x: Services)
    requires Replays(decode, c, x)
    ensures |x.kvs| == |c.servers|
  {
  }

  /** Two replicas that reflect equally long prefixes are equal, whenever and wherever they are looked at. */
  lemma ReplicasAgree(n: nat, decode: Command -> KvService.Op, run: seq<State>, steps: seq<Step>, xs: seq<Services>,
      a: nat, v: nat, b: nat, w: nat)
    requires Serves(n, decode, run, steps, xs) && Point(n, run, a, v) && Point(n, run, b, w)
    requires At(run, a, v).service.serving && At(run, b, w).service.serving
    requires |At(run, a, v).service.applied| == |At(run, b, w).service.applied|
    ensures v < |xs[a].kvs| && w < |xs[b].kvs| && xs[a].kvs[v] == xs[b].kvs[w]
  {
    ReplicaIsReplay(n, decode, run, steps, xs, a, v);
    ReplicaIsReplay(n, decode, run, steps, xs, b, w);
    ServicesAgree(n, run, steps, a, v, b, w);
    assert At(run, a, v).service.applied == At(run, b, w).service.applied;
  }
}
