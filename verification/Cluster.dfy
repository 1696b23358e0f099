/**
 The cluster as a state machine.  Each locked region of a server is one step, enabled at any
 time; the network may lose, delay, reorder and repeat requests and replies, except that each
 call of an election returns at most once.
 */
module Cluster {
  import opened Wrappers
  import opened RaftTypes
  import opened RaftLog
  import opened RaftServer

  datatype Message =
    | VoteRequest(dst: nat, vote: VoteArgs)
    | VoteAnswer(dst: nat, src: nat, term: nat, voteReply: VoteReply)
    | AppendRequest(dst: nat, append: AppendArgs)
    | AppendAnswer(dst: nat, src: nat, append: AppendArgs, appendReply: AppendReply)
    | InstallRequest(dst: nat, install: InstallArgs)
    | InstallAnswer(dst: nat, src: nat, install: InstallArgs, replyTerm: nat)

  /** `net` holds every message ever sent. */
  datatype State = State(servers: seq<Server>, net: set<Message>)

  datatype Step =
    | Timeout(v: nat)
    | Receive(m: Message)
    | ClientCommand(v: nat, command: Command)
    | SendRound(v: nat, peer: nat)
    | ServiceSnapshot(v: nat)
    | CrashAndRestart(v: nat)
    | ApplierCollect(v: nat)
    | ApplierSend(v: nat)
    | ApplierFinish(v: nat)
    | ServiceStart(v: nat)
    | ServiceReceive(v: nat)

  /** The one server a step changes. */
  function Actor(st: Step): nat {
    if st.Receive? then st.m.dst else st.v
  }

  const FreshDisk := Disk(None, [Dummy])

  predicate Init(n: nat, c: State) {
    && |c.servers| == n
    && (forall v :: 0 <= v < n ==> c.servers[v] == Restart(FreshDisk, n))
    && c.net == {}
  }

  /** The source would run this region in this state. */
  predicate Ready(c: State, st: Step) {
    && Actor(st) < |c.servers|
    && var s := c.servers[Actor(st)];
       match st
       case Timeout(_) => s.role != Leader
       case Receive(m) =>
         && m in c.net
         && (m.VoteAnswer? && m.term == s.currentTerm && s.role == Candidate ==> m.src in s.awaiting)
       case ClientCommand(_, _) => true
       case SendRound(v, peer) => peer < |c.servers| && peer != v
       case ServiceSnapshot(_) => s.service.serving && |s.service.applied| > 0
       case CrashAndRestart(_) => true
       case ApplierCollect(_) => s.applier.Waiting? && (s.hasSnapshot || s.lastApplied < s.commitIndex)
       case ApplierSend(_) => s.applier.Sending? && |s.applier.queue| > 0
       case ApplierFinish(_) => s.applier.Sending? && s.applier.queue == []
       case ServiceStart(_) => !s.service.serving
       case ServiceReceive(_) => s.service.serving && |s.service.channel| > 0
  }

  /** Running it does not panic. */
  predicate Safe(s: Server, st: Step) {
    && LogShape(s.logs)
    && DummyIndex(s.logs) <= s.commitIndex
    && |s.nextIndex| == |s.matchIndex|
    && match st
       case Receive(AppendRequest(_, args)) => CanHandleAppend(s, args)
       case Receive(AppendAnswer(_, src, _, _)) => CanReturnAppend(s, src)
       case Receive(InstallAnswer(_, src, _, _)) => src < |s.nextIndex|
       case SendRound(_, peer) => CanSend(s, peer)
       case ServiceSnapshot(_) => |s.service.applied| <= LastIndex(s.logs) + 1
       case CrashAndRestart(_) => s.disk.state.Some? ==> |s.disk.state.value.logs| > 0
       case ApplierCollect(_) => CanCollect(s)
       case _ => true
  }

  /** The actor's next state and the messages it sends. */
  function Act(c: State, st: Step): (Server, set<Message>)
    requires Ready(c, st) && Safe(c.servers[Actor(st)], st)
  {
    var n := |c.servers|;
    var s := c.servers[Actor(st)];
    match st
    case Timeout(v) =>
      var (s', args) := StartElection(s, v, n);
      (s', set p | p in s'.awaiting :: VoteRequest(p, args))
    case Receive(VoteRequest(v, args)) =>
      var (s', reply) := HandleRequestVote(s, args);
      (s', {VoteAnswer(args.candidateId, v, args.term, reply)})
    case Receive(VoteAnswer(_, src, term, reply)) =>
      (VoteReturned(s, n, src, term, reply), {})
    case Receive(AppendRequest(v, args)) =>
      var (s', reply) := HandleAppend(s, args);
      (s', {AppendAnswer(args.leaderId, v, args, reply)})
    case Receive(AppendAnswer(v, src, args, reply)) =>
      (AppendReturned(s, v, src, args, reply), {})
    case Receive(InstallRequest(v, args)) =>
      var (s', term) := HandleInstall(s, args);
      (s', {InstallAnswer(args.leaderId, v, args, term)})
    case Receive(InstallAnswer(_, src, args, term)) =>
      (InstallReturned(s, src, args, term), {})
    case ClientCommand(_, command) => (Start(s, command), {})
    case SendRound(v, peer) =>
      (s, match Send(s, v, peer)
          case Nothing => {}
          case Append(args) => {AppendRequest(peer, args)}
          case Install(args) => {InstallRequest(peer, args)})
    case ServiceSnapshot(_) => (Compact(s, |s.service.applied| - 1, s.service.applied), {})
    case CrashAndRestart(_) => (Restart(s.disk, n), {})
    case ApplierCollect(_) => (Collect(s), {})
    case ApplierSend(_) => (SendOne(s), {})
    case ApplierFinish(_) => (Finish(s), {})
    case ServiceStart(_) => (StartService(s), {})
    case ServiceReceive(_) => (RaftServer.Receive(s), {})
  }

  function Next(c: State, st: Step): State
    requires Ready(c, st) && Safe(c.servers[Actor(st)], st)
  {
    var (s', sent) := Act(c, st);
    State(c.servers[Actor(st) := s'], c.net + sent)
  }

  /** `run[k + 1]` is reached from `run[k]` by `steps[k]`. */
  ghost predicate IsRun(n: nat, run: seq<State>, steps: seq<Step>) {
    && |run| == |steps| + 1
    && Init(n, run[0])
    && forall k :: 0 <= k < |steps| ==> Taken(run[k], steps[k], run[k + 1])
  }

  predicate Taken(c: State, st: Step, c': State) {
    Ready(c, st) && Safe(c.servers[Actor(st)], st) && c' == Next(c, st)
  }
}
