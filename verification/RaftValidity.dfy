/** Nothing is invented: every command in a log was handed to a server before. */
module RaftValidity {
  import opened Wrappers
  import opened RaftTypes
  import opened RaftLog
  import opened RaftServer
  import opened Consensus
  import opened Cluster
  import opened ClusterInv
  import opened RaftSafety

  /** Every entry but the first one has one of the commands. */
  predicate Holds(cmds: set<Command>, l: Log) {
    forall k :: 1 <= k < |l| ==> l[k].command in cmds
  }

  predicate HoldsAll(cmds: set<Command>, entries: Log) {
    forall k :: 0 <= k < |entries| ==> entries[k].command in cmds
  }

  predicate ServerHolds(cmds: set<Command>, s: Server) {
    && Holds(cmds, s.logs)
    && Holds(cmds, s.disk.snapshot)
    && (s.disk.state.Some? ==> Holds(cmds, s.disk.state.value.logs))
  }

  predicate MessageHolds(cmds: set<Command>, m: Message) {
    && (m.AppendRequest? ==> HoldsAll(cmds, m.append.entries))
    && (m.InstallRequest? ==> Holds(cmds, m.install.snapshot))
  }

  ghost predicate ClusterHolds(cmds: set<Command>, c: State) {
    && (forall v :: 0 <= v < |c.servers| ==> ServerHolds(cmds, c.servers[v]))
    && (forall m :: m in c.net ==> MessageHolds(cmds, m))
  }

  /** The commands handed over in the first `k` steps. */
  function Submitted(steps: seq<Step>, k: nat): set<Command>
    requires k <= |steps|
  {
    if k == 0 then {}
    else Submitted(steps, k - 1) + if steps[k - 1].ClientCommand? then {steps[k - 1].command} else {}
  }

  // ---------- Operations on logs

  lemma MergeHoldsAll(cmds: set<Command>, l: Log, entries: Log)
    requires Continues(l, entries) && Holds(cmds, l) && HoldsAll(cmds, entries)
    ensures Holds(cmds, Merge(l, entries))
  {
    hide FirstMissing, Present;
    var j := FirstMissing(l, entries, 0);
    if j < |entries| {
      MissingInReach(l, entries, j);
    }
  }

  lemma InstalledHolds(cmds: set<Command>, l: Log, index: nat, term: nat)
    requires LogShape(l) && DummyIndex(l) < index && Holds(cmds, l)
    ensures Holds(cmds, InstalledLog(l, index, term))
  {
    if index <= LastIndex(l) {
      var k := index - DummyIndex(l);
      assert l[k..][1..] == l[k + 1..];
    }
  }

  lemma FullHolds(cmds: set<Command>, s: Server)
    requires ServerHolds(cmds, s) && |s.logs| > 0 && |s.disk.snapshot| > 0
    ensures Holds(cmds, FullOf(s))
  {
    var f := FullOf(s);
    forall k | 1 <= k < |f|
      ensures f[k].command in cmds
    {
      if k >= |s.disk.snapshot| {
        assert f[k] == s.logs[k - |s.disk.snapshot| + 1];
      }
    }
  }

  // ---------- Steps

  /** A handler that leaves log and snapshot alone, whether it persists or not. */
  lemma SameHolds(cmds: set<Command>, s: Server, s': Server)
    requires ServerHolds(cmds, s) && s'.logs == s.logs && s'.disk.snapshot == s.disk.snapshot
    requires s'.disk == s.disk || s'.disk.state == Some(Saved(s'.currentTerm, s'.votedFor, s'.logs))
    ensures ServerHolds(cmds, s')
  {
  }

  lemma AppendHolds(cmds: set<Command>, s: Server, args: AppendArgs)
    requires ServerHolds(cmds, s) && CanHandleAppend(s, args) && HoldsAll(cmds, args.entries)
    ensures ServerHolds(cmds, HandleAppend(s, args).0)
  {
    hide Merge, ConflictFrom, Holds;
    var s' := HandleAppend(s, args).0;
    if s'.logs == s.logs {
      SameHolds(cmds, s, s');
    } else {
      MergeHoldsAll(cmds, s.logs, args.entries);
    }
  }

  lemma InstallHolds(cmds: set<Command>, s: Server, args: InstallArgs)
    requires ServerHolds(cmds, s) && LogShape(s.logs) && DummyIndex(s.logs) <= s.commitIndex &&
      Holds(cmds, args.snapshot)
    ensures ServerHolds(cmds, HandleInstall(s, args).0)
  {
    hide InstalledLog, Holds;
    if args.term >= s.currentTerm && args.lastIncludedIndex > s.commitIndex {
      InstalledHolds(cmds, s.logs, args.lastIncludedIndex, args.lastIncludedTerm);
    } else {
      SameHolds(cmds, s, HandleInstall(s, args).0);
    }
  }

  lemma ReceiveHolds(cmds: set<Command>, c: State, m: Message)
    requires ClusterHolds(cmds, c) && Ready(c, Receive(m)) && Safe(c.servers[m.dst], Receive(m))
    ensures ServerHolds(cmds, Act(c, Receive(m)).0)
    ensures forall r :: r in Act(c, Receive(m)).1 ==> MessageHolds(cmds, r)
  {
    hide ServerHolds, HandleAppend, HandleInstall, CommitScan;
    var s := c.servers[m.dst];
    assert ServerHolds(cmds, s) && MessageHolds(cmds, m);
    match m
    case AppendRequest(_, args) => AppendHolds(cmds, s, args);
    case InstallRequest(_, args) => InstallHolds(cmds, s, args);
    case VoteRequest(_, _) => SameHolds(cmds, s, Act(c, Receive(m)).0);
    case VoteAnswer(_, _, _, _) => SameHolds(cmds, s, Act(c, Receive(m)).0);
    case AppendAnswer(_, _, _, _) => SameHolds(cmds, s, Act(c, Receive(m)).0);
    case InstallAnswer(_, _, _, _) => SameHolds(cmds, s, Act(c, Receive(m)).0);
  }

  lemma StartHolds(cmds: set<Command>, s: Server, command: Command)
    requires ServerHolds(cmds, s) && |s.logs| > 0
    ensures ServerHolds(cmds + {command}, Start(s, command))
  {
  }

  lemma CompactHolds(cmds: set<Command>, s: Server, index: nat, snapshot: Log)
    requires ServerHolds(cmds, s) && LogShape(s.logs) && index <= LastIndex(s.logs) && Holds(cmds, snapshot)
    ensures ServerHolds(cmds, Compact(s, index, snapshot))
  {
  }

  lemma SendHolds(cmds: set<Command>, s: Server, me: nat, peer: nat)
    requires ServerHolds(cmds, s) && CanSend(s, peer)
    ensures var out := Send(s, me, peer);
      && (out.Append? ==> HoldsAll(cmds, out.append.entries))
      && (out.Install? ==> Holds(cmds, out.install.snapshot))
  {
  }

  lemma OwnHolds(cmds: set<Command>, c: State, st: Step)
    requires ClusterHolds(cmds, c) && Ready(c, st) && Safe(c.servers[Actor(st)], st) && !st.Receive? &&
      !st.ClientCommand?
    requires st.ServiceSnapshot? ==> Holds(cmds, c.servers[st.v].service.applied)
    ensures ServerHolds(cmds, Act(c, st).0)
    ensures forall r :: r in Act(c, st).1 ==> MessageHolds(cmds, r)
  {
    hide Compact, Send, ServerHolds;
    var s := c.servers[Actor(st)];
    assert ServerHolds(cmds, s);
    match st
    case ServiceSnapshot(_) => CompactHolds(cmds, s, |s.service.applied| - 1, s.service.applied);
    case SendRound(v, peer) => SendHolds(cmds, s, v, peer);
    case CrashAndRestart(_) => RestartHolds(cmds, s, |c.servers|);
    case Timeout(_) => SameHolds(cmds, s, Act(c, st).0);
    case ApplierCollect(_) => SameHolds(cmds, s, Act(c, st).0);
    case ApplierSend(_) => SameHolds(cmds, s, Act(c, st).0);
    case ApplierFinish(_) => SameHolds(cmds, s, Act(c, st).0);
    case ServiceStart(_) => SameHolds(cmds, s, Act(c, st).0);
    case ServiceReceive(_) => SameHolds(cmds, s, Act(c, st).0);
  }

  lemma RestartHolds(cmds: set<Command>, s: Server, n: nat)
    requires ServerHolds(cmds, s) && (s.disk.state.Some? ==> |s.disk.state.value.logs| > 0)
    ensures ServerHolds(cmds, Restart(s.disk, n))
  {
  }

  lemma MoreCommands(cmds: set<Command>, cmds': set<Command>, c: State)
    requires ClusterHolds(cmds, c) && cmds <= cmds'
    ensures ClusterHolds(cmds', c)
  {
    forall v | 0 <= v < |c.servers|
      ensures ServerHolds(cmds', c.servers[v])
    {
      assert ServerHolds(cmds, c.servers[v]);
    }
    forall m | m in c.net
      ensures MessageHolds(cmds', m)
    {
      assert MessageHolds(cmds, m);
    }
  }

  lemma StepHolds(cmds: set<Command>, c: State, st: Step, c': State)
    requires ClusterHolds(cmds, c) && Taken(c, st, c')
    requires st.ServiceSnapshot? ==> Holds(cmds, c.servers[st.v].service.applied)
    ensures ClusterHolds(cmds + (if st.ClientCommand? then {st.command} else {}), c')
  {
    hide ServerHolds, MessageHolds, Act;
    var cmds' := cmds + if st.ClientCommand? then {st.command} else {};
    MoreCommands(cmds, cmds', c);
    assert ServerHolds(cmds', Act(c, st).0) && forall r :: r in Act(c, st).1 ==> MessageHolds(cmds', r) by {
      if st.Receive? {
        ReceiveHolds(cmds', c, st.m);
      } else if st.ClientCommand? {
        ClientHolds(cmds, c, st);
      } else {
        OwnHolds(cmds', c, st);
      }
    }
  }

  lemma ClientHolds(cmds: set<Command>, c: State, st: Step)
    requires ClusterHolds(cmds, c) && Ready(c, st) && Safe(c.servers[Actor(st)], st) && st.ClientCommand?
    ensures ServerHolds(cmds + {st.command}, Act(c, st).0) && Act(c, st).1 == {}
  {
    hide Start, ServerHolds;
    assert ServerHolds(cmds, c.servers[st.v]);
    StartHolds(cmds, c.servers[st.v], st.command);
  }

  // ---------- Runs

  lemma AppliedHolds(n: nat, run: seq<State>, steps: seq<Step>, cmds: set<Command>, k: nat, v: nat)
    requires IsRun(n, run, steps) && Point(n, run, k, v) && ClusterHolds(cmds, run[k])
    ensures Holds(cmds, Held(At(run, k, v))) && At(run, k, v).service.applied <= Held(At(run, k, v))
  {
    hide IsRun, Explains;
    var ps := RunHistory(n, run, steps);
    var s := At(run, k, v);
    AppliedAt(n, run, steps, ps, k, v);
    SnapshotThere(n, run, steps, ps, k, v);
    assert ServerHolds(cmds, run[k].servers[v]);
    FullHolds(cmds, s);
  }

  lemma SnapshotThere(n: nat, run: seq<State>, steps: seq<Step>, ps: seq<Protocol>, k: nat, v: nat)
    requires Explains(n, run, steps, ps) && Point(n, run, k, v)
    ensures |At(run, k, v).disk.snapshot| > 0
  {
    hide Explains, ProtocolInv, ApplyLink, CoveredLog, VoteLink, CandidateLink, LeaderLink, LogLink, FullOf;
    PointOk(n, run, steps, ps, k, v);
  }

  lemma {:induction false} RunHolds(n: nat, run: seq<State>, steps: seq<Step>, k: nat)
    requires IsRun(n, run, steps) && k < |run|
    ensures k <= |steps| && ClusterHolds(Submitted(steps, k), run[k])
  {
    hide IsRun, Taken, ClusterHolds;
    if k == 0 {
      NothingYet(n, run, steps);
    } else {
      StepAt(n, run, steps, k - 1);
      RunHolds(n, run, steps, k - 1);
      var st := steps[k - 1];
      if st.ServiceSnapshot? {
        ActorAt(n, run, steps, k - 1);
        AppliedHolds(n, run, steps, Submitted(steps, k - 1), k - 1, st.v);
      }
      StepHolds(Submitted(steps, k - 1), run[k - 1], st, run[k]);
    }
  }

  lemma NothingYet(n: nat, run: seq<State>, steps: seq<Step>)
    requires IsRun(n, run, steps)
    ensures |run| > 0 && ClusterHolds({}, run[0])
  {
  }

  lemma StepAt(n: nat, run: seq<State>, steps: seq<Step>, k: nat)
    requires IsRun(n, run, steps) && k + 1 < |run|
    ensures k < |steps| && Taken(run[k], steps[k], run[k + 1])
  {
    hide Taken;
  }

  lemma ActorAt(n: nat, run: seq<State>, steps: seq<Step>, k: nat)
    requires IsRun(n, run, steps) && k < |steps|
    ensures Point(n, run, k, Actor(steps[k]))
  {
    assert Taken(run[k], steps[k], run[k + 1]);
    hide IsRun, Explains;
    var ps := RunHistory(n, run, steps);
    SizeAt(n, run, steps, ps, k);
  }

  /** Every entry that a server holds, and so every one it applies, has a command handed to some server before. */
  lemma NothingInvented(n: nat, run: seq<State>, steps: seq<Step>, a: nat, v: nat, i: nat) returns (k: nat)
    requires IsRun(n, run, steps) && Point(n, run, a, v) && 1 <= i < |Held(At(run, a, v))|
    ensures k < a && k < |steps| && steps[k].ClientCommand? && steps[k].command == Held(At(run, a, v))[i].command
  {
    RunHolds(n, run, steps, a);
    AppliedHolds(n, run, steps, Submitted(steps, a), a, v);
    k := SubmittedAt(steps, a, Held(At(run, a, v))[i].command);
  }

  lemma {:induction false} SubmittedAt(steps: seq<Step>, a: nat, command: Command) returns (k: nat)
    requires a <= |steps| && command in Submitted(steps, a)
    ensures k < a && steps[k].ClientCommand? && steps[k].command == command
  {
    if command in Submitted(steps, a - 1) {
      k := SubmittedAt(steps, a - 1, command);
    } else {
      k := a - 1;
    }
  }
}
