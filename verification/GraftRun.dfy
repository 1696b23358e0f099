/**
 Two runs of five servers in which installing a snapshot breaks Log Matching between two servers.  Server 4 leads
 term 1 and sends two entries to server 3 only.  Server 0 leads term 2, commits an entry at index 1 with servers
 1 and 2 and compacts its log.  Server 4 installs the snapshot and keeps its own entry at index 2, which server 3
 holds with another prefix: already then, or as soon as the delayed request reaches it.
 */
module GraftRun {
  import opened Wrappers
  import opened RaftTypes
  import opened RaftLog
  import opened RaftServer
  import opened FiniteSets
  import opened Cluster
  import opened RaftSafety
  import opened RaftMatching

  const A := Entry(1, 1, Command("a"))
  const B := Entry(2, 1, Command("b"))
  const Kept := Entry(1, 2, Command("c"))

  const Zeros: seq<nat> := [0, 0, 0, 0, 0]
  const Ones: seq<nat> := [1, 1, 1, 1, 1]

  // ---------- The servers, one state after the other

  const Fresh := Server(Follower, 0, -1, [Dummy], 0, 0, Zeros, Zeros, false, 0, {}, Waiting(0),
                        Service(false, [], 0, [Dummy]), FreshDisk)

  const Candidate4 := Persist(Fresh.(role := Candidate, currentTerm := 1, votedFor := 4,
                                     grantedVotes := 1, awaiting := {0, 1, 2, 3}))
  const Voted := Persist(Fresh.(currentTerm := 1, votedFor := 4))
  const Nearly4 := Candidate4.(grantedVotes := 2, awaiting := {0, 1, 3})
  const Leader4 := Candidate4.(role := Leader, nextIndex := Ones, grantedVotes := 3, awaiting := {0, 1})
  const One4 := Persist(Leader4.(logs := [Dummy, A]))
  const Two4 := Persist(Leader4.(logs := [Dummy, A, B]))
  const Holds3 := Persist(Voted.(logs := [Dummy, A, B]))

  const Early0 := Persist(Fresh.(role := Candidate, currentTerm := 1, votedFor := 0,
                                 grantedVotes := 1, awaiting := {1, 2, 3, 4}))
  const Candidate0 := Persist(Early0.(currentTerm := 2))
  const Again := Persist(Fresh.(currentTerm := 2, votedFor := 0))
  const Nearly0 := Candidate0.(grantedVotes := 2, awaiting := {2, 3, 4})
  const Leader0 := Candidate0.(role := Leader, nextIndex := Ones, grantedVotes := 3, awaiting := {3, 4})
  const One0 := Persist(Leader0.(logs := [Dummy, Kept]))
  const Holds := Persist(Again.(logs := [Dummy, Kept]))
  const Half0 := One0.(nextIndex := [1, 2, 1, 1, 1], matchIndex := [0, 1, 0, 0, 0])
  const Committed0 := One0.(nextIndex := [1, 2, 2, 1, 1], matchIndex := [0, 1, 1, 0, 0], commitIndex := 1)
  const Busy0 := Committed0.(applier := Sending([CommandMsg(Kept)], 1))
  const Sent0 := Committed0.(applier := Sending([], 1), service := Service(false, [CommandMsg(Kept)], 0, [Dummy]))
  const Serving0 := Sent0.(service := Service(true, [CommandMsg(Kept)], 0, [Dummy]))
  const Applied0 := Sent0.(service := Service(true, [], 1, [Dummy, Kept]))
  const Compacted0 := Applied0.(logs := [Entry(1, 2, NoCommand)],
                                disk := Disk(Some(Saved(2, 0, [Entry(1, 2, NoCommand)])), [Dummy, Kept]))

  // ---------- The messages

  const Ask4 := VoteArgs(1, 4, 0, 0)
  const Ask0 := VoteArgs(2, 0, 0, 0)
  const Old := AppendArgs(1, 4, 0, 0, [A, B], 0)
  const Sent := AppendArgs(2, 0, 0, 0, [Kept], 0)
  const Snap := InstallArgs(2, 0, 1, 2, [Dummy, Kept])

  lemma Peers()
    ensures Below(5) - {4} == {0, 1, 2, 3} && Below(5) - {0} == {1, 2, 3, 4}
  {
  }

  lemma FirstCandidate()
    ensures Restart(FreshDisk, 5) == Fresh
    ensures StartElection(Fresh, 4, 5) == (Candidate4, Ask4)
    ensures HandleRequestVote(Fresh, Ask4) == (Voted, VoteReply(1, true))
  {
    hide Below;
    Peers();
    assert Fill(5, 0) == Zeros;
  }

  lemma FirstLeader()
    ensures VoteReturned(Candidate4, 5, 2, 1, VoteReply(1, true)) == Nearly4
    ensures VoteReturned(Nearly4, 5, 3, 1, VoteReply(1, true)) == Leader4
  {
    assert {0, 1, 2, 3} - {2} == {0, 1, 3} && {0, 1, 3} - {3} == {0, 1};
    assert Fill(5, 0) == Zeros && Fill(5, 1) == Ones;
  }

  lemma Proposals()
    ensures Start(Leader4, A.command) == One4 && Start(One4, B.command) == Two4
    ensures Start(Leader0, Kept.command) == One0
  {
    assert [Dummy] + [A] == [Dummy, A] && [Dummy, A] + [B] == [Dummy, A, B];
    assert [Dummy] + [Kept] == [Dummy, Kept];
  }

  lemma FirstReplication()
    ensures CanSend(Two4, 3) && Send(Two4, 4, 3) == Append(Old)
    ensures CanHandleAppend(Voted, Old) && HandleAppend(Voted, Old).0 == Holds3
  {
    assert Two4.logs[1..] == [A, B];
    assert !Present([Dummy], A);
    assert Merge([Dummy], [A, B]) == [Dummy, A, B];
  }

  lemma SecondCandidate()
    ensures StartElection(Fresh, 0, 5).0 == Early0
    ensures StartElection(Early0, 0, 5) == (Candidate0, Ask0)
  {
    hide Below;
    Peers();
  }

  lemma SecondVotes()
    ensures HandleRequestVote(Voted, Ask0) == (Again, VoteReply(2, true))
    ensures HandleRequestVote(Fresh, Ask0) == (Again, VoteReply(2, true))
  {
  }

  lemma SecondLeader()
    ensures VoteReturned(Candidate0, 5, 1, 2, VoteReply(2, true)) == Nearly0
    ensures VoteReturned(Nearly0, 5, 2, 2, VoteReply(2, true)) == Leader0
  {
    assert {1, 2, 3, 4} - {1} == {2, 3, 4} && {2, 3, 4} - {2} == {3, 4};
    assert Fill(5, 0) == Zeros && Fill(5, 1) == Ones;
  }

  lemma SecondReplication()
    ensures CanSend(One0, 1) && Send(One0, 0, 1) == Append(Sent)
    ensures CanSend(One0, 2) && Send(One0, 0, 2) == Append(Sent)
    ensures CanHandleAppend(Again, Sent) && HandleAppend(Again, Sent) == (Holds, AppendReply(2, true, 0))
  {
    assert One0.logs[1..] == [Kept];
    assert !Present([Dummy], Kept);
    assert Merge([Dummy], [Kept]) == [Dummy, Kept];
  }

  lemma HalfWay()
    ensures CanReturnAppend(One0, 1) && AppendReturned(One0, 0, 1, Sent, AppendReply(2, true, 0)) == Half0
  {
    var m := [0, 1, 0, 0, 0];
    assert One0.matchIndex[1 := 1] == m && One0.nextIndex[1 := 2] == [1, 2, 1, 1, 1];
    assert Holding(m, 0, 1, 5) == Holding(m, 0, 1, 4) == Holding(m, 0, 1, 3) == Holding(m, 0, 1, 2) == 1 by {
      assert Holding(m, 0, 1, 1) == 0;
    }
    assert !CommitRule(Half0, 0, 1);
    assert CommitScan(Half0, 0, 1) == 0;
  }

  lemma Majority()
    ensures CanReturnAppend(Half0, 2) && AppendReturned(Half0, 0, 2, Sent, AppendReply(2, true, 0)) == Committed0
  {
    var m := [0, 1, 1, 0, 0];
    assert Half0.matchIndex[2 := 1] == m && Half0.nextIndex[2 := 2] == [1, 2, 2, 1, 1];
    assert Holding(m, 0, 1, 5) == Holding(m, 0, 1, 4) == Holding(m, 0, 1, 3) == 2 by {
      assert Holding(m, 0, 1, 2) == 1 by { assert Holding(m, 0, 1, 1) == 0; }
    }
    assert CommitRule(Half0.(matchIndex := m, nextIndex := [1, 2, 2, 1, 1]), 0, 1);
  }

  lemma Application()
    ensures CanCollect(Committed0) && Collect(Committed0) == Busy0 && SendOne(Busy0) == Sent0
    ensures StartService(Sent0) == Serving0 && RaftServer.Receive(Serving0) == Applied0
  {
    assert Committed0.logs[1..2] == [Kept];
    assert Commands([Kept]) == [CommandMsg(Kept)];
    assert [] + [CommandMsg(Kept)] == [CommandMsg(Kept)] && [CommandMsg(Kept)][1..] == [];
    assert [Dummy] + [Kept] == [Dummy, Kept];
  }

  lemma Compaction()
    ensures LogShape(Applied0.logs) && Compact(Applied0, 1, [Dummy, Kept]) == Compacted0
    ensures CanSend(Compacted0, 4) && Send(Compacted0, 0, 4) == Install(Snap)
  {
    var kept := Applied0.logs[1..];
    assert kept == [Kept] && kept[0].(command := NoCommand) == Entry(1, 2, NoCommand);
    assert kept[0 := Entry(1, 2, NoCommand)] == [Entry(1, 2, NoCommand)];
  }

  /** After the installation server 4 holds its old entry behind the snapshot, server 3 behind another one. */
  lemma Mismatch()
    ensures var s := HandleInstall(Two4, Snap).0;
      Held(s) == [Dummy, Kept, B] && Held(Holds3) == [Dummy, A, B] && !SamePrefix(Held(s), Held(Holds3), 2)
  {
    var s := HandleInstall(Two4, Snap).0;
    assert Two4.logs[1..][1..] == [B];
    assert s.logs == [Entry(1, 2, NoCommand)] + [B];
    assert s.logs[1..] == [B];
    assert Held(s) == [Dummy, Kept] + [B];
    assert Holds3.logs[1..] == [A, B];
    assert Held(Holds3) == [Dummy] + [A, B];
    assert Held(s)[2] == Held(Holds3)[2] && Held(s)[1] != Held(Holds3)[1];
  }

  // ---------- The run

  /** Consecutive steps from the first state to the last. */
  ghost predicate Path(run: seq<State>, steps: seq<Step>) {
    |run| == |steps| + 1 && forall k :: 0 <= k < |steps| ==> Taken(run[k], steps[k], run[k + 1])
  }

  ghost predicate Ends(run: seq<State>, servers: seq<Server>) {
    |run| > 0 && run[|run| - 1].servers == servers
  }

  lemma Extend(run: seq<State>, steps: seq<Step>, st: Step) returns (run': seq<State>, steps': seq<Step>)
    requires Path(run, steps)
    requires Ready(run[|run| - 1], st) && Safe(run[|run| - 1].servers[Actor(st)], st)
    ensures run' == run + [Next(run[|run| - 1], st)] && steps' == steps + [st] && Path(run', steps')
    ensures run'[0] == run[0] && run[|run| - 1].net <= run'[|run'| - 1].net
  {
    NetGrows(run[|run| - 1], st);
    hide Next;
    run', steps' := run + [Next(run[|run| - 1], st)], steps + [st];
    forall k | 0 <= k < |steps'|
      ensures Taken(run'[k], steps'[k], run'[k + 1])
    {
      assert k < |steps| ==> Taken(run[k], steps[k], run[k + 1]);
    }
  }

  lemma NetGrows(c: State, st: Step)
    requires Ready(c, st) && Safe(c.servers[Actor(st)], st)
    ensures c.net <= Next(c, st).net
  {
    hide Act;
  }

  /** Server 4 leads term 1. */
  lemma LeadFirst(run: seq<State>, steps: seq<Step>) returns (run': seq<State>, steps': seq<Step>)
    requires Path(run, steps) && Ends(run, [Fresh, Fresh, Fresh, Fresh, Fresh])
    ensures Path(run', steps') && Ends(run', [Fresh, Fresh, Voted, Voted, Leader4]) && run'[0] == run[0]
  {
    hide Path, StartElection, HandleRequestVote, VoteReturned;
    FirstCandidate();
    FirstLeader();
    run', steps' := Extend(run, steps, Timeout(4));
    assert VoteRequest(2, Ask4) in run'[|run'| - 1].net && VoteRequest(3, Ask4) in run'[|run'| - 1].net;
    run', steps' := Extend(run', steps', Receive(VoteRequest(2, Ask4)));
    run', steps' := Extend(run', steps', Receive(VoteRequest(3, Ask4)));
    run', steps' := Extend(run', steps', Receive(VoteAnswer(4, 2, 1, VoteReply(1, true))));
    run', steps' := Extend(run', steps', Receive(VoteAnswer(4, 3, 1, VoteReply(1, true))));
  }

  /** It sends two entries to server 3. */
  lemma SendFirst(run: seq<State>, steps: seq<Step>) returns (run': seq<State>, steps': seq<Step>)
    requires Path(run, steps) && Ends(run, [Fresh, Fresh, Voted, Voted, Leader4])
    ensures Path(run', steps') && Ends(run', [Fresh, Fresh, Voted, Voted, Two4]) && run'[0] == run[0]
    ensures AppendRequest(3, Old) in run'[|run'| - 1].net
  {
    hide Path, Start, Send, CanSend;
    Proposals();
    FirstReplication();
    run', steps' := Extend(run, steps, ClientCommand(4, A.command));
    run', steps' := Extend(run', steps', ClientCommand(4, B.command));
    run', steps' := Extend(run', steps', SendRound(4, 3));
  }

  /** Server 3 takes them. */
  lemma ReceiveFirst(run: seq<State>, steps: seq<Step>, ss: seq<Server>) returns (run': seq<State>, steps': seq<Step>)
    requires Path(run, steps) && |ss| == 5 && ss[3] == Voted && Ends(run, ss)
    requires AppendRequest(3, Old) in run[|run| - 1].net
    ensures Path(run', steps') && Ends(run', ss[3 := Holds3]) && run'[0] == run[0]
    ensures run' == run + [run'[|run'| - 1]] && steps' == steps + [Receive(AppendRequest(3, Old))]
    ensures run[|run| - 1].net <= run'[|run'| - 1].net
  {
    hide Path, HandleAppend, CanHandleAppend;
    FirstReplication();
    run', steps' := Extend(run, steps, Receive(AppendRequest(3, Old)));
  }

  /** Server 0 stands twice, and servers 1 and 2 vote for it in term 2. */
  lemma StandSecond(run: seq<State>, steps: seq<Step>, third: Server)
    returns (run': seq<State>, steps': seq<Step>)
    requires Path(run, steps) && Ends(run, [Fresh, Fresh, Voted, third, Two4])
    ensures Path(run', steps') && Ends(run', [Candidate0, Again, Again, third, Two4]) && run'[0] == run[0]
    ensures run[|run| - 1].net <= run'[|run'| - 1].net
    ensures VoteAnswer(0, 1, 2, VoteReply(2, true)) in run'[|run'| - 1].net
    ensures VoteAnswer(0, 2, 2, VoteReply(2, true)) in run'[|run'| - 1].net
  {
    hide Path, StartElection, HandleRequestVote;
    SecondCandidate();
    SecondVotes();
    run', steps' := Extend(run, steps, Timeout(0));
    run', steps' := Extend(run', steps', Timeout(0));
    assert VoteRequest(1, Ask0) in run'[|run'| - 1].net && VoteRequest(2, Ask0) in run'[|run'| - 1].net;
    run', steps' := Extend(run', steps', Receive(VoteRequest(1, Ask0)));
    run', steps' := Extend(run', steps', Receive(VoteRequest(2, Ask0)));
  }

  /** Server 0 leads term 2. */
  lemma LeadSecond(run: seq<State>, steps: seq<Step>, third: Server)
    returns (run': seq<State>, steps': seq<Step>)
    requires Path(run, steps) && Ends(run, [Fresh, Fresh, Voted, third, Two4])
    ensures Path(run', steps') && Ends(run', [Leader0, Again, Again, third, Two4]) && run'[0] == run[0]
    ensures run[|run| - 1].net <= run'[|run'| - 1].net
  {
    hide Path, VoteReturned;
    SecondLeader();
    run', steps' := StandSecond(run, steps, third);
    run', steps' := Extend(run', steps', Receive(VoteAnswer(0, 1, 2, VoteReply(2, true))));
    run', steps' := Extend(run', steps', Receive(VoteAnswer(0, 2, 2, VoteReply(2, true))));
  }

  /** Its entry reaches servers 1 and 2. */
  lemma ReplicateSecond(run: seq<State>, steps: seq<Step>, third: Server)
    returns (run': seq<State>, steps': seq<Step>)
    requires Path(run, steps) && Ends(run, [Leader0, Again, Again, third, Two4])
    ensures Path(run', steps') && Ends(run', [One0, Holds, Holds, third, Two4]) && run'[0] == run[0]
    ensures run[|run| - 1].net <= run'[|run'| - 1].net
    ensures AppendAnswer(0, 1, Sent, AppendReply(2, true, 0)) in run'[|run'| - 1].net
    ensures AppendAnswer(0, 2, Sent, AppendReply(2, true, 0)) in run'[|run'| - 1].net
  {
    hide Path, Start, Send, HandleAppend, CanSend, CanHandleAppend;
    Proposals();
    SecondReplication();
    run', steps' := Extend(run, steps, ClientCommand(0, Kept.command));
    run', steps' := Extend(run', steps', SendRound(0, 1));
    run', steps' := Extend(run', steps', SendRound(0, 2));
    run', steps' := Extend(run', steps', Receive(AppendRequest(1, Sent)));
    run', steps' := Extend(run', steps', Receive(AppendRequest(2, Sent)));
  }

  /** It commits the entry. */
  lemma CommitIt(run: seq<State>, steps: seq<Step>, third: Server)
    returns (run': seq<State>, steps': seq<Step>)
    requires Path(run, steps) && Ends(run, [One0, Holds, Holds, third, Two4])
    requires AppendAnswer(0, 1, Sent, AppendReply(2, true, 0)) in run[|run| - 1].net
    requires AppendAnswer(0, 2, Sent, AppendReply(2, true, 0)) in run[|run| - 1].net
    ensures Path(run', steps') && Ends(run', [Committed0, Holds, Holds, third, Two4]) && run'[0] == run[0]
    ensures run[|run| - 1].net <= run'[|run'| - 1].net
  {
    hide Path, AppendReturned, CanReturnAppend;
    HalfWay();
    Majority();
    run', steps' := Extend(run, steps, Receive(AppendAnswer(0, 1, Sent, AppendReply(2, true, 0))));
    run', steps' := Extend(run', steps', Receive(AppendAnswer(0, 2, Sent, AppendReply(2, true, 0))));
  }

  /** Its service applies the entry. */
  lemma ApplyIt(run: seq<State>, steps: seq<Step>, third: Server)
    returns (run': seq<State>, steps': seq<Step>)
    requires Path(run, steps) && Ends(run, [Committed0, Holds, Holds, third, Two4])
    ensures Path(run', steps') && Ends(run', [Applied0, Holds, Holds, third, Two4]) && run'[0] == run[0]
    ensures run[|run| - 1].net <= run'[|run'| - 1].net
  {
    hide Path, Collect, SendOne, RaftServer.Receive, StartService, CanCollect;
    Application();
    run', steps' := Extend(run, steps, ApplierCollect(0));
    run', steps' := Extend(run', steps', ApplierSend(0));
    run', steps' := Extend(run', steps', ServiceStart(0));
    run', steps' := Extend(run', steps', ServiceReceive(0));
  }

  /** It compacts its log and sends the snapshot to server 4. */
  lemma SendSnapshot(run: seq<State>, steps: seq<Step>, third: Server)
    returns (run': seq<State>, steps': seq<Step>)
    requires Path(run, steps) && Ends(run, [Applied0, Holds, Holds, third, Two4])
    ensures Path(run', steps') && Ends(run', [Compacted0, Holds, Holds, third, Two4]) && run'[0] == run[0]
    ensures run[|run| - 1].net <= run'[|run'| - 1].net
    ensures InstallRequest(4, Snap) in run'[|run'| - 1].net
  {
    hide Path, Send, Compact, CanSend;
    Compaction();
    run', steps' := Extend(run, steps, ServiceSnapshot(0));
    run', steps' := Extend(run', steps', SendRound(0, 4));
  }

  /** Server 4 installs it. */
  lemma InstallIt(run: seq<State>, steps: seq<Step>, third: Server)
    returns (run': seq<State>, steps': seq<Step>)
    requires Path(run, steps) && Ends(run, [Compacted0, Holds, Holds, third, Two4])
    requires InstallRequest(4, Snap) in run[|run| - 1].net
    ensures Path(run', steps') && run'[0] == run[0]
    ensures Ends(run', [Compacted0, Holds, Holds, third, HandleInstall(Two4, Snap).0])
    ensures run[|run| - 1].net <= run'[|run'| - 1].net
  {
    hide Path, HandleInstall;
    run', steps' := Extend(run, steps, Receive(InstallRequest(4, Snap)));
  }

  /** From the moment server 4 has sent its entries to the moment it has installed the snapshot. */
  lemma CommitAndInstall(run: seq<State>, steps: seq<Step>, third: Server)
    returns (run': seq<State>, steps': seq<Step>)
    requires Path(run, steps) && Ends(run, [Fresh, Fresh, Voted, third, Two4])
    ensures Path(run', steps') && run'[0] == run[0] && run[|run| - 1].net <= run'[|run'| - 1].net
    ensures Ends(run', [Compacted0, Holds, Holds, third, HandleInstall(Two4, Snap).0])
  {
    hide Path, HandleInstall;
    run', steps' := LeadSecond(run, steps, third);
    run', steps' := ReplicateSecond(run', steps', third);
    run', steps' := CommitIt(run', steps', third);
    run', steps' := ApplyIt(run', steps', third);
    run', steps' := SendSnapshot(run', steps', third);
    run', steps' := InstallIt(run', steps', third);
  }

  lemma FirstSent() returns (run: seq<State>, steps: seq<Step>)
    ensures Path(run, steps) && Init(5, run[0]) && Ends(run, [Fresh, Fresh, Voted, Voted, Two4])
    ensures AppendRequest(3, Old) in run[|run| - 1].net
  {
    run, steps := [State([Fresh, Fresh, Fresh, Fresh, Fresh], {})], [];
    hide Path, Init;
    NoStepYet(run[0]);
    StartsFresh(run[0]);
    run, steps := LeadFirst(run, steps);
    run, steps := SendFirst(run, steps);
  }

  /** Log Matching does fail: a run of the cluster ends with two servers whose logs do not match. */
  lemma LogMatchingFails() returns (run: seq<State>, steps: seq<Step>)
    ensures IsRun(5, run, steps) && !LogsMatch(run[|run| - 1])
  {
    hide Path, IsRun, Init, LogsMatch, HandleInstall;
    run, steps := FirstSent();
    run, steps := ReceiveFirst(run, steps, [Fresh, Fresh, Voted, Voted, Two4]);
    run, steps := CommitAndInstall(run, steps, Holds3);
    PathIsRun(run, steps);
    LogsDiffer(run[|run| - 1]);
  }

  /**
   It can fail at an append, too: if the request to server 3 is delayed until server 4 has installed the snapshot, the
   logs of all servers still match after the installation, and no longer do when server 3 has handled the request.
   */
  lemma AppendExposesGraft() returns (run: seq<State>, steps: seq<Step>)
    ensures IsRun(5, run, steps) && |steps| > 0 && steps[|steps| - 1] == Receive(AppendRequest(3, Old))
    ensures LogsMatch(run[|run| - 2]) && !LogsMatch(run[|run| - 1])
  {
    hide Path, IsRun, Init, LogsMatch, HandleInstall;
    run, steps := FirstSent();
    run, steps := CommitAndInstall(run, steps, Voted);
    LogsStillMatch(run[|run| - 1]);
    run, steps := ReceiveFirst(run, steps, [Compacted0, Holds, Holds, Voted, HandleInstall(Two4, Snap).0]);
    PathIsRun(run, steps);
    PathSizes(run, steps);
    LogsDiffer(run[|run| - 1]);
  }

  lemma PathSizes(run: seq<State>, steps: seq<Step>)
    requires Path(run, steps)
    ensures |run| == |steps| + 1
  {
  }

  /** All logs are prefixes of one. */
  lemma LogsStillMatch(c: State)
    requires c.servers == [Compacted0, Holds, Holds, Voted, HandleInstall(Two4, Snap).0]
    ensures LogsMatch(c)
  {
    hide Held, HandleInstall;
    Mismatch();
    OtherLogs();
    var w := [Dummy, Kept, B];
    forall v: nat | v < |c.servers|
      ensures Held(c.servers[v]) <= w
    {
      assert c.servers[v] in c.servers;
    }
  }

  lemma OtherLogs()
    ensures Held(Compacted0) == Held(Holds) == [Dummy, Kept] && Held(Voted) == [Dummy]
  {
    assert Holds.logs[1..] == [Kept] && Compacted0.logs[1..] == [] && Voted.logs[1..] == [];
    assert [Dummy] + [Kept] == [Dummy, Kept] && [Dummy, Kept] + [] == [Dummy, Kept] && [Dummy] + [] == [Dummy];
  }

  lemma StartsFresh(c: State)
    requires c == State([Fresh, Fresh, Fresh, Fresh, Fresh], {})
    ensures Init(5, c)
  {
    hide Restart;
    FirstCandidate();
  }

  lemma LogsDiffer(c: State)
    requires c.servers == [Compacted0, Holds, Holds, Holds3, HandleInstall(Two4, Snap).0]
    ensures !LogsMatch(c)
  {
    hide SamePrefix, Held, HandleInstall;
    Mismatch();
    assert c.servers[3] == Holds3 && c.servers[4] == HandleInstall(Two4, Snap).0;
  }

  lemma NoStepYet(c: State)
    ensures Path([c], [])
  {
  }

  lemma PathIsRun(run: seq<State>, steps: seq<Step>)
    requires Path(run, steps) && Init(5, run[0])
    ensures IsRun(5, run, steps)
  {
  }
}
