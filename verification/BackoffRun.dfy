/**
 A run after which a leader never repairs a follower.  It goes on from the run of `GraftRun` in which server 0 has
 committed an entry with servers 1 and 2: server 3 gets the entry with the next round, applies it and compacts its log,
 and its answer is lost.  The leader then asks about an index that server 3 no longer has.
 */
module BackoffRun {
  import opened Wrappers
  import opened RaftTypes
  import opened RaftLog
  import opened RaftServer
  import opened Cluster
  import opened RaftBackoff
  import opened GraftRun

  const Late := AppendArgs(2, 0, 0, 0, [Kept], 1)

  const Caught3 := Persist(Voted.(currentTerm := 2, votedFor := -1, logs := [Dummy, Kept], commitIndex := 1))
  const Busy3 := Caught3.(applier := Sending([CommandMsg(Kept)], 1))
  const Sent3 := Caught3.(applier := Sending([], 1), service := Service(false, [CommandMsg(Kept)], 0, [Dummy]))
  const Serving3 := Sent3.(service := Service(true, [CommandMsg(Kept)], 0, [Dummy]))
  const Applied3 := Sent3.(service := Service(true, [], 1, [Dummy, Kept]))
  const Compacted3 := Applied3.(logs := [Entry(1, 2, NoCommand)],
                                disk := Disk(Some(Saved(2, -1, [Entry(1, 2, NoCommand)])), [Dummy, Kept]))

  lemma LateRound()
    ensures CanSend(Committed0, 3) && Send(Committed0, 0, 3) == Append(Late)
    ensures CanHandleAppend(Voted, Late) && HandleAppend(Voted, Late).0 == Caught3
  {
    assert Committed0.logs[1..] == [Kept];
    assert !Present([Dummy], Kept);
    assert Merge([Dummy], [Kept]) == [Dummy, Kept];
  }

  lemma Application3()
    ensures CanCollect(Caught3) && Collect(Caught3) == Busy3 && SendOne(Busy3) == Sent3
    ensures StartService(Sent3) == Serving3 && RaftServer.Receive(Serving3) == Applied3
  {
    assert Caught3.logs[1..2] == [Kept];
    assert Commands([Kept]) == [CommandMsg(Kept)];
    assert [] + [CommandMsg(Kept)] == [CommandMsg(Kept)] && [CommandMsg(Kept)][1..] == [];
    assert [Dummy] + [Kept] == [Dummy, Kept];
  }

  lemma Compaction3()
    ensures LogShape(Applied3.logs) && Compact(Applied3, 1, [Dummy, Kept]) == Compacted3
  {
    var kept := Applied3.logs[1..];
    assert kept == [Kept] && kept[0].(command := NoCommand) == Entry(1, 2, NoCommand);
    assert kept[0 := Entry(1, 2, NoCommand)] == [Entry(1, 2, NoCommand)];
  }

  /** Server 3 catches up. */
  lemma CatchUp(run: seq<State>, steps: seq<Step>) returns (run': seq<State>, steps': seq<Step>)
    requires Path(run, steps) && Ends(run, [Committed0, Holds, Holds, Voted, Two4])
    ensures Path(run', steps') && Ends(run', [Committed0, Holds, Holds, Caught3, Two4]) && run'[0] == run[0]
  {
    hide Path, Send, CanSend, HandleAppend, CanHandleAppend;
    LateRound();
    run', steps' := Extend(run, steps, SendRound(0, 3));
    run', steps' := Extend(run', steps', Receive(AppendRequest(3, Late)));
  }

  /** It applies the entry and compacts its log. */
  lemma CompactIt(run: seq<State>, steps: seq<Step>) returns (run': seq<State>, steps': seq<Step>)
    requires Path(run, steps) && Ends(run, [Committed0, Holds, Holds, Caught3, Two4])
    ensures Path(run', steps') && Ends(run', [Committed0, Holds, Holds, Compacted3, Two4]) && run'[0] == run[0]
  {
    hide Path, Collect, SendOne, RaftServer.Receive, StartService, CanCollect, Compact;
    Application3();
    Compaction3();
    run', steps' := Extend(run, steps, ApplierCollect(3));
    run', steps' := Extend(run', steps', ApplierSend(3));
    run', steps' := Extend(run', steps', ServiceStart(3));
    run', steps' := Extend(run', steps', ServiceReceive(3));
    run', steps' := Extend(run', steps', ServiceSnapshot(3));
  }

  /** A run that ends with a leader and a follower that the leader, talking to it alone, never brings up to date. */
  lemma FollowerLeftBehind() returns (run: seq<State>, steps: seq<Step>)
    ensures IsRun(5, run, steps) && |run| > 0 && |run[|run| - 1].servers| == 5
    ensures var ld, fo := run[|run| - 1].servers[0], run[|run| - 1].servers[3];
      && ld.role == Leader && fo.currentTerm == ld.currentTerm && Pair(ld, fo, 3)
      && forall k: nat :: !DoneAfter(ld, fo, 0, 3, k)
  {
    hide Path, IsRun, Init, Pair, DoneAfter;
    run, steps := FirstSent();
    run, steps := LeadSecond(run, steps, Voted);
    run, steps := ReplicateSecond(run, steps, Voted);
    run, steps := CommitIt(run, steps, Voted);
    run, steps := CatchUp(run, steps);
    run, steps := CompactIt(run, steps);
    PathIsRun(run, steps);
    var c := run[|run| - 1];
    LastServers(c);
    RepairedExactly(5, run, steps, |run| - 1, 0, 3);
    OutOfReach(c.servers[0], c.servers[3]);
  }

  lemma LastServers(c: State)
    requires c.servers == [Committed0, Holds, Holds, Compacted3, Two4]
    ensures |c.servers| == 5 && c.servers[0] == Committed0 && c.servers[3] == Compacted3
    ensures Committed0.role == Leader && Compacted3.currentTerm == Committed0.currentTerm
  {
  }

  lemma OutOfReach(ld: Server, fo: Server)
    requires ld == Committed0 && fo == Compacted3 && Talk(ld, fo, 3)
    ensures !Reached(ld, fo, 3)
  {
  }
}
