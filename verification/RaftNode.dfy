/**
 A Raft server as an object: each method is one region the source runs under the server's
 lock, updating the fields in place, and is proved to do what `RaftServer` says.
 */
module RaftNode {
  import opened Wrappers
  import opened RaftTypes
  import opened RaftLog
  import opened RaftServer
  import opened FiniteSets

  class Raft {
    const me: nat
    const peers: nat
    const raftLog: CompactedLog
    const nextIndex: array<nat>
    const matchIndex: array<nat>
    var role: Role
    var currentTerm: nat
    var votedFor: int
    var commitIndex: nat
    var lastApplied: nat
    var hasSnapshot: bool
    var grantedVotes: nat
    var awaiting: set<nat>
    var applier: Applier
    var service: Service
    var disk: Disk

    ghost predicate Valid()
      reads this, raftLog
    {
      && nextIndex.Length == matchIndex.Length == peers
      && nextIndex != matchIndex
      && me < peers
      && LogShape(raftLog.logs)
      && DummyIndex(raftLog.logs) <= commitIndex
    }

    /** The state the specification functions speak about. */
    function Value(): Server
      reads this, raftLog, nextIndex, matchIndex
    {
      Server(role, currentTerm, votedFor, raftLog.logs, commitIndex, lastApplied,
             nextIndex[..], matchIndex[..], hasSnapshot, grantedVotes, awaiting, applier, service, disk)
    }

    constructor (n: nat, me: nat, persister: Disk)
      requires me < n
      requires persister.state.Some? ==> LogShape(persister.state.value.logs)
      ensures Valid() && this.me == me && peers == n
      ensures Value() == Restart(persister, n)
    {
      this.me := me;
      peers := n;
      nextIndex := new nat[n](_ => 0);
      matchIndex := new nat[n](_ => 0);
      role, currentTerm, votedFor := Follower, 0, -1;
      grantedVotes, awaiting, disk := 0, {}, persister;
      applier, service := Waiting(0), Service(false, [], 0, persister.snapshot);
      hasSnapshot := false;
      commitIndex, lastApplied := 0, 0;
      var log := new CompactedLog();
      raftLog := log;
      new;
      if persister.state.Some? {
        currentTerm := persister.state.value.term;
        votedFor := persister.state.value.votedFor;
        raftLog.SetLogs(persister.state.value.logs);
      }
      commitIndex := DummyIndex(raftLog.logs);
      lastApplied := commitIndex;
      applier, service := Waiting(commitIndex), service.(received := commitIndex);
      assert nextIndex[..] == Fill(n, 0);
      assert matchIndex[..] == Fill(n, 0);
    }

    method WriteDisk()
      modifies this`disk
      ensures Value() == Persist(old(Value()))
    {
      disk := disk.(state := Some(Saved(currentTerm, votedFor, raftLog.logs)));
    }

    method BeginElection() returns (args: VoteArgs)
      requires Valid()
      modifies this
      ensures Valid() && (Value(), args) == StartElection(old(Value()), me, peers)
    {
      hide Below;
      role := Candidate;
      currentTerm := currentTerm + 1;
      var lastLog := raftLog.logs[|raftLog.logs| - 1];
      args := VoteArgs(currentTerm, me, lastLog.index, lastLog.term);
      votedFor := me;
      WriteDisk();
      grantedVotes := 1;
      awaiting := Below(peers) - {me};
    }

    method RequestVote(args: VoteArgs) returns (reply: VoteReply)
      requires Valid()
      modifies this
      ensures Valid() && (Value(), reply) == HandleRequestVote(old(Value()), args)
    {
      if args.term < currentTerm {
        reply := VoteReply(currentTerm, false);
        WriteDisk();
        return;
      }
      if args.term > currentTerm {
        role := Follower;
        currentTerm, votedFor := args.term, -1;
      }
      reply := VoteReply(currentTerm, false);
      if (votedFor == -1 || votedFor == args.candidateId)
         && IsLogUpToDate(raftLog.logs, args.lastLogTerm, args.lastLogIndex) {
        votedFor := args.candidateId;
        reply := reply.(granted := true);
      }
      WriteDisk();
    }

    method ResetPeers()
      requires Valid()
      modifies nextIndex, matchIndex
      ensures matchIndex[..] == Fill(peers, 0) && nextIndex[..] == Fill(peers, LastIndex(raftLog.logs) + 1)
    {
      for i := 0 to peers
        invariant forall k :: 0 <= k < i ==> matchIndex[k] == 0 && nextIndex[k] == LastIndex(raftLog.logs) + 1
      {
        matchIndex[i] := 0;
        nextIndex[i] := LastIndex(raftLog.logs) + 1;
      }
    }

    method CountVote(peer: nat, term: nat, reply: VoteReply)
      requires Valid()
      modifies this, nextIndex, matchIndex
      ensures Valid() && Value() == VoteReturned(old(Value()), peers, peer, term, reply)
    {
      if currentTerm == term && role == Candidate {
        awaiting := awaiting - {peer};
        if reply.granted {
          grantedVotes := grantedVotes + 1;
          if grantedVotes > peers / 2 {
            role := Leader;
            ResetPeers();
          }
        } else if reply.term > currentTerm {
          role := Follower;
          currentTerm, votedFor := reply.term, -1;
          WriteDisk();
        }
      }
    }

    /** A command from the service. */
    method Propose(command: Command) returns (index: int, term: int, isLeader: bool)
      requires Valid()
      modifies this, raftLog
      ensures Valid() && Value() == Start(old(Value()), command)
      ensures isLeader == (role == Leader)
      ensures isLeader ==>
        term == currentTerm && index == LastIndex(raftLog.logs) &&
          raftLog.logs == old(raftLog.logs) + [Entry(index, term, command)]
    {
      if role != Leader {
        return -1, -1, false;
      }
      var entry := Entry(LastIndex(raftLog.logs) + 1, currentTerm, command);
      raftLog.AppendEntries([entry]);
      WriteDisk();
      return entry.index, entry.term, true;
    }

    /** The locked part of one replication round. */
    method AppendOneRound(peer: nat) returns (out: Outgoing)
      requires Valid() && CanSend(Value(), peer)
      ensures out == Send(Value(), me, peer)
    {
      if role != Leader {
        return Nothing;
      }
      var prev := nextIndex[peer] as int - 1;
      var base := DummyIndex(raftLog.logs);
      if prev < base {
        return Install(InstallArgs(currentTerm, me, base, raftLog.logs[0].term, disk.snapshot));
      }
      return Append(AppendArgs(currentTerm, me, prev, GetEntry(raftLog.logs, prev).term,
                               raftLog.logs[prev + 1 - base..], commitIndex));
    }

    method FindConflict(prev: nat) returns (index: nat)
      requires Valid() && InLog(raftLog.logs, prev)
      ensures index == ConflictFrom(raftLog.logs, prev, GetEntry(raftLog.logs, prev).term)
    {
      var l := raftLog.logs;
      var abandoned := GetEntry(l, prev).term;
      index := prev;
      while index > DummyIndex(l) + 1 && GetEntry(l, index).term == abandoned
        invariant InLog(l, index)
        invariant ConflictFrom(l, index, abandoned) == ConflictFrom(l, prev, abandoned)
      {
        index := index - 1;
      }
    }

    /** The loop that survives stale and reordered requests. */
    method MergeEntries(entries: Log)
      requires Valid() && Continues(raftLog.logs, entries)
      modifies raftLog
      ensures raftLog.logs == Merge(old(raftLog.logs), entries)
    {
      ghost var l := raftLog.logs;
      var index := 0;
      while index < |entries|
        invariant 0 <= index <= |entries|
        invariant raftLog.logs == l
        invariant FirstMissing(l, entries, index) == FirstMissing(l, entries, 0)
        invariant forall k :: 0 <= k < index ==> Present(l, entries[k])
      {
        var entry := entries[index];
        MissingInReach(l, entries, index);
        if entry.index - DummyIndex(raftLog.logs) >= |raftLog.logs|
           || GetEntry(raftLog.logs, entry.index).term != entry.term {
          raftLog.Trunc(entry.index);
          raftLog.AppendEntries(entries[index..]);
          return;
        }
        index := index + 1;
      }
    }

    method AppendEntries(args: AppendArgs) returns (reply: AppendReply)
      requires Valid() && CanHandleAppend(Value(), args)
      modifies this, raftLog
      ensures Valid() && (Value(), reply) == HandleAppend(old(Value()), args)
    {
      if args.term < currentTerm {
        reply := AppendReply(currentTerm, false, 0);
        WriteDisk();
        return;
      }
      if args.term > currentTerm {
        currentTerm, votedFor := args.term, -1;
      }
      role := Follower;
      reply := MatchEntries(args);
      WriteDisk();
    }

    /** The consistency check, and the merge when it succeeds. */
    method MatchEntries(args: AppendArgs) returns (reply: AppendReply)
      requires Valid() && CanHandleAppend(Value(), args)
      modifies this`commitIndex, raftLog
      ensures Valid() && (Value(), reply) == MatchAppend(old(Value()), args)
    {
      if args.prevLogIndex < DummyIndex(raftLog.logs) {
        return AppendReply(0, false, DummyIndex(raftLog.logs) + 1);
      }
      if !MatchLog(raftLog.logs, args.prevLogTerm, args.prevLogIndex) {
        var conflict;
        if args.prevLogIndex > LastIndex(raftLog.logs) {
          conflict := LastIndex(raftLog.logs) + 1;
        } else {
          conflict := FindConflict(args.prevLogIndex);
        }
        return AppendReply(currentTerm, false, conflict);
      }
      MergeEntries(args.entries);
      if args.leaderCommit > commitIndex {
        commitIndex := Min(args.leaderCommit, LastIndex(raftLog.logs));
      }
      return AppendReply(currentTerm, true, 0);
    }

    method CountHolding(i: nat) returns (num: nat)
      requires Valid()
      ensures num == Holding(matchIndex[..], me, i, peers)
    {
      num := 0;
      for j := 0 to peers
        invariant num == Holding(matchIndex[..], me, i, j)
      {
        if j != me && matchIndex[j] >= i {
          num := num + 1;
        }
      }
    }

    method AdvanceCommitIndex()
      requires Valid()
      modifies this`commitIndex
      ensures Valid() && commitIndex == CommitScan(old(Value()), me, LastIndex(raftLog.logs))
      ensures Value() == old(Value()).(commitIndex := commitIndex)
    {
      ghost var s := Value();
      var i: nat := LastIndex(raftLog.logs);
      while i > commitIndex
        invariant commitIndex == old(commitIndex) && Value() == s && Valid()
        invariant i <= LastIndex(raftLog.logs)
        invariant CommitScan(s, me, i) == CommitScan(s, me, LastIndex(raftLog.logs))
      {
        var num := CountHolding(i);
        if num + 1 > peers / 2 && GetEntry(raftLog.logs, i).term == currentTerm {
          commitIndex := i;
          return;
        }
        i := i - 1;
      }
    }

    method ProcessAppendReply(peer: nat, args: AppendArgs, reply: AppendReply)
      requires Valid() && peer < peers
      modifies this, nextIndex, matchIndex
      ensures Valid() && Value() == AppendReturned(old(Value()), me, peer, args, reply)
    {
      if reply.term > currentTerm {
        currentTerm := reply.term;
        votedFor := -1;
        role := Follower;
        WriteDisk();
      } else if reply.term == currentTerm && role == Leader && args.term == currentTerm
                && args.prevLogIndex + 1 == nextIndex[peer] {
        if reply.success {
          matchIndex[peer] := |args.entries| + args.prevLogIndex;
          nextIndex[peer] := matchIndex[peer] + 1;
          AdvanceCommitIndex();
        } else {
          nextIndex[peer] := reply.conflictIndex;
        }
      }
    }

    /** The service has applied everything up to `index` and hands over its state. */
    method Snapshot(index: nat, snapshot: Log)
      requires Valid() && index <= LastIndex(raftLog.logs)
      requires index <= commitIndex
      modifies this, raftLog
      ensures Valid() && Value() == Compact(old(Value()), index, snapshot)
    {
      if index <= DummyIndex(raftLog.logs) {
        return;
      }
      ghost var kept := raftLog.logs[index - DummyIndex(raftLog.logs)..];
      raftLog.SetLogs(raftLog.logs[index - DummyIndex(raftLog.logs)..]);
      raftLog.ClearDummyEntryCommand();
      assert raftLog.logs == kept[0 := kept[0].(command := NoCommand)];
      WriteDisk();
      disk := disk.(snapshot := snapshot);
    }

    method ReplaceLog(index: nat, term: nat)
      requires LogShape(raftLog.logs) && DummyIndex(raftLog.logs) < index
      modifies raftLog
      ensures raftLog.logs == InstalledLog(old(raftLog.logs), index, term)
    {
      if index > LastIndex(raftLog.logs) {
        raftLog.SetLogs([Dummy]);
      } else {
        raftLog.SetLogs(raftLog.logs[index - DummyIndex(raftLog.logs)..]);
      }
      raftLog.ClearDummyEntryCommand();
      raftLog.SetDummy(index, term);
    }

    method InstallSnapshot(args: InstallArgs) returns (replyTerm: nat)
      requires Valid()
      modifies this, raftLog
      ensures Valid() && (Value(), replyTerm) == HandleInstall(old(Value()), args)
    {
      if args.term < currentTerm {
        return currentTerm;
      }
      if args.term > currentTerm {
        currentTerm, votedFor := args.term, -1;
        WriteDisk();
      }
      role := Follower;
      if args.lastIncludedIndex <= commitIndex {
        return currentTerm;
      }
      TakeSnapshot(args);
      return currentTerm;
    }

    method TakeSnapshot(args: InstallArgs)
      requires Valid() && commitIndex < args.lastIncludedIndex
      modifies this, raftLog
      ensures Valid() && Value() == Installed(old(Value()), args)
    {
      ReplaceLog(args.lastIncludedIndex, args.lastIncludedTerm);
      commitIndex := args.lastIncludedIndex;
      lastApplied := args.lastIncludedIndex;
      WriteDisk();
      disk := disk.(snapshot := args.snapshot);
      hasSnapshot := true;
    }

    method ProcessInstallReply(peer: nat, args: InstallArgs, replyTerm: nat)
      requires Valid() && peer < peers
      modifies this, nextIndex, matchIndex
      ensures Valid() && Value() == InstallReturned(old(Value()), peer, args, replyTerm)
    {
      if replyTerm > currentTerm {
        currentTerm := replyTerm;
        votedFor := -1;
        role := Follower;
        WriteDisk();
      } else if role == Leader && args.term == currentTerm {
        matchIndex[peer] := args.lastIncludedIndex;
        nextIndex[peer] := args.lastIncludedIndex + 1;
      }
    }

    /** The applier's first locked region. */
    method CollectBatch()
      requires Valid() && CanCollect(Value())
      modifies this
      ensures Valid() && Value() == Collect(old(Value()))
    {
      var ready: seq<ApplyMsg> := [];
      if hasSnapshot {
        ready := [SnapshotMsg(disk.snapshot, DummyIndex(raftLog.logs))];
        hasSnapshot := false;
      }
      if lastApplied < commitIndex {
        var base := DummyIndex(raftLog.logs);
        var slice := raftLog.logs[lastApplied + 1 - base..commitIndex + 1 - base];
        ghost var before := ready;
        for k := 0 to |slice|
          invariant ready == before + Commands(slice[..k])
        {
          ready := ready + [CommandMsg(slice[k])];
          assert slice[..k + 1] == slice[..k] + [slice[k]];
        }
        assert slice[..|slice|] == slice;
      }
      assert [] + ready == ready == ready + [];
      applier := Sending(ready, commitIndex);
    }

    /** The applier's loop over its batch, which runs without the lock: one send to the channel. */
    method SendMessage()
      requires Valid() && applier.Sending? && |applier.queue| > 0
      modifies this
      ensures Valid() && Value() == SendOne(old(Value()))
    {
      service := service.(channel := service.channel + [applier.queue[0]]);
      applier := applier.(queue := applier.queue[1..]);
    }

    /** The applier's second locked region. */
    method FinishBatch()
      requires Valid() && applier.Sending? && applier.queue == []
      modifies this
      ensures Valid() && Value() == Finish(old(Value()))
    {
      lastApplied := Max(lastApplied, applier.upTo);
      applier := Waiting(applier.upTo);
    }
  }
}
