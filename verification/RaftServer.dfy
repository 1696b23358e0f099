/**
 One server's locked regions as functions from its state to its next state.
 `me` is the server's own number and `n` the size of the cluster.
 */
module RaftServer {
  import opened Wrappers
  import opened RaftTypes
  import opened RaftLog
  import opened FiniteSets

  // ---------- Persistence

  function Persist(s: Server): Server {
    s.(disk := s.disk.(state := Some(Saved(s.currentTerm, s.votedFor, s.logs))))
  }

  function Fill(n: nat, x: nat): (r: seq<nat>)
    ensures |r| == n && forall k :: 0 <= k < n ==> r[k] == x
  {
    seq(n, _ => x)
  }

  /** A server started from what its persister holds. */
  function Restart(disk: Disk, n: nat): Server
    requires disk.state.Some? ==> |disk.state.value.logs| > 0
  {
    var saved := if disk.state.Some? then disk.state.value else Saved(0, -1, [Dummy]);
    Server(Follower, saved.term, saved.votedFor, saved.logs,
           DummyIndex(saved.logs), DummyIndex(saved.logs),
           Fill(n, 0), Fill(n, 0), false, 0, {}, Waiting(DummyIndex(saved.logs)),
           Service(false, [], DummyIndex(saved.logs), disk.snapshot), disk)
  }

  // ---------- Elections

  function StartElection(s: Server, me: nat, n: nat): (Server, VoteArgs)
    requires |s.logs| > 0
  {
    var s' := s.(role := Candidate, currentTerm := s.currentTerm + 1, votedFor := me,
                 grantedVotes := 1, awaiting := Below(n) - {me});
    (Persist(s'), VoteArgs(s'.currentTerm, me, LastIndex(s.logs), s.logs[|s.logs| - 1].term))
  }

  function HandleRequestVote(s: Server, args: VoteArgs): (Server, VoteReply)
    requires |s.logs| > 0
  {
    if args.term < s.currentTerm then
      (Persist(s), VoteReply(s.currentTerm, false))
    else
      var s1 := if args.term > s.currentTerm
                then s.(role := Follower, currentTerm := args.term, votedFor := -1) else s;
      if (s1.votedFor == -1 || s1.votedFor == args.candidateId)
         && IsLogUpToDate(s1.logs, args.lastLogTerm, args.lastLogIndex) then
        (Persist(s1.(votedFor := args.candidateId)), VoteReply(s1.currentTerm, true))
      else
        (Persist(s1), VoteReply(s1.currentTerm, false))
  }

  function BecomeLeader(s: Server, n: nat): Server
    requires |s.logs| > 0
  {
    s.(role := Leader, matchIndex := Fill(n, 0), nextIndex := Fill(n, LastIndex(s.logs) + 1))
  }

  function StepDown(s: Server, term: nat): Server {
    Persist(s.(role := Follower, currentTerm := term, votedFor := -1))
  }

  /** The vote-counting closure, run when the call to `peer` of term `term`'s election returns. */
  function VoteReturned(s: Server, n: nat, peer: nat, term: nat, reply: VoteReply): Server
    requires |s.logs| > 0
  {
    if s.currentTerm == term && s.role == Candidate then
      var s1 := s.(awaiting := s.awaiting - {peer});
      if reply.granted then
        var s2 := s1.(grantedVotes := s1.grantedVotes + 1);
        if s2.grantedVotes > n / 2 then BecomeLeader(s2, n) else s2
      else if reply.term > s1.currentTerm then StepDown(s1, reply.term)
      else s1
    else s
  }

  // ---------- Replication

  /** A command from the service; only a leader takes it. */
  function Start(s: Server, command: Command): Server
    requires |s.logs| > 0
  {
    if s.role != Leader then s
    else Persist(s.(logs := s.logs + [Entry(LastIndex(s.logs) + 1, s.currentTerm, command)]))
  }

  datatype Outgoing = Nothing | Append(append: AppendArgs) | Install(install: InstallArgs)

  /** A round to `peer` does not run into the explicit panic or outside the log. */
  predicate CanSend(s: Server, peer: nat) {
    && LogShape(s.logs)
    && peer < |s.nextIndex|
    && (s.role == Leader ==> s.nextIndex[peer] <= LastIndex(s.logs) + 1)
  }

  function Send(s: Server, me: nat, peer: nat): Outgoing
    requires CanSend(s, peer)
  {
    if s.role != Leader then Nothing
    else
      var prev := s.nextIndex[peer] as int - 1;
      if prev < DummyIndex(s.logs) then
        Install(InstallArgs(s.currentTerm, me, DummyIndex(s.logs), s.logs[0].term, s.disk.snapshot))
      else
        Append(AppendArgs(s.currentTerm, me, prev, GetEntry(s.logs, prev).term,
                          s.logs[prev + 1 - DummyIndex(s.logs)..], s.commitIndex))
  }

  /** The request can be handled without a panic. */
  predicate CanHandleAppend(s: Server, args: AppendArgs) {
    LogShape(s.logs) && Numbered(args.entries, args.prevLogIndex + 1)
  }

  /** The consistency check of an accepted request, and the merge when it succeeds. */
  function MatchAppend(s: Server, args: AppendArgs): (Server, AppendReply)
    requires CanHandleAppend(s, args)
  {
    if args.prevLogIndex < DummyIndex(s.logs) then
      (s, AppendReply(0, false, DummyIndex(s.logs) + 1))
    else if !MatchLog(s.logs, args.prevLogTerm, args.prevLogIndex) then
      var conflict :=
        if args.prevLogIndex > LastIndex(s.logs) then LastIndex(s.logs) + 1
        else ConflictFrom(s.logs, args.prevLogIndex, GetEntry(s.logs, args.prevLogIndex).term);
      (s, AppendReply(s.currentTerm, false, conflict))
    else
      var s1 := s.(logs := Merge(s.logs, args.entries));
      var s2 := if args.leaderCommit > s1.commitIndex
                then s1.(commitIndex := Min(args.leaderCommit, LastIndex(s1.logs))) else s1;
      (s2, AppendReply(s2.currentTerm, true, 0))
  }

  /** The server follows the leader of `term`. */
  function Follow(s: Server, term: nat): Server {
    (if term > s.currentTerm then s.(currentTerm := term, votedFor := -1) else s).(role := Follower)
  }

  function HandleAppend(s: Server, args: AppendArgs): (Server, AppendReply)
    requires CanHandleAppend(s, args)
  {
    if args.term < s.currentTerm then
      (Persist(s), AppendReply(s.currentTerm, false, 0))
    else
      var (s1, reply) := MatchAppend(Follow(s, args.term), args);
      (Persist(s1), reply)
  }

  /** How many of the first `k` peers, the leader itself aside, are known to hold index `i`. */
  function Holding(matchIndex: seq<nat>, me: nat, i: nat, k: nat): nat
    requires k <= |matchIndex|
  {
    if k == 0 then 0
    else Holding(matchIndex, me, i, k - 1) + (if k - 1 != me && matchIndex[k - 1] >= i then 1 else 0)
  }

  /** The leader may commit index `i` now. */
  predicate CommitRule(s: Server, me: nat, i: nat)
    requires InLog(s.logs, i)
  {
    Holding(s.matchIndex, me, i, |s.matchIndex|) + 1 > |s.matchIndex| / 2 && GetEntry(s.logs, i).term == s.currentTerm
  }

  /** The scan down from `i` to the current commit index for one that may be committed. */
  function CommitScan(s: Server, me: nat, i: nat): (r: nat)
    requires LogShape(s.logs) && DummyIndex(s.logs) <= s.commitIndex && i <= LastIndex(s.logs)
    ensures r == s.commitIndex || (s.commitIndex < r <= i && CommitRule(s, me, r))
    ensures forall k :: r < k <= i && s.commitIndex < k ==> !CommitRule(s, me, k)
    decreases i
  {
    if i <= s.commitIndex then s.commitIndex
    else if CommitRule(s, me, i) then i
    else CommitScan(s, me, i - 1)
  }

  predicate CanReturnAppend(s: Server, peer: nat) {
    && LogShape(s.logs)
    && DummyIndex(s.logs) <= s.commitIndex
    && peer < |s.nextIndex| == |s.matchIndex|
  }

  function AppendReturned(s: Server, me: nat, peer: nat, args: AppendArgs, reply: AppendReply): Server
    requires CanReturnAppend(s, peer)
  {
    if reply.term > s.currentTerm then StepDown(s, reply.term)
    else if reply.term == s.currentTerm && s.role == Leader && args.term == s.currentTerm
            && args.prevLogIndex + 1 == s.nextIndex[peer] then
      if reply.success then
        var m := |args.entries| + args.prevLogIndex;
        var s1 := s.(matchIndex := s.matchIndex[peer := m], nextIndex := s.nextIndex[peer := m + 1]);
        s1.(commitIndex := CommitScan(s1, me, LastIndex(s1.logs)))
      else
        s.(nextIndex := s.nextIndex[peer := reply.conflictIndex])
    else s
  }

  // ---------- Snapshots

  /** The service hands over a snapshot that covers the log up to `index`. */
  function Compact(s: Server, index: nat, snapshot: Log): Server
    requires LogShape(s.logs) && index <= LastIndex(s.logs)
  {
    if index <= DummyIndex(s.logs) then s
    else
      var kept := s.logs[index - DummyIndex(s.logs)..];
      var s1 := s.(logs := kept[0 := kept[0].(command := NoCommand)]);
      s1.(disk := Disk(Some(Saved(s1.currentTerm, s1.votedFor, s1.logs)), snapshot))
  }

  /** The log after installing a snapshot: whatever lies beyond the snapshot is kept. */
  function InstalledLog(l: Log, index: nat, term: nat): (r: Log)
    requires LogShape(l) && DummyIndex(l) < index
    ensures LogShape(r) && DummyIndex(r) == index && r[0].term == term
  {
    [Entry(index, term, NoCommand)] + (if index > LastIndex(l) then [] else l[index - DummyIndex(l)..][1..])
  }

  /** Exactly the entries beyond the snapshot are kept. */
  lemma InstalledKeeps(l: Log, index: nat, term: nat)
    requires LogShape(l) && DummyIndex(l) < index
    ensures LastIndex(InstalledLog(l, index, term)) == Max(index, LastIndex(l))
    ensures forall i :: index < i <= LastIndex(l) ==> GetEntry(InstalledLog(l, index, term), i) == GetEntry(l, i)
  {
    if index <= LastIndex(l) {
      var r, k := InstalledLog(l, index, term), index - DummyIndex(l);
      assert l[k..][1..] == l[k + 1..];
      assert r == [Entry(index, term, NoCommand)] + l[k + 1..];
    }
  }

  function Installed(s: Server, args: InstallArgs): Server
    requires LogShape(s.logs) && DummyIndex(s.logs) < args.lastIncludedIndex
  {
    var s1 := s.(logs := InstalledLog(s.logs, args.lastIncludedIndex, args.lastIncludedTerm),
                 commitIndex := args.lastIncludedIndex, lastApplied := args.lastIncludedIndex, hasSnapshot := true);
    s1.(disk := Disk(Some(Saved(s1.currentTerm, s1.votedFor, s1.logs)), args.snapshot))
  }

  function HandleInstall(s: Server, args: InstallArgs): (Server, nat)
    requires LogShape(s.logs) && DummyIndex(s.logs) <= s.commitIndex
  {
    if args.term < s.currentTerm then (s, s.currentTerm)
    else
      var s1 := if args.term > s.currentTerm then Persist(Follow(s, args.term)) else Follow(s, args.term);
      if args.lastIncludedIndex <= s1.commitIndex then (s1, s1.currentTerm)
      else (Installed(s1, args), s1.currentTerm)
  }

  function InstallReturned(s: Server, peer: nat, args: InstallArgs, replyTerm: nat): Server
    requires peer < |s.nextIndex| == |s.matchIndex|
  {
    if replyTerm > s.currentTerm then StepDown(s, replyTerm)
    else if s.role == Leader && args.term == s.currentTerm then
      s.(matchIndex := s.matchIndex[peer := args.lastIncludedIndex],
         nextIndex := s.nextIndex[peer := args.lastIncludedIndex + 1])
    else s
  }

  // ---------- The applier

  predicate CanCollect(s: Server) {
    && s.applier.Waiting?
    && (s.hasSnapshot || s.lastApplied < s.commitIndex)
    && LogShape(s.logs)
    && (s.lastApplied < s.commitIndex ==> DummyIndex(s.logs) <= s.lastApplied + 1 && s.commitIndex <= LastIndex(s.logs))
  }

  function Commands(entries: Log): (r: seq<ApplyMsg>)
    ensures |r| == |entries|
    ensures forall k :: 0 <= k < |r| ==> r[k] == CommandMsg(entries[k])
  {
    seq(|entries|, k requires 0 <= k < |entries| => CommandMsg(entries[k]))
  }

  /** First locked region: take the pending snapshot and the committed entries not yet applied. */
  function Collect(s: Server): Server
    requires CanCollect(s)
  {
    var snap := if s.hasSnapshot then [SnapshotMsg(s.disk.snapshot, DummyIndex(s.logs))] else [];
    var base := DummyIndex(s.logs);
    var cmds :=
      if s.lastApplied >= s.commitIndex then []
      else Commands(s.logs[s.lastApplied + 1 - base..s.commitIndex + 1 - base]);
    s.(hasSnapshot := false, applier := Sending(snap + cmds, s.commitIndex))
  }

  /** Second locked region. */
  function Finish(s: Server): Server
    requires s.applier.Sending? && s.applier.queue == []
  {
    s.(lastApplied := Max(s.lastApplied, s.applier.upTo), applier := Waiting(s.applier.upTo))
  }

  // ---------- The service

  /** The applier puts the next message into the channel, without the lock. */
  function SendOne(s: Server): Server
    requires s.applier.Sending? && |s.applier.queue| > 0
  {
    s.(applier := s.applier.(queue := s.applier.queue[1..]),
       service := s.service.(channel := s.service.channel + [s.applier.queue[0]]))
  }

  /**
   The service takes a message out of the channel.  A command that its state already covers leaves the state alone;
   a snapshot replaces it.
   */
  function Take(service: Service): Service
    requires |service.channel| > 0
  {
    match service.channel[0]
    case CommandMsg(e) =>
      Service(service.serving, service.channel[1..], e.index,
              if e.index < |service.applied| then service.applied else service.applied + [e])
    case SnapshotMsg(snapshot, index) => Service(service.serving, service.channel[1..], index, snapshot)
  }

  function Receive(s: Server): Server
    requires |s.service.channel| > 0
  {
    s.(service := Take(s.service))
  }

  /** The service starts from the snapshot it finds, which may be newer than the one its server was started with. */
  function StartService(s: Server): Server {
    s.(service := s.service.(serving := true, applied := s.disk.snapshot))
  }
}
