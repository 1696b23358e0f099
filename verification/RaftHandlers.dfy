/**
 What each locked region of a server does, in terms of the whole log the server holds and of the numbers in its
 messages: in every run, for every step of that kind.
 */
module RaftHandlers {
  import opened RaftTypes
  import opened RaftLog
  import opened RaftServer
  import opened FiniteSets
  import opened Quorums
  import opened Consensus
  import opened Cluster
  import opened ClusterInv
  import opened ClusterElections
  import opened ClusterReplication
  import opened ClusterSnapshots
  import opened LogCompaction
  import opened RaftSafety
  import RaftMatching

  // ---------- Steps of a run

  /** Snapshot and log fit together, entries are numbered from the start, and the commit index lies in the log. */
  predicate Kept(s: Server) {
    && Joined(s.disk.snapshot, s.logs)
    && (forall i :: 0 <= i < |FullOf(s)| ==> FullOf(s)[i].index == i)
    && DummyIndex(s.logs) <= s.commitIndex <= LastIndex(s.logs)
  }

  /** The actor of step `k` before and after, and what it sent. */
  lemma StepOf(n: nat, run: seq<State>, steps: seq<Step>, k: nat)
    requires IsRun(n, run, steps) && k < |steps|
    ensures var v, c := Actor(steps[k]), run[k];
      && Point(n, run, k, v) && Point(n, run, k + 1, v) && |c.servers| == n
      && Kept(c.servers[v]) && |c.servers[v].nextIndex| == |c.servers[v].matchIndex| == n
      && Ready(c, steps[k]) && Safe(c.servers[v], steps[k])
      && At(run, k + 1, v) == Act(c, steps[k]).0 && run[k + 1].net == c.net + Act(c, steps[k]).1
  {
    assert Taken(run[k], steps[k], run[k + 1]);
    hide IsRun, Explains, ProtocolInv, Local, Act, ServerOk, Kept;
    var ps := RunHistory(n, run, steps);
    SizeAt(n, run, steps, ps, k);
    SizeAt(n, run, steps, ps, k + 1);
    PointOk(n, run, steps, ps, k, Actor(steps[k]));
    ShapeOf(ps[k], Actor(steps[k]), At(run, k, Actor(steps[k])));
    LocalKept(At(run, k, Actor(steps[k])), n);
  }

  lemma LocalKept(s: Server, n: nat)
    requires Local(s, n)
    ensures Kept(s) && |s.nextIndex| == |s.matchIndex| == n
  {
  }

  /** What a server holds, read through its compacted log. */
  lemma HeldIs(s: Server)
    requires Kept(s)
    ensures LogShape(s.logs) && Held(s) == Full(s.disk.snapshot, s.logs) && Compacts(Held(s), s.disk.snapshot, s.logs)
    ensures |Held(s)| == LastIndex(s.logs) + 1 && LastTerm(Held(s)) == s.logs[|s.logs| - 1].term
    ensures DummyIndex(s.logs) <= s.commitIndex < |Held(s)|
    ensures forall i: nat :: InLog(s.logs, i) <==> DummyIndex(s.logs) <= i < |Held(s)|
    ensures forall i: nat :: DummyIndex(s.logs) <= i < |Held(s)| ==> GetEntry(s.logs, i).term == Held(s)[i].term
    ensures forall i: nat :: DummyIndex(s.logs) < i < |Held(s)| ==> GetEntry(s.logs, i) == Held(s)[i]
  {
    var f := Held(s);
    assert f[|f| - 1] == if |s.logs| == 1 then s.disk.snapshot[DummyIndex(s.logs)] else s.logs[|s.logs| - 1];
  }

  // ---------- Elections

  ghost predicate TimeoutRule(n: nat, v: nat, s: Server, s': Server, args: VoteArgs) {
    && s'.role == Candidate && s'.currentTerm == s.currentTerm + 1 && s'.votedFor == v
    && Held(s') == Held(s) && s'.commitIndex == s.commitIndex && s'.grantedVotes == 1
    && (forall p: nat :: p in s'.awaiting <==> p < n && p != v)
    && |Held(s)| > 0
    && args == VoteArgs(s'.currentTerm, v, |Held(s)| - 1, LastTerm(Held(s)))
  }

  /** A timeout starts an election in the next term and asks every other server once. */
  lemma TimeoutAsks(n: nat, run: seq<State>, steps: seq<Step>, k: nat) returns (args: VoteArgs)
    requires IsRun(n, run, steps) && k < |steps| && steps[k].Timeout?
    ensures var v := steps[k].v;
      && Point(n, run, k, v) && Point(n, run, k + 1, v) && TimeoutRule(n, v, At(run, k, v), At(run, k + 1, v), args)
      && run[k + 1].net == run[k].net + set p: nat | p < n && p != v :: VoteRequest(p, args)
  {
    hide IsRun, Kept, Held, Below;
    StepOf(n, run, steps, k);
    var v := steps[k].v;
    var s := At(run, k, v);
    HeldIs(s);
    ElectionStarts(s, n, v);
    args := StartElection(s, v, n).1;
    var s' := At(run, k + 1, v);
    assert (set p | p in s'.awaiting :: VoteRequest(p, args)) == set p: nat | p < n && p != v :: VoteRequest(p, args);
  }

  lemma ElectionStarts(s: Server, n: nat, v: nat)
    requires Kept(s)
    ensures LogShape(s.logs) && var (s', args) := StartElection(s, v, n); TimeoutRule(n, v, s, s', args)
  {
    HeldIs(s);
  }

  /** A request for votes still tells the log its candidate stood with. */
  lemma {:induction false} RequestSent(n: nat, run: seq<State>, steps: seq<Step>, k: nat, m: Message) returns (j: nat)
    requires IsRun(n, run, steps) && k < |run| && m in run[k].net && m.VoteRequest?
    ensures var c := m.vote.candidateId;
      && j < k && j < |steps| && steps[j] == Timeout(c) && Point(n, run, j, c) && Point(n, run, j + 1, c)
      && TimeoutRule(n, c, At(run, j, c), At(run, j + 1, c), m.vote)
  {
    hide IsRun, Act, Kept, Held;
    RunStarts(n, run, steps);
    StepOf(n, run, steps, k - 1);
    if m in run[k - 1].net {
      j := RequestSent(n, run, steps, k - 1, m);
    } else {
      OnlyTimeoutsAsk(run[k - 1], steps[k - 1], m);
      var args := TimeoutAsks(n, run, steps, k - 1);
      j := k - 1;
    }
  }

  lemma RunStarts(n: nat, run: seq<State>, steps: seq<Step>)
    requires IsRun(n, run, steps)
    ensures |run| == |steps| + 1 && run[0].net == {}
  {
  }

  lemma OnlyTimeoutsAsk(c: State, st: Step, m: Message)
    requires Ready(c, st) && Safe(c.servers[Actor(st)], st) && m in Act(c, st).1 && m.VoteRequest?
    ensures st.Timeout?
  {
    hide StartElection, HandleRequestVote, VoteReturned, HandleAppend, AppendReturned, HandleInstall, InstallReturned,
      Send, Compact, Restart, Collect;
  }

  /**
   Sections 5.2 and 5.4.1 of the Raft paper: the vote goes to a candidate of no earlier term whose log, `w`, is at least
   as up-to-date as the voter's, unless another candidate has the vote of that term.
   */
  predicate VoteRule(s: Server, args: VoteArgs, w: Log, s': Server, reply: VoteReply) {
    && |w| > 0 && |Held(s)| > 0
    && (reply.granted <==>
          && args.term >= s.currentTerm
          && (args.term > s.currentTerm || s.votedFor == -1 || s.votedFor == args.candidateId)
          && UpToDate(w, Held(s)))
    && reply.term == s'.currentTerm == Max(s.currentTerm, args.term)
    && s'.votedFor == (if reply.granted then args.candidateId
                       else if args.term > s.currentTerm then -1 else s.votedFor)
    && s'.role == (if args.term > s.currentTerm then Follower else s.role)
    && Held(s') == Held(s) && s'.commitIndex == s.commitIndex
  }

  lemma VoteDecided(s: Server, args: VoteArgs, w: Log)
    requires Kept(s) && |w| > 0 && args.lastLogIndex == |w| - 1 && args.lastLogTerm == LastTerm(w)
    ensures LogShape(s.logs) && var (s', reply) := HandleRequestVote(s, args); VoteRule(s, args, w, s', reply)
  {
    hide Kept, Held, IsLogUpToDate, UpToDate, Compacts;
    HeldIs(s);
    UpToDateExactly(Held(s), s.disk.snapshot, s.logs, w);
    VoteKeepsHeld(s, args);
  }

  lemma VoteKeepsHeld(s: Server, args: VoteArgs)
    requires LogShape(s.logs)
    ensures Held(HandleRequestVote(s, args).0) == Held(s)
  {
  }

  /** How a request is answered, in terms of the log its candidate stood with when it sent the request at step `j`. */
  lemma VoteAnswered(n: nat, run: seq<State>, steps: seq<Step>, k: nat) returns (j: nat, reply: VoteReply)
    requires IsRun(n, run, steps) && k < |steps| && steps[k].Receive? && steps[k].m.VoteRequest?
    ensures var v, args := steps[k].m.dst, steps[k].m.vote;
      var c := args.candidateId;
      && j < k && steps[j] == Timeout(c) && Point(n, run, j + 1, c) && At(run, j + 1, c).currentTerm == args.term
      && Point(n, run, k, v) && Point(n, run, k + 1, v)
      && VoteRule(At(run, k, v), args, Held(At(run, j + 1, c)), At(run, k + 1, v), reply)
      && run[k + 1].net == run[k].net + {VoteAnswer(c, v, args.term, reply)}
  {
    hide IsRun, Kept, Held, HandleRequestVote;
    StepOf(n, run, steps, k);
    var m := steps[k].m;
    j := RequestSent(n, run, steps, k, m);
    var s, w := At(run, k, m.dst), Held(At(run, j + 1, m.vote.candidateId));
    VoteDecided(s, m.vote, w);
    reply := HandleRequestVote(s, m.vote).1;
  }

  /** A candidate counts a vote of its term, and leads as soon as its votes are a majority. */
  predicate CountRule(n: nat, s: Server, src: nat, term: nat, reply: VoteReply, s': Server) {
    && Held(s') == Held(s) && s'.commitIndex == s.commitIndex
    && if s.role == Candidate && s.currentTerm == term then
         && s'.awaiting == s.awaiting - {src}
         && if reply.granted then
              && s'.currentTerm == term && s'.grantedVotes == s.grantedVotes + 1
              && s'.role == (if 2 * s'.grantedVotes > n then Leader else Candidate)
              && (s'.role == Leader ==>
                    && |s'.matchIndex| == |s'.nextIndex| == n
                    && forall p :: 0 <= p < n ==> s'.matchIndex[p] == 0 && s'.nextIndex[p] == |Held(s)|)
            else if reply.term > term then s'.role == Follower && s'.currentTerm == reply.term && s'.votedFor == -1
            else s'.role == Candidate && s'.currentTerm == term && s'.grantedVotes == s.grantedVotes
       else s' == s
  }

  lemma VoteCounts(s: Server, n: nat, src: nat, term: nat, reply: VoteReply)
    requires Kept(s)
    ensures LogShape(s.logs) && CountRule(n, s, src, term, reply, VoteReturned(s, n, src, term, reply))
  {
    HeldIs(s);
  }

  lemma VoteCounted(n: nat, run: seq<State>, steps: seq<Step>, k: nat)
    requires IsRun(n, run, steps) && k < |steps| && steps[k].Receive? && steps[k].m.VoteAnswer?
    ensures var m := steps[k].m;
      && Point(n, run, k, m.dst) && Point(n, run, k + 1, m.dst) && run[k + 1].net == run[k].net
      && CountRule(n, At(run, k, m.dst), m.src, m.term, m.voteReply, At(run, k + 1, m.dst))
  {
    hide IsRun, Kept, Held, VoteReturned;
    StepOf(n, run, steps, k);
    var m := steps[k].m;
    VoteCounts(At(run, k, m.dst), n, m.src, m.term, m.voteReply);
  }

  // ---------- Replication

  predicate StartRule(s: Server, command: Command, s': Server) {
    && s'.role == s.role && s'.currentTerm == s.currentTerm && s'.commitIndex == s.commitIndex
    && Held(s') == if s.role == Leader then Held(s) + [Entry(|Held(s)|, s.currentTerm, command)] else Held(s)
  }

  /** A leader appends the command behind its log, with its term; nobody else takes it. */
  lemma CommandTaken(n: nat, run: seq<State>, steps: seq<Step>, k: nat)
    requires IsRun(n, run, steps) && k < |steps| && steps[k].ClientCommand?
    ensures var v := steps[k].v;
      && Point(n, run, k, v) && Point(n, run, k + 1, v) && run[k + 1].net == run[k].net
      && StartRule(At(run, k, v), steps[k].command, At(run, k + 1, v))
  {
    hide IsRun, Kept, Held, Start;
    StepOf(n, run, steps, k);
    CommandStarts(At(run, k, steps[k].v), steps[k].command);
  }

  lemma CommandStarts(s: Server, command: Command)
    requires Kept(s)
    ensures LogShape(s.logs) && StartRule(s, command, Start(s, command))
  {
    HeldIs(s);
    if s.role == Leader {
      FullAppends(s.disk.snapshot, s.logs, [Entry(LastIndex(s.logs) + 1, s.currentTerm, command)]);
    }
  }

  /** A leader sends what lies beyond the peer's next index, or its snapshot if it no longer has that. */
  predicate SendRule(s: Server, v: nat, peer: nat, sent: set<Message>) {
    && |s.logs| > 0 && peer < |s.nextIndex|
    && var f, base := Held(s), DummyIndex(s.logs);
       if s.role != Leader then sent == {}
       else
         && base < |f| && s.nextIndex[peer] <= |f|
         && if s.nextIndex[peer] <= base then
              sent == {InstallRequest(peer, InstallArgs(s.currentTerm, v, base, f[base].term, f[..base + 1]))}
            else
              var prev := s.nextIndex[peer] - 1;
              var args := AppendArgs(s.currentTerm, v, prev, f[prev].term, f[prev + 1..], s.commitIndex);
              sent == {AppendRequest(peer, args)}
  }

  lemma RoundSent(n: nat, run: seq<State>, steps: seq<Step>, k: nat)
    requires IsRun(n, run, steps) && k < |steps| && steps[k].SendRound?
    ensures var v, peer := steps[k].v, steps[k].peer;
      && Point(n, run, k, v) && Point(n, run, k + 1, v) && At(run, k + 1, v) == At(run, k, v)
      && exists sent :: run[k + 1].net == run[k].net + sent && SendRule(At(run, k, v), v, peer, sent)
  {
    hide IsRun, Kept, Held, Send;
    StepOf(n, run, steps, k);
    var v, peer := steps[k].v, steps[k].peer;
    var s := At(run, k, v);
    var sent := Act(run[k], steps[k]).1;
    RoundSends(s, v, peer, sent);
  }

  lemma RoundSends(s: Server, v: nat, peer: nat, sent: set<Message>)
    requires Kept(s) && CanSend(s, peer)
    requires sent == match Send(s, v, peer)
                     case Nothing => {}
                     case Append(args) => {AppendRequest(peer, args)}
                     case Install(args) => {InstallRequest(peer, args)}
    ensures SendRule(s, v, peer, sent)
  {
    SnapshotHeld(s);
    hide Kept, Held, Full, Compacts;
    HeldIs(s);
    var f, base := Held(s), DummyIndex(s.logs);
    if s.role == Leader {
      if s.nextIndex[peer] > base {
        var prev := s.nextIndex[peer] - 1;
        assert s.logs[prev + 1 - base..] == f[prev + 1..];
      }
    }
  }

  lemma SnapshotHeld(s: Server)
    requires Kept(s)
    ensures LogShape(s.logs) && DummyIndex(s.logs) < |Held(s)|
    ensures Held(s)[..DummyIndex(s.logs) + 1] == s.disk.snapshot && Held(s)[DummyIndex(s.logs)].term == s.logs[0].term
  {
  }

  /** The sent entry number `k` is in the log, by index and term. */
  predicate Has(f: Log, args: AppendArgs, k: nat)
    requires k < |args.entries|
  {
    args.prevLogIndex + 1 + k < |f| && f[args.prevLogIndex + 1 + k].term == args.entries[k].term
  }

  /** `g` is `f` with the entries merged in: cut at the first one that is missing, if one is. */
  predicate Merged(f: Log, args: AppendArgs, g: Log) {
    var prev := args.prevLogIndex;
    && Agree(f, g, prev + 1)
    && (forall k :: 0 <= k < |args.entries| ==> Has(g, args, k))
    && if forall k :: 0 <= k < |args.entries| ==> Has(f, args, k) then g == f
       else
         && |g| == prev + 1 + |args.entries|
         && forall k, l :: 0 <= k <= l < |args.entries| && !Has(f, args, k) ==> g[prev + 1 + l] == args.entries[l]
  }

  /** Where a follower of log `f` asks its leader to go back to. */
  predicate Conflict(f: Log, base: nat, prev: nat, c: nat) {
    && (prev < base ==> c == base + 1)
    && (prev == base < |f| ==> c == base)
    && (prev >= |f| ==> c == |f|)
    && (base < prev < |f| ==>
          && base < c <= prev
          && (forall k :: c < k <= prev ==> f[k].term == f[prev].term)
          && (c == base + 1 || f[c].term != f[prev].term))
  }

  /** What an accepted request does, by the rules for followers in Figure 2 of the Raft paper. */
  predicate AcceptRule(s: Server, args: AppendArgs, s': Server, reply: AppendReply)
    requires |s.logs| > 0
  {
    var f, g, base, prev := Held(s), Held(s'), DummyIndex(s.logs), args.prevLogIndex;
    && (reply.success <==> base <= prev < |f| && f[prev].term == args.prevLogTerm)
    && if reply.success then
         && Merged(f, args, g) && reply.term == args.term
         && s'.commitIndex == Max(s.commitIndex, Min(args.leaderCommit, |g| - 1))
       else
         && g == f && s'.commitIndex == s.commitIndex
         && reply.term == (if prev < base then 0 else args.term)
         && Conflict(f, base, prev, reply.conflictIndex)
  }

  predicate AppendRule(s: Server, args: AppendArgs, s': Server, reply: AppendReply) {
    && |s.logs| > 0
    && if args.term < s.currentTerm then
         && s'.role == s.role && s'.currentTerm == s.currentTerm && s'.votedFor == s.votedFor
         && Held(s') == Held(s) && s'.commitIndex == s.commitIndex && !reply.success && reply.term == s.currentTerm
       else
         && s'.role == Follower && s'.currentTerm == args.term
         && s'.votedFor == (if args.term > s.currentTerm then -1 else s.votedFor)
         && AcceptRule(s, args, s', reply)
  }

  /** How a request to append is answered, and what the server holds and has committed afterwards. */
  lemma AppendAnswered(n: nat, run: seq<State>, steps: seq<Step>, k: nat) returns (reply: AppendReply)
    requires IsRun(n, run, steps) && k < |steps| && steps[k].Receive? && steps[k].m.AppendRequest?
    ensures var v, args := steps[k].m.dst, steps[k].m.append;
      && Point(n, run, k, v) && Point(n, run, k + 1, v) && AppendRule(At(run, k, v), args, At(run, k + 1, v), reply)
      && run[k + 1].net == run[k].net + {AppendAnswer(args.leaderId, v, args, reply)}
  {
    hide IsRun, Kept, Held, HandleAppend, AppendRule;
    StepOf(n, run, steps, k);
    var m := steps[k].m;
    LeaderCommitWithinRequest(n, run, steps, k, m);
    AppendHandled(At(run, k, m.dst), m.append);
    reply := HandleAppend(At(run, k, m.dst), m.append).1;
  }

  lemma AppendHandled(s: Server, args: AppendArgs)
    requires Kept(s) && CanHandleAppend(s, args) && args.leaderCommit <= args.prevLogIndex + |args.entries|
    ensures var (s', reply) := HandleAppend(s, args); AppendRule(s, args, s', reply)
  {
    hide Kept, AcceptRule, MatchAppend, Held;
    PersistHeld(s);
    if args.term >= s.currentTerm {
      var s1 := Follow(s, args.term);
      FollowKept(s, args.term);
      AppendMatched(s1, args);
      var (s2, reply) := MatchAppend(s1, args);
      MatchKeepsTerm(s1, args);
      SameAccept(s, s1, args, s2, reply);
    }
  }

  lemma PersistHeld(s: Server)
    ensures Held(Persist(s)) == Held(s)
  {
  }

  lemma FollowKept(s: Server, term: nat)
    requires Kept(s)
    ensures var s1 := Follow(s, term);
      s1.logs == s.logs && s1.commitIndex == s.commitIndex && Held(s1) == Held(s) && Kept(s1)
  {
  }

  lemma SameAccept(s: Server, s1: Server, args: AppendArgs, s2: Server, reply: AppendReply)
    requires |s1.logs| > 0 && AcceptRule(s1, args, s2, reply)
    requires s1.logs == s.logs && s1.commitIndex == s.commitIndex && Held(s1) == Held(s)
    ensures AcceptRule(s, args, Persist(s2), reply)
  {
    hide Held;
    PersistHeld(s2);
  }

  lemma MatchKeepsTerm(s: Server, args: AppendArgs)
    requires CanHandleAppend(s, args)
    ensures var s' := MatchAppend(s, args).0;
      s'.role == s.role && s'.currentTerm == s.currentTerm && s'.votedFor == s.votedFor
  {
    hide Merge, MatchLog, ConflictFrom;
  }

  lemma AppendMatched(s: Server, args: AppendArgs)
    requires Kept(s) && CanHandleAppend(s, args) && s.currentTerm == args.term
    requires args.leaderCommit <= args.prevLogIndex + |args.entries|
    ensures var (s', reply) := MatchAppend(s, args); AcceptRule(s, args, s', reply)
  {
    hide Kept, Held, Merge, Merged, Conflict, ConflictFrom, Compacts;
    HeldIs(s);
    var f, base, prev := Held(s), DummyIndex(s.logs), args.prevLogIndex;
    if prev >= base && MatchLog(s.logs, args.prevLogTerm, prev) {
      SentContinues(s, args);
      MergedHeld(s, args);
      var l := Merge(s.logs, args.entries);
      HeldIsFull(MatchAppend(s, args).0);
      MergedSize(f, args, Full(s.disk.snapshot, l));
    } else if base < prev < |f| {
      ConflictIs(s.logs, prev, GetEntry(s.logs, prev).term);
      ConflictHeld(s, prev, ConflictFrom(s.logs, prev, GetEntry(s.logs, prev).term));
    } else {
      ConflictAtEnd(f, base, prev, MatchAppend(s, args).1.conflictIndex);
    }
  }

  lemma HeldIsFull(s: Server)
    requires |s.logs| > 0
    ensures Held(s) == Full(s.disk.snapshot, s.logs)
  {
  }

  lemma MergedSize(f: Log, args: AppendArgs, g: Log)
    requires Merged(f, args, g)
    ensures |g| == |f| || |g| == args.prevLogIndex + 1 + |args.entries|
  {
  }

  lemma ConflictAtEnd(f: Log, base: nat, prev: nat, c: nat)
    requires base < |f|
    requires (prev < base && c == base + 1) || (prev == base && c == base) || (prev >= |f| && c == |f|)
    ensures Conflict(f, base, prev, c)
  {
  }

  lemma ConflictHeld(s: Server, prev: nat, c: nat)
    requires Kept(s) && LogShape(s.logs) && DummyIndex(s.logs) < prev < |Held(s)| && DummyIndex(s.logs) < c <= prev
    requires InLog(s.logs, prev) && InLog(s.logs, c)
    requires forall k :: c < k <= prev ==> InLog(s.logs, k) && GetEntry(s.logs, k).term == GetEntry(s.logs, prev).term
    requires c == DummyIndex(s.logs) + 1 || GetEntry(s.logs, c).term != GetEntry(s.logs, prev).term
    ensures Conflict(Held(s), DummyIndex(s.logs), prev, c)
  {
    hide Kept, Held, Compacts;
    HeldIs(s);
    var f := Held(s);
    forall k | c < k <= prev
      ensures f[k].term == f[prev].term
    {
      assert GetEntry(s.logs, k) == f[k];
    }
  }

  lemma SentContinues(s: Server, args: AppendArgs)
    requires LogShape(s.logs) && Numbered(args.entries, args.prevLogIndex + 1)
    requires DummyIndex(s.logs) <= args.prevLogIndex <= LastIndex(s.logs)
    ensures Continues(s.logs, args.entries)
  {
  }

  /** What the server holds once its log is `l`. */
  lemma HeldWith(s: Server, l: Log, i: nat)
    requires Kept(s) && LogShape(l) && l[0] == s.logs[0]
    ensures LogShape(s.logs)
    ensures var g := Full(s.disk.snapshot, l);
      && |g| == LastIndex(l) + 1
      && (i <= DummyIndex(s.logs) ==> i < |Held(s)| && g[i] == Held(s)[i])
      && (DummyIndex(s.logs) < i < |g| ==> InLog(l, i) && g[i] == GetEntry(l, i))
  {
  }

  lemma MergedHeld(s: Server, args: AppendArgs)
    requires Kept(s) && Continues(s.logs, args.entries) && Numbered(args.entries, args.prevLogIndex + 1)
    requires DummyIndex(s.logs) <= args.prevLogIndex <= LastIndex(s.logs)
    ensures var l := Merge(s.logs, args.entries);
      |l| > 0 && Merged(Held(s), args, Full(s.disk.snapshot, l)) && |Full(s.disk.snapshot, l)| == LastIndex(l) + 1
  {
    hide Kept, Held, Merge, Full, Compacts, FirstMissing, Present;
    HeldIs(s);
    var f, l, prev := Held(s), Merge(s.logs, args.entries), args.prevLogIndex;
    var g := Full(s.disk.snapshot, l);
    HeldWith(s, l, 0);
    forall i | 0 <= i <= prev
      ensures i < |g| && g[i] == f[i]
    {
      MergedBelow(s, args, i);
    }
    forall k | 0 <= k < |args.entries|
      ensures Has(g, args, k)
      ensures FirstMissing(s.logs, args.entries, 0) <= k ==> g[prev + 1 + k] == args.entries[k]
      ensures Has(f, args, k) <==> Present(s.logs, args.entries[k])
    {
      MergedAt(s, args, k);
    }
    MergeEnds(s.logs, args.entries);
  }

  lemma MergedBelow(s: Server, args: AppendArgs, i: nat)
    requires Kept(s) && Continues(s.logs, args.entries) && Numbered(args.entries, args.prevLogIndex + 1)
    requires DummyIndex(s.logs) <= args.prevLogIndex <= LastIndex(s.logs) && i <= args.prevLogIndex
    ensures var l := Merge(s.logs, args.entries); var g := Full(s.disk.snapshot, l);
      i < |g| && i < |Held(s)| && g[i] == Held(s)[i]
  {
    hide Kept, Held, Merge, Full, Compacts;
    HeldIs(s);
    MergeKeepsBelow(s.logs, args.entries, if i > DummyIndex(s.logs) then i else DummyIndex(s.logs));
    HeldWith(s, Merge(s.logs, args.entries), i);
  }

  lemma MergedAt(s: Server, args: AppendArgs, k: nat)
    requires Kept(s) && Continues(s.logs, args.entries) && Numbered(args.entries, args.prevLogIndex + 1)
    requires DummyIndex(s.logs) <= args.prevLogIndex <= LastIndex(s.logs) && k < |args.entries|
    ensures var l := Merge(s.logs, args.entries); var g := Full(s.disk.snapshot, l);
      && Has(g, args, k)
      && (FirstMissing(s.logs, args.entries, 0) <= k ==> g[args.prevLogIndex + 1 + k] == args.entries[k])
    ensures Has(Held(s), args, k) <==> Present(s.logs, args.entries[k])
  {
    hide Kept, Held, Merge, Full, Compacts, FirstMissing;
    HeldIs(s);
    MergeHasSent(s.logs, args.entries, k);
    HeldWith(s, Merge(s.logs, args.entries), args.prevLogIndex + 1 + k);
  }

  // ---------- The leader learns

  /** The leader `v` itself and the peers it knows to hold index `i`. */
  function Supporters(n: nat, v: nat, matchIndex: seq<nat>, i: nat): set<nat>
    requires |matchIndex| == n
  {
    {v} + set j: nat | j < n && j != v && matchIndex[j] >= i
  }

  /** An index with an entry of the leader's term that a majority holds. */
  ghost predicate Commitable(n: nat, v: nat, s: Server, i: nat)
    requires |s.matchIndex| == n
  {
    i < |Held(s)| && Held(s)[i].term == s.currentTerm && Quorum(n, Supporters(n, v, s.matchIndex, i))
  }

  /** The commit index is the highest one that a majority holds in the present term, if that is above the old one. */
  ghost predicate CommitsHighest(n: nat, v: nat, s: Server, s': Server)
    requires |s'.matchIndex| == n
  {
    && (s'.commitIndex == s.commitIndex || (s'.commitIndex > s.commitIndex && Commitable(n, v, s', s'.commitIndex)))
    && (forall i: nat :: i > s.commitIndex && Commitable(n, v, s', i) ==> i <= s'.commitIndex)
  }

  /** What a leader does with an answer; only one to its present request counts. */
  ghost predicate ReturnRule(n: nat, v: nat, s: Server, src: nat, args: AppendArgs, reply: AppendReply, s': Server) {
    && Held(s') == Held(s) && src < |s.matchIndex| == |s.nextIndex| == |s'.matchIndex| == n
    && if reply.term > s.currentTerm then
         s'.role == Follower && s'.currentTerm == reply.term && s'.votedFor == -1 && s'.commitIndex == s.commitIndex
       else if s.role == Leader && reply.term == s.currentTerm == args.term
               && args.prevLogIndex + 1 == s.nextIndex[src] then
         var last := args.prevLogIndex + |args.entries|;
         && s'.role == Leader && s'.currentTerm == s.currentTerm
         && if reply.success then
              && s'.matchIndex == s.matchIndex[src := last] && s'.nextIndex == s.nextIndex[src := last + 1]
              && CommitsHighest(n, v, s, s')
            else
              && s'.matchIndex == s.matchIndex && s'.nextIndex == s.nextIndex[src := reply.conflictIndex]
              && s'.commitIndex == s.commitIndex
       else s' == s
  }

  lemma AnswerProcessed(n: nat, run: seq<State>, steps: seq<Step>, k: nat)
    requires IsRun(n, run, steps) && k < |steps| && steps[k].Receive? && steps[k].m.AppendAnswer?
    ensures var m := steps[k].m;
      && Point(n, run, k, m.dst) && Point(n, run, k + 1, m.dst) && run[k + 1].net == run[k].net
      && ReturnRule(n, m.dst, At(run, k, m.dst), m.src, m.append, m.appendReply, At(run, k + 1, m.dst))
  {
    hide IsRun, Kept, Held, AppendReturned, ReturnRule;
    StepOf(n, run, steps, k);
    var m := steps[k].m;
    AnswerReturns(n, m.dst, At(run, k, m.dst), m.src, m.append, m.appendReply);
  }

  lemma AnswerReturns(n: nat, v: nat, s: Server, src: nat, args: AppendArgs, reply: AppendReply)
    requires Kept(s) && CanReturnAppend(s, src) && |s.matchIndex| == n && v < n
    ensures ReturnRule(n, v, s, src, args, reply, AppendReturned(s, v, src, args, reply))
  {
    hide Kept, CommitsHighest, CommitScan, Held;
    var s' := AppendReturned(s, v, src, args, reply);
    ReturnHolds(s, v, src, args, reply);
    if reply.term <= s.currentTerm && s.role == Leader && reply.term == s.currentTerm == args.term
       && args.prevLogIndex + 1 == s.nextIndex[src] && reply.success {
      var last := args.prevLogIndex + |args.entries|;
      var s1 := s.(matchIndex := s.matchIndex[src := last], nextIndex := s.nextIndex[src := last + 1]);
      SameKept(s, s1);
      ScanCommits(n, v, s1);
      SameScan(n, v, s, s1, s');
    }
  }

  lemma ReturnHolds(s: Server, v: nat, src: nat, args: AppendArgs, reply: AppendReply)
    requires CanReturnAppend(s, src)
    ensures var s' := AppendReturned(s, v, src, args, reply);
      Held(s') == Held(s) && |s'.matchIndex| == |s.matchIndex|
  {
    hide CommitScan;
  }

  lemma SameKept(s: Server, s1: Server)
    requires Kept(s) && s1 == s.(matchIndex := s1.matchIndex, nextIndex := s1.nextIndex)
    ensures Kept(s1) && Held(s1) == Held(s) && LogShape(s1.logs)
  {
    assert FullOf(s1) == FullOf(s);
  }

  lemma SameScan(n: nat, v: nat, s: Server, s1: Server, s': Server)
    requires |s1.matchIndex| == n && s1.commitIndex == s.commitIndex && s' == s1.(commitIndex := s'.commitIndex)
    requires Held(s') == Held(s1)
    requires CommitsHighest(n, v, s1, s1.(commitIndex := s'.commitIndex))
    ensures CommitsHighest(n, v, s, s')
  {
    hide Held;
  }

  lemma ScanCommits(n: nat, v: nat, s: Server)
    requires Kept(s) && LogShape(s.logs) && DummyIndex(s.logs) <= s.commitIndex && |s.matchIndex| == n && v < n
    ensures CommitsHighest(n, v, s, s.(commitIndex := CommitScan(s, v, LastIndex(s.logs))))
  {
    hide Kept, Held, CommitScan, RaftServer.CommitRule;
    HeldIs(s);
    var r := CommitScan(s, v, LastIndex(s.logs));
    var s' := s.(commitIndex := r);
    SameHeld(s, s');
    forall i: nat | s.commitIndex < i < |Held(s)|
      ensures InLog(s.logs, i) && (CommitRule(s, v, i) <==> Commitable(n, v, s', i))
    {
      RuleIsMajority(n, v, s, i);
      SameCommitable(n, v, s, s', i);
    }
  }

  lemma SameHeld(s: Server, s': Server)
    requires s' == s.(commitIndex := s'.commitIndex)
    ensures Held(s') == Held(s)
  {
  }

  lemma SameCommitable(n: nat, v: nat, s: Server, s': Server, i: nat)
    requires |s.matchIndex| == n && s' == s.(commitIndex := s'.commitIndex)
    ensures Commitable(n, v, s, i) <==> Commitable(n, v, s', i)
  {
    hide Held;
    SameHeld(s, s');
  }

  /** Counting the peers whose matchIndex reaches the index decides whether a majority holds it. */
  lemma RuleIsMajority(n: nat, v: nat, s: Server, i: nat)
    requires Kept(s) && |s.matchIndex| == n && v < n && DummyIndex(s.logs) < i < |Held(s)|
    ensures InLog(s.logs, i) && (CommitRule(s, v, i) <==> Commitable(n, v, s, i))
  {
    hide Kept, Held;
    HeldIs(s);
    var q := Holders(s.matchIndex, v, i, n);
    var h := Supporters(n, v, s.matchIndex, i);
    assert h == q + {v} && v !in q;
    assert |h| == |q| + 1;
    assert |q| == RaftServer.Holding(s.matchIndex, v, i, n);
  }

  /** What a leader does with the answer to a snapshot. */
  predicate InstalledRule(s: Server, src: nat, args: InstallArgs, term: nat, s': Server) {
    && Held(s') == Held(s) && s'.commitIndex == s.commitIndex && src < |s.matchIndex| == |s.nextIndex|
    && if term > s.currentTerm then s'.role == Follower && s'.currentTerm == term && s'.votedFor == -1
       else if s.role == Leader && args.term == s.currentTerm then
         && s'.role == Leader && s'.currentTerm == s.currentTerm
         && s'.matchIndex == s.matchIndex[src := args.lastIncludedIndex]
         && s'.nextIndex == s.nextIndex[src := args.lastIncludedIndex + 1]
       else s' == s
  }

  lemma InstallProcessed(n: nat, run: seq<State>, steps: seq<Step>, k: nat)
    requires IsRun(n, run, steps) && k < |steps| && steps[k].Receive? && steps[k].m.InstallAnswer?
    ensures var m := steps[k].m;
      && Point(n, run, k, m.dst) && Point(n, run, k + 1, m.dst) && run[k + 1].net == run[k].net
      && InstalledRule(At(run, k, m.dst), m.src, m.install, m.replyTerm, At(run, k + 1, m.dst))
  {
    hide IsRun, Kept, InstallReturned, InstalledRule;
    StepOf(n, run, steps, k);
    var m := steps[k].m;
    InstallReturns(At(run, k, m.dst), m.src, m.install, m.replyTerm);
  }

  lemma InstallReturns(s: Server, src: nat, args: InstallArgs, term: nat)
    requires src < |s.nextIndex| == |s.matchIndex|
    ensures InstalledRule(s, src, args, term, InstallReturned(s, src, args, term))
  {
  }

  // ---------- Installation

  /** How a snapshot is installed: it replaces the log up to its last index, unless the server has committed that. */
  predicate InstallRule(s: Server, args: InstallArgs, s': Server, term: nat) {
    && term == s'.currentTerm == Max(s.currentTerm, args.term)
    && if args.term < s.currentTerm then s' == s
       else
         && s'.role == Follower && s'.votedFor == (if args.term > s.currentTerm then -1 else s.votedFor)
         && if args.lastIncludedIndex <= s.commitIndex then
              && Held(s') == Held(s) && s'.logs == s.logs
              && s'.commitIndex == s.commitIndex && s'.lastApplied == s.lastApplied && s'.hasSnapshot == s.hasSnapshot
            else
              var b := args.lastIncludedIndex;
              && Held(s') == args.snapshot + (if b < |Held(s)| then Held(s)[b + 1..] else [])
              && |s'.logs| > 0 && DummyIndex(s'.logs) == s'.commitIndex == s'.lastApplied == b
              && s'.hasSnapshot && s'.disk.snapshot == args.snapshot && |args.snapshot| == b + 1
  }

  lemma InstallAnswered(n: nat, run: seq<State>, steps: seq<Step>, k: nat) returns (term: nat)
    requires IsRun(n, run, steps) && k < |steps| && steps[k].Receive? && steps[k].m.InstallRequest?
    ensures var v, args := steps[k].m.dst, steps[k].m.install;
      && Point(n, run, k, v) && Point(n, run, k + 1, v) && InstallRule(At(run, k, v), args, At(run, k + 1, v), term)
      && run[k + 1].net == run[k].net + {InstallAnswer(args.leaderId, v, args, term)}
  {
    hide IsRun, Kept, Held, InstalledLog;
    StepOf(n, run, steps, k);
    RaftMatching.InstallHeld(n, run, steps, k);
    var m := steps[k].m;
    term := HandleInstall(At(run, k, m.dst), m.install).1;
  }

  // ---------- Compaction and restart

  /** Taking a snapshot drops the prefix it covers from the log, and loses nothing. */
  predicate CompactRule(s: Server, s': Server) {
    && |s.logs| > 0 && |s'.logs| > 0
    && s'.role == s.role && s'.currentTerm == s.currentTerm && s'.votedFor == s.votedFor
    && Held(s') == Held(s) && s'.commitIndex == s.commitIndex
    && DummyIndex(s'.logs) == Max(DummyIndex(s.logs), |s.service.applied| - 1) < |Held(s)|
    && s'.disk.snapshot == Held(s)[..DummyIndex(s'.logs) + 1]
  }

  lemma SnapshotTaken(n: nat, run: seq<State>, steps: seq<Step>, k: nat)
    requires IsRun(n, run, steps) && k < |steps| && steps[k].ServiceSnapshot?
    ensures var v := steps[k].v;
      && Point(n, run, k, v) && Point(n, run, k + 1, v) && run[k + 1].net == run[k].net
      && CompactRule(At(run, k, v), At(run, k + 1, v))
  {
    hide IsRun, Explains, Kept, Compact, CompactRule, ProtocolInv, ServerOk;
    StepOf(n, run, steps, k);
    var v := steps[k].v;
    var ps := RunHistory(n, run, steps);
    PointOk(n, run, steps, ps, k, v);
    AppliedLink(ps[k], v, At(run, k, v));
    SnapshotCompacts(At(run, k, v), n);
  }

  lemma AppliedLink(p: Protocol, v: nat, s: Server)
    requires ServerOk(p, v, s)
    ensures Local(s, |p.terms|) && ApplyLink(s)
  {
  }

  lemma SnapshotCompacts(s: Server, n: nat)
    requires Local(s, n) && ApplyLink(s) && LogShape(s.logs) && 0 < |s.service.applied| <= LastIndex(s.logs) + 1
    ensures CompactRule(s, Compact(s, |s.service.applied| - 1, s.service.applied))
  {
    LocalKept(s, n);
    SnapshotHeld(s);
    AppliedPrefix(s);
    hide Local, ApplyLink, Kept, FullOf;
    HeldIs(s);
    var a := |s.service.applied| - 1;
    if a > DummyIndex(s.logs) {
      CompactedFull(s, n);
    }
  }

  lemma AppliedPrefix(s: Server)
    requires ApplyLink(s)
    ensures |s.service.applied| <= |Held(s)| && s.service.applied == Held(s)[..|s.service.applied|]
  {
    hide Chain, BatchLink;
  }

  /** A restart finds term, vote and log as they were, and begins again at the snapshot. */
  predicate RestartRule(s: Server, s': Server) {
    && |s.logs| > 0
    && s'.role == Follower && s'.currentTerm == s.currentTerm && s'.votedFor == s.votedFor
    && s'.logs == s.logs && Held(s') == Held(s) && s'.disk == s.disk
    && s'.commitIndex == s'.lastApplied == DummyIndex(s.logs) && !s'.hasSnapshot && !s'.service.serving
  }

  lemma Restarted(n: nat, run: seq<State>, steps: seq<Step>, k: nat)
    requires IsRun(n, run, steps) && k < |steps| && steps[k].CrashAndRestart?
    ensures var v := steps[k].v;
      && Point(n, run, k, v) && Point(n, run, k + 1, v) && run[k + 1].net == run[k].net
      && RestartRule(At(run, k, v), At(run, k + 1, v))
  {
    hide IsRun, Explains, Kept, Restart, RestartRule, ProtocolInv, ServerOk;
    StepOf(n, run, steps, k);
    var v := steps[k].v;
    var ps := RunHistory(n, run, steps);
    PointOk(n, run, steps, ps, k, v);
    AppliedLink(ps[k], v, At(run, k, v));
    Restarts(At(run, k, v), n);
  }

  lemma Restarts(s: Server, n: nat)
    requires Local(s, n) && (s.disk.state.Some? ==> |s.disk.state.value.logs| > 0)
    ensures RestartRule(s, Restart(s.disk, n))
  {
  }

  // ---------- Delivery

  predicate Delivers(st: Step) {
    st.ApplierCollect? || st.ApplierSend? || st.ApplierFinish? || st.ServiceStart? || st.ServiceReceive?
  }

  /** Applier and service of server `v` have nothing to do. */
  predicate AtRest(c: State, v: nat) {
    && !Ready(c, ApplierCollect(v)) && !Ready(c, ApplierSend(v)) && !Ready(c, ApplierFinish(v))
    && !Ready(c, ServiceStart(v)) && !Ready(c, ServiceReceive(v))
  }

  /** A bound on the steps that applier and service of a server still take if nothing more is committed. */
  function Work(s: Server): int {
    (if s.service.serving then 0 else 1)
    + |s.service.channel|
    + (if s.applier.Sending? then 2 * |s.applier.queue| + 1 else 0)
    + (if s.hasSnapshot then 4 else 0)
    + 4 * (s.commitIndex - Max(s.lastApplied, s.applier.upTo))
  }

  /** At rest, a service reflects all that its server knows to be committed. */
  lemma RestIsDelivered(n: nat, run: seq<State>, steps: seq<Step>, k: nat, v: nat)
    requires IsRun(n, run, steps) && k < |run| && v < n
    ensures Point(n, run, k, v) && Work(At(run, k, v)) >= 0
    ensures AtRest(run[k], v) ==> var s := At(run, k, v);
      s.commitIndex < |Held(s)| && s.service.applied == Held(s)[..s.commitIndex + 1]
  {
    hide IsRun, Explains, ProtocolInv, ServerOk;
    var ps := RunHistory(n, run, steps);
    SizeAt(n, run, steps, ps, k);
    PointOk(n, run, steps, ps, k, v);
    AppliedLink(ps[k], v, At(run, k, v));
    RestDelivers(At(run, k, v), n);
  }

  lemma RestDelivers(s: Server, n: nat)
    requires Local(s, n) && ApplyLink(s)
    ensures s.commitIndex < |Held(s)| && Work(s) >= 0
    ensures
      && s.service.serving && s.service.channel == []
      && s.applier.Waiting? && !s.hasSnapshot && s.lastApplied >= s.commitIndex
      ==> s.service.applied == Held(s)[..s.commitIndex + 1]
  {
    LocalKept(s, n);
    hide FullOf, Local;
  }

  /** Each step of applier or service brings it nearer to rest. */
  lemma DeliveryProgresses(n: nat, run: seq<State>, steps: seq<Step>, k: nat)
    requires IsRun(n, run, steps) && k < |steps| && Delivers(steps[k])
    ensures var v := steps[k].v;
      && Point(n, run, k, v) && Point(n, run, k + 1, v)
      && 0 <= Work(At(run, k + 1, v)) < Work(At(run, k, v))
      && Held(At(run, k + 1, v)) == Held(At(run, k, v))
      && At(run, k + 1, v).commitIndex == At(run, k, v).commitIndex
  {
    hide IsRun, Explains, Kept, ProtocolInv, ServerOk, Work, Held;
    StepOf(n, run, steps, k);
    var v := steps[k].v;
    RestIsDelivered(n, run, steps, k + 1, v);
    var ps := RunHistory(n, run, steps);
    PointOk(n, run, steps, ps, k, v);
    AppliedLink(ps[k], v, At(run, k, v));
    WorkShrinks(run[k], steps[k], n);
  }

  lemma WorkShrinks(c: State, st: Step, n: nat)
    requires Delivers(st) && Ready(c, st) && Safe(c.servers[st.v], st)
    requires Local(c.servers[st.v], n) && ApplyLink(c.servers[st.v])
    ensures var s, s' := c.servers[st.v], Act(c, st).0;
      Work(s') < Work(s) && Held(s') == Held(s) && s'.commitIndex == s.commitIndex
  {
    var s := c.servers[st.v];
    if st.ApplierCollect? {
      CollectWork(s, n);
    }
    hide Local, ApplyLink, Commands;
  }

  lemma CollectWork(s: Server, n: nat)
    requires Local(s, n) && ApplyLink(s) && s.applier.Waiting? && (s.hasSnapshot || s.lastApplied < s.commitIndex)
    ensures CanCollect(s) && Work(Collect(s)) < Work(s)
  {
    CollectFrom(s);
    CollectReads(s, n);
    hide Local, ApplyLink, FullOf;
  }
}
