/** What ties the running servers and the messages in flight to the history of the protocol. */
module ClusterInv {
  import opened Wrappers
  import opened RaftTypes
  import opened RaftLog
  import opened Consensus
  import opened Cluster

  // ---------- One server

  function FullOf(s: Server): Log
    requires |s.logs| > 0
  {
    Full(s.disk.snapshot, s.logs)
  }

  /** Every lock release leaves the persister equal to the current term, vote and log. */
  predicate OnDisk(s: Server) {
    || s.disk.state == Some(Saved(s.currentTerm, s.votedFor, s.logs))
    || (s.disk.state.None? && s.currentTerm == 0 && s.votedFor == -1 && s.logs == [Dummy])
  }

  predicate Local(s: Server, n: nat) {
    && Joined(s.disk.snapshot, s.logs)
    && FullOf(s)[0] == Dummy
    && (forall i :: 0 <= i < |FullOf(s)| ==> FullOf(s)[i].index == i)
    && OnDisk(s)
    && |s.nextIndex| == |s.matchIndex| == n
    && DummyIndex(s.logs) <= s.commitIndex <= LastIndex(s.logs)
  }

  /**
   Above the dummy the server's log is the one it votes with; below it, an installed snapshot
   may have replaced entries, unless the history is whole.
   */
  predicate LogLink(f: Log, base: nat, w: Log, whole: bool) {
    && |f| == |w| > 0
    && (whole ==> f == w)
    && (forall k :: base < k < |f| ==> f[k] == w[k])
    && LastTerm(f) == LastTerm(w)
  }

  /** The commit `(u, i)` reaches index `m` and is no later than term `t`. */
  predicate Reaches(p: Protocol, u: nat, i: nat, t: nat, m: nat) {
    (u, i) in p.commits && u <= t && m <= i
  }

  /** Index `m` was committed in term `t` or before. */
  ghost predicate Covered(p: Protocol, t: nat, m: nat) {
    m == 0 || exists u: nat, i: nat :: Reaches(p, u, i, t, m)
  }

  /** ... and `f` holds what was committed up to there. */
  ghost predicate CoveredLog(p: Protocol, f: Log, t: nat, m: nat) {
    m == 0 || exists u: nat, i: nat :: Reaches(p, u, i, t, m) && u in p.lead && Agree(f, p.lead[u], m + 1)
  }

  predicate VoteLink(p: Protocol, v: nat, s: Server) {
    if s.votedFor == -1 then (v, s.currentTerm) !in p.votes
    else s.votedFor >= 0 && VotedFor(p, v, s.currentTerm, s.votedFor)
  }

  /** The counted votes come from distinct servers that voted for `v`. */
  predicate CountedVotes(p: Protocol, v: nat, s: Server, q: set<nat>) {
    && |q| == s.grantedVotes
    && v !in s.awaiting
    && q !! s.awaiting
    && forall x :: x in q ==> x < |p.terms| && VotedFor(p, x, s.currentTerm, v)
  }

  ghost predicate CandidateLink(p: Protocol, v: nat, s: Server) {
    s.role == Candidate ==>
      && s.currentTerm >= 1
      && v < |p.logs|
      && (v, s.currentTerm) in p.stands
      && p.stands[(v, s.currentTerm)] == p.logs[v]
      && !(s.currentTerm in p.leaderOf && p.leaderOf[s.currentTerm] == v)
      && exists q :: CountedVotes(p, v, s, q)
  }

  /** A peer recorded at `m` has confirmed that index, or it was committed anyway. */
  ghost predicate MatchOk(p: Protocol, t: nat, j: nat, m: nat) {
    t in p.lead && m < |p.lead[t]| && (Acked(p, t, j, m) || Covered(p, t, m))
  }

  ghost predicate LeaderLink(p: Protocol, v: nat, s: Server) {
    s.role == Leader ==>
      && v < |p.logs|
      && s.currentTerm in p.lead
      && s.currentTerm in p.leaderOf
      && p.leaderOf[s.currentTerm] == v
      && |s.logs| > 0
      && FullOf(s) == p.logs[v] == p.lead[s.currentTerm]
      && |p.logs[v]| > 0
      && (v, s.currentTerm) in p.stands
      && Agree(p.logs[v], p.stands[(v, s.currentTerm)], |p.stands[(v, s.currentTerm)]|)
      && Acked(p, s.currentTerm, v, |p.logs[v]| - 1)
      && (forall j :: 0 <= j < |s.nextIndex| ==> 1 <= s.nextIndex[j] <= |p.logs[v]|)
      && (forall j :: 0 <= j < |s.matchIndex| ==> MatchOk(p, s.currentTerm, j, s.matchIndex[j]))
  }

  // ---------- What the service receives

  /** Received one after another, the messages take a reader from index `a` to `upTo`, without gap. */
  predicate Chain(f: Log, queue: seq<ApplyMsg>, a: nat, upTo: nat)
    decreases |queue|
  {
    if queue == [] then a == upTo
    else
      match queue[0]
      case CommandMsg(e) => a + 1 <= upTo < |f| && e == f[a + 1] && Chain(f, queue[1..], a + 1, upTo)
      case SnapshotMsg(snap, index) =>
        a < index <= upTo < |f| && snap == f[..index + 1] && Chain(f, queue[1..], index, upTo)
  }

  /** What is on its way to the service. */
  function Pending(s: Server): seq<ApplyMsg> {
    s.service.channel + if s.applier.Sending? then s.applier.queue else []
  }

  /**
   The service reflects a committed prefix that covers what it has received, and what is on its way continues
   from there to where the applier's last batch ends.
   */
  predicate ApplyLink(s: Server) {
    && |s.logs| > 0
    && var f := FullOf(s);
       var a := |s.service.applied| - 1;
       var upTo := s.applier.upTo;
       && s.service.received <= a <= s.commitIndex < |f|
       && s.service.applied == f[..a + 1]
       && upTo <= s.commitIndex
       && Chain(f, Pending(s), s.service.received, upTo)
       && BatchLink(s)
  }

  /** Either a snapshot ahead of the last batch waits to be sent, or the last batch covers the log's dummy. */
  predicate BatchLink(s: Server)
    requires |s.logs| > 0
  {
    var upTo, base := s.applier.upTo, DummyIndex(s.logs);
    && |s.service.applied| - 1 <= Max(base, upTo)
    && (!s.service.serving ==> s.service.received <= base)
    && if s.hasSnapshot then upTo < base == s.lastApplied
       else base <= upTo && s.lastApplied <= upTo && (s.applier.Waiting? ==> s.lastApplied == upTo)
  }

  ghost predicate ServerOk(p: Protocol, v: nat, s: Server) {
    && v < |p.terms| == |p.logs|
    && Local(s, |p.terms|)
    && p.terms[v] == s.currentTerm
    && LogLink(FullOf(s), DummyIndex(s.logs), p.logs[v], p.whole)
    && CoveredLog(p, FullOf(s), s.currentTerm, s.commitIndex)
    && VoteLink(p, v, s)
    && CandidateLink(p, v, s)
    && LeaderLink(p, v, s)
    && ApplyLink(s)
  }

  // ---------- Messages

  ghost predicate AppendOk(p: Protocol, args: AppendArgs) {
    var m := args.prevLogIndex + |args.entries|;
    && args.term in p.lead
    && m < |p.lead[args.term]|
    && p.lead[args.term][args.prevLogIndex].term == args.prevLogTerm
    && args.entries == p.lead[args.term][args.prevLogIndex + 1..m + 1]
    && args.leaderCommit <= m
    && Covered(p, args.term, args.leaderCommit)
  }

  ghost predicate AppendAnswerOk(p: Protocol, src: nat, args: AppendArgs, reply: AppendReply) {
    && AppendOk(p, args)
    && (reply.success ==>
          reply.term == args.term && MatchOk(p, args.term, src, args.prevLogIndex + |args.entries|))
    && (!reply.success && reply.term == args.term ==> 1 <= reply.conflictIndex <= args.prevLogIndex)
  }

  ghost predicate InstallOk(p: Protocol, args: InstallArgs) {
    var b := args.lastIncludedIndex;
    && args.term in p.lead
    && b < |p.lead[args.term]|
    && args.lastIncludedTerm == p.lead[args.term][b].term
    && args.snapshot == p.lead[args.term][..b + 1]
    && Covered(p, args.term, b)
  }

  ghost predicate MessageOk(p: Protocol, m: Message) {
    match m
    case VoteRequest(dst, args) =>
      && dst < |p.terms|
      && args.candidateId < |p.terms|
      && dst != args.candidateId
      && (args.candidateId, args.term) in p.stands
      && |p.stands[(args.candidateId, args.term)]| == args.lastLogIndex + 1
      && LastTerm(p.stands[(args.candidateId, args.term)]) == args.lastLogTerm
    case VoteAnswer(dst, src, term, reply) =>
      src < |p.terms| && (reply.granted ==> VotedFor(p, src, term, dst))
    case AppendRequest(dst, args) => dst < |p.terms| && AppendOk(p, args)
    case AppendAnswer(dst, src, args, reply) => src < |p.terms| && AppendAnswerOk(p, src, args, reply)
    case InstallRequest(dst, args) => dst < |p.terms| && InstallOk(p, args)
    case InstallAnswer(dst, src, args, _) => src < |p.terms| && InstallOk(p, args)
  }

  ghost predicate Inv(c: State, p: Protocol) {
    && ProtocolInv(p)
    && |c.servers| == |p.terms|
    && (forall v :: 0 <= v < |c.servers| ==> ServerOk(p, v, c.servers[v]))
    && (forall m :: m in c.net ==> MessageOk(p, m))
  }

  // ---------- The rest of the cluster is not disturbed

  /** Nothing that server `v` relies on has changed. */
  ghost predicate Untouched(p: Protocol, p': Protocol, v: nat) {
    && v < |p.terms| == |p.logs|
    && v < |p'.terms| == |p'.logs|
    && p'.terms[v] == p.terms[v]
    && p'.logs[v] == p.logs[v]
    && ((v, p.terms[v]) in p'.votes ==> (v, p.terms[v]) in p.votes)
    && (p.terms[v] in p'.leaderOf && p'.leaderOf[p.terms[v]] == v ==>
          && p.terms[v] in p.leaderOf && p.leaderOf[p.terms[v]] == v
          && (p.terms[v] in p.lead ==> p.terms[v] in p'.lead && p'.lead[p.terms[v]] == p.lead[p.terms[v]]))
  }

  ghost predicate Others(p: Protocol, p': Protocol, v: nat) {
    forall u: nat :: u < |p.terms| && u != v ==> Untouched(p, p', u)
  }

  lemma CoveredGrows(p: Protocol, p': Protocol, t: nat, m: nat)
    requires Grows(p, p') && Covered(p, t, m)
    ensures Covered(p', t, m)
  {
    if m > 0 {
      var u: nat, i: nat :| Reaches(p, u, i, t, m);
      assert Reaches(p', u, i, t, m);
    }
  }

  lemma CoveredLogGrows(p: Protocol, p': Protocol, f: Log, t: nat, t': nat, m: nat)
    requires Grows(p, p') && CoveredLog(p, f, t, m) && t <= t'
    ensures CoveredLog(p', f, t', m)
  {
    if m > 0 {
      var u: nat, i: nat :| Reaches(p, u, i, t, m) && u in p.lead && Agree(f, p.lead[u], m + 1);
      assert Reaches(p', u, i, t', m) && Agree(f, p'.lead[u], m + 1);
    }
  }

  lemma MatchGrows(p: Protocol, p': Protocol, t: nat, j: nat, m: nat)
    requires Grows(p, p') && MatchOk(p, t, j, m)
    ensures MatchOk(p', t, j, m)
  {
    if !Acked(p, t, j, m) {
      CoveredGrows(p, p', t, m);
    }
  }

  lemma CandidateGrows(p: Protocol, p': Protocol, v: nat, s: Server)
    requires Grows(p, p') && Untouched(p, p', v) && s.currentTerm == p.terms[v] && CandidateLink(p, v, s)
    ensures CandidateLink(p', v, s)
  {
    if s.role == Candidate {
      var q :| CountedVotes(p, v, s, q);
      assert CountedVotes(p', v, s, q);
    }
  }

  lemma LeaderGrows(p: Protocol, p': Protocol, v: nat, s: Server)
    requires Grows(p, p') && Untouched(p, p', v) && s.currentTerm == p.terms[v] && LeaderLink(p, v, s)
    ensures LeaderLink(p', v, s)
  {
    if s.role == Leader {
      forall j | 0 <= j < |s.matchIndex|
        ensures MatchOk(p', s.currentTerm, j, s.matchIndex[j])
      {
        MatchGrows(p, p', s.currentTerm, j, s.matchIndex[j]);
      }
    }
  }

  lemma ServerGrows(p: Protocol, p': Protocol, v: nat, s: Server)
    requires Grows(p, p') && Untouched(p, p', v) && ServerOk(p, v, s)
    ensures ServerOk(p', v, s)
  {
    CoveredLogGrows(p, p', FullOf(s), s.currentTerm, s.currentTerm, s.commitIndex);
    CandidateGrows(p, p', v, s);
    LeaderGrows(p, p', v, s);
  }

  lemma AppendGrows(p: Protocol, p': Protocol, args: AppendArgs)
    requires Grows(p, p') && AppendOk(p, args)
    ensures AppendOk(p', args)
  {
    CoveredGrows(p, p', args.term, args.leaderCommit);
  }

  lemma InstallGrows(p: Protocol, p': Protocol, args: InstallArgs)
    requires Grows(p, p') && InstallOk(p, args)
    ensures InstallOk(p', args)
  {
    CoveredGrows(p, p', args.term, args.lastIncludedIndex);
  }

  lemma MessageGrows(p: Protocol, p': Protocol, m: Message)
    requires Grows(p, p') && MessageOk(p, m)
    ensures MessageOk(p', m)
  {
    match m
    case VoteRequest(_, _) =>
    case VoteAnswer(_, _, _, _) =>
    case AppendRequest(_, args) => AppendGrows(p, p', args);
    case AppendAnswer(_, src, args, reply) =>
      AppendGrows(p, p', args);
      if reply.success {
        MatchGrows(p, p', args.term, src, args.prevLogIndex + |args.entries|);
      }
    case InstallRequest(_, args) => InstallGrows(p, p', args);
    case InstallAnswer(_, _, args, _) => InstallGrows(p, p', args);
  }

  /** One server moved along with the protocol: the invariant holds again. */
  lemma Assemble(c: State, c': State, p: Protocol, p': Protocol, v: nat, sent: set<Message>)
    requires Inv(c, p) && ProtocolInv(p') && Grows(p, p')
    requires v < |c.servers| == |c'.servers|
    requires c'.servers == c.servers[v := c'.servers[v]] && c'.net == c.net + sent
    requires Others(p, p', v)
    requires ServerOk(p', v, c'.servers[v])
    requires forall m :: m in sent ==> MessageOk(p', m)
    ensures Inv(c', p')
  {
    forall u | 0 <= u < |c'.servers|
      ensures ServerOk(p', u, c'.servers[u])
    {
      if u != v {
        ServerGrows(p, p', u, c.servers[u]);
      }
    }
    forall m | m in c'.net
      ensures MessageOk(p', m)
    {
      if m !in sent {
        MessageGrows(p, p', m);
      }
    }
  }
}
