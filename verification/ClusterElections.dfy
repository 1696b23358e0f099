/** Steps that only concern terms and votes keep the invariant. */
module ClusterElections {
  import opened RaftTypes
  import opened RaftLog
  import opened RaftServer
  import opened Quorums
  import opened Consensus
  import opened Cluster
  import opened ClusterInv

  /** The protocol advanced from `p` to `p'` by a step of `v` that left it in state `s`. */
  ghost predicate Advanced(p: Protocol, p': Protocol, v: nat, s: Server) {
    ProtocolInv(p') && Grows(p, p') && Others(p, p', v) && ServerOk(p', v, s)
  }

  lemma GrowsTrans(p: Protocol, q: Protocol, r: Protocol)
    requires Grows(p, q) && Grows(q, r)
    ensures Grows(p, r)
  {
  }

  lemma OthersTrans(p: Protocol, q: Protocol, r: Protocol, v: nat)
    requires Grows(p, q) && Grows(q, r) && Others(p, q, v) && Others(q, r, v)
    ensures Others(p, r, v)
  {
    forall u: nat | u < |p.terms| && u != v
      ensures Untouched(p, r, u)
    {
      assert Untouched(p, q, u) && Untouched(q, r, u);
    }
  }

  lemma AdvancedTrans(p: Protocol, q: Protocol, r: Protocol, v: nat, s: Server)
    requires Grows(p, q) && Others(p, q, v) && Advanced(q, r, v, s)
    ensures Advanced(p, r, v, s)
  {
    hide ProtocolInv, ServerOk, Grows, Others;
    GrowsTrans(p, q, r);
    OthersTrans(p, q, r, v);
  }

  /** Everything about the log, its commit index and its applier is as before. */
  predicate SameLogState(s: Server, s': Server) {
    && s'.logs == s.logs && s'.commitIndex == s.commitIndex && s'.lastApplied == s.lastApplied
    && s'.hasSnapshot == s.hasSnapshot && s'.applier == s.applier && s'.service == s.service
    && s'.disk.snapshot == s.disk.snapshot
    && |s'.nextIndex| == |s.nextIndex| && |s'.matchIndex| == |s.matchIndex|
  }

  lemma SameFull(s: Server, s': Server)
    requires SameLogState(s, s') && |s.logs| > 0
    ensures FullOf(s') == FullOf(s)
  {
  }

  lemma SameLogOk(p: Protocol, p': Protocol, v: nat, s: Server, s': Server)
    requires ServerOk(p, v, s) && Grows(p, p') && SameLogState(s, s') && OnDisk(s')
    requires |p'.logs| == |p'.terms| && p'.logs[v] == p.logs[v] && p'.terms[v] == s'.currentTerm && p'.whole == p.whole
    requires s.currentTerm <= s'.currentTerm
    requires VoteLink(p', v, s') && CandidateLink(p', v, s') && LeaderLink(p', v, s')
    ensures ServerOk(p', v, s')
  {
    CoveredLogGrows(p, p', FullOf(s), s.currentTerm, s'.currentTerm, s.commitIndex);
  }

  lemma NoFutureVote(p: Protocol, v: nat, t: nat)
    requires ProtocolInv(p) && v < |p.terms| && p.terms[v] < t
    ensures (v, t) !in p.votes
  {
    hide LogsGood, LeadsGood, StandsGood, LeadersElected, AcksGood, AckersHold, VotersHeld, LeadersHold,
      CommitsConfirmed;
    assert forall k :: k in p.votes ==> GoodVote(p, k, p.votes[k]);
  }

  /** Following the leader of a term that is not older than the own one. */
  lemma FollowStep(p: Protocol, v: nat, s: Server, t: nat)
    requires ProtocolInv(p) && ServerOk(p, v, s) && s.currentTerm <= t
    ensures Advanced(p, Observe(p, v, t), v, Persist(Follow(s, t)))
  {
    hide ProtocolInv, LogLink, ApplyLink, FullOf, CoveredLog;
    var p' := Observe(p, v, t);
    ObserveKeeps(p, v, t);
    if s.currentTerm < t {
      NoFutureVote(p, v, t);
    }
    assert Others(p, p', v);
    SameLogOk(p, p', v, s, Persist(Follow(s, t)));
  }

  /** Seeing a newer term in a reply. */
  lemma StepDownStep(p: Protocol, v: nat, s: Server, t: nat)
    requires ProtocolInv(p) && ServerOk(p, v, s) && s.currentTerm < t
    ensures Advanced(p, Observe(p, v, t), v, StepDown(s, t))
  {
    FollowStep(p, v, s, t);
  }

  /** A step that leaves the protocol where it is. */
  lemma QuietStep(p: Protocol, v: nat, s: Server, s': Server)
    requires ProtocolInv(p) && ServerOk(p, v, s) && SameLogState(s, s') && OnDisk(s')
    requires s'.currentTerm == s.currentTerm && s'.votedFor == s.votedFor
    requires CandidateLink(p, v, s') && LeaderLink(p, v, s')
    ensures Advanced(p, p, v, s')
  {
    hide ProtocolInv;
    SameLogOk(p, p, v, s, s');
  }

  // ---------- Standing for election

  lemma NeverLedLater(p: Protocol, v: nat)
    requires ProtocolInv(p) && v < |p.terms|
    ensures !(p.terms[v] + 1 in p.leaderOf && p.leaderOf[p.terms[v] + 1] == v)
  {
    hide LogsGood, StandsGood, VotesGood, LeadersElected, AcksGood, AckersHold, VotersHeld, LeadersHold,
      CommitsConfirmed, GoodUpTo;
  }

  lemma TimeoutStep(p: Protocol, v: nat, s: Server)
    requires ProtocolInv(p) && ServerOk(p, v, s) && s.role != Leader
    ensures Advanced(p, Stand(p, v), v, StartElection(s, v, |p.terms|).0)
  {
    hide ProtocolInv, LogLink, ApplyLink, FullOf, CoveredLog;
    var p' := Stand(p, v);
    var s' := StartElection(s, v, |p.terms|).0;
    StandKeeps(p, v);
    NeverLedLater(p, v);
    assert Others(p, p', v);
    assert CountedVotes(p', v, s', {v});
    SameLogOk(p, p', v, s, s');
  }

  lemma TimeoutSent(p: Protocol, v: nat, s: Server, m: Message)
    requires LogsGood(p) && ServerOk(p, v, s)
    requires m.VoteRequest? && m.dst in StartElection(s, v, |p.terms|).0.awaiting
    requires m.vote == StartElection(s, v, |p.terms|).1
    ensures MessageOk(Stand(p, v), m)
  {
  }

  // ---------- Voting

  lemma VoteIsUpToDate(p: Protocol, v: nat, s: Server, args: VoteArgs)
    requires ServerOk(p, v, s) && MessageOk(p, VoteRequest(v, args))
    requires IsLogUpToDate(s.logs, args.lastLogTerm, args.lastLogIndex)
    ensures |p.logs[v]| > 0 && UpToDate(p.stands[(args.candidateId, args.term)], p.logs[v])
  {
    assert FullOf(s)[|FullOf(s)| - 1].index == |FullOf(s)| - 1;
  }

  /** Granting a vote in the current term. */
  lemma GrantStep(p: Protocol, v: nat, s: Server, args: VoteArgs)
    requires ProtocolInv(p) && ServerOk(p, v, s) && MessageOk(p, VoteRequest(v, args)) && args.term == s.currentTerm
    requires s.votedFor == -1 && IsLogUpToDate(s.logs, args.lastLogTerm, args.lastLogIndex)
    ensures Advanced(p, Cast(p, v, args.candidateId), v, Persist(s.(votedFor := args.candidateId)))
    ensures VotedFor(Cast(p, v, args.candidateId), v, args.term, args.candidateId)
  {
    hide ProtocolInv, LogLink, ApplyLink, FullOf, CoveredLog, CandidateLink, LeaderLink, Local;
    var p' := Cast(p, v, args.candidateId);
    var s' := Persist(s.(votedFor := args.candidateId));
    VoteIsUpToDate(p, v, s, args);
    CastKeeps(p, v, args.candidateId);
    assert Others(p, p', v);
    VoteCastLinks(p, v, s, s', args.candidateId);
    SameLogOk(p, p', v, s, s');
  }

  lemma VoteCastLinks(p: Protocol, v: nat, s: Server, s': Server, c: nat)
    requires v < |p.terms| == |p.logs| && CandidateLink(p, v, s) && LeaderLink(p, v, s) && Grows(p, Cast(p, v, c))
    requires s' == Persist(s.(votedFor := c))
    ensures CandidateLink(Cast(p, v, c), v, s') && LeaderLink(Cast(p, v, c), v, s')
  {
    var p' := Cast(p, v, c);
    if s.role == Candidate {
      var q :| CountedVotes(p, v, s, q);
      assert CountedVotes(p', v, s', q);
    }
    if s.role == Leader {
      forall j | 0 <= j < |s.matchIndex|
        ensures MatchOk(p', s.currentTerm, j, s.matchIndex[j])
      {
        MatchGrows(p, p', s.currentTerm, j, s.matchIndex[j]);
      }
    }
  }

  lemma SameTermVote(p: Protocol, v: nat, s: Server, args: VoteArgs) returns (p': Protocol)
    requires ProtocolInv(p) && ServerOk(p, v, s) && MessageOk(p, VoteRequest(v, args)) && args.term == s.currentTerm
    ensures Advanced(p, p', v, HandleRequestVote(s, args).0)
    ensures HandleRequestVote(s, args).1.granted ==> VotedFor(p', v, args.term, args.candidateId)
    ensures p'.whole == p.whole
  {
    hide ProtocolInv, ServerOk, Advanced;
    ShapeOf(p, v, s);
    if s.votedFor == -1 && IsLogUpToDate(s.logs, args.lastLogTerm, args.lastLogIndex) {
      p' := Cast(p, v, args.candidateId);
      GrantStep(p, v, s, args);
    } else {
      p' := p;
      var s' := HandleRequestVote(s, args).0;
      assert s' == Persist(s);
      PersistStep(p, v, s);
    }
  }

  lemma ShapeOf(p: Protocol, v: nat, s: Server)
    requires ServerOk(p, v, s)
    ensures v < |p.terms| == |p.logs| && p.terms[v] == s.currentTerm && LogShape(s.logs)
    ensures VoteLink(p, v, s) && Local(s, |p.terms|)
  {
  }

  lemma PersistStep(p: Protocol, v: nat, s: Server)
    requires ProtocolInv(p) && ServerOk(p, v, s)
    ensures Advanced(p, p, v, Persist(s))
  {
    hide ProtocolInv, LogLink, ApplyLink, FullOf, CoveredLog, CandidateLink, LeaderLink, Advanced;
    PersistLinks(p, v, s);
    QuietStep(p, v, s, Persist(s));
  }

  lemma PersistLinks(p: Protocol, v: nat, s: Server)
    requires CandidateLink(p, v, s) && LeaderLink(p, v, s)
    ensures CandidateLink(p, v, Persist(s)) && LeaderLink(p, v, Persist(s))
  {
    if s.role == Candidate {
      var q :| CountedVotes(p, v, s, q);
      assert CountedVotes(p, v, Persist(s), q);
    }
  }

  lemma VoteStep(p: Protocol, v: nat, s: Server, args: VoteArgs) returns (p': Protocol)
    requires ProtocolInv(p) && ServerOk(p, v, s) && MessageOk(p, VoteRequest(v, args))
    ensures Advanced(p, p', v, HandleRequestVote(s, args).0)
    ensures HandleRequestVote(s, args).1.granted ==> VotedFor(p', v, args.term, args.candidateId)
    ensures p'.whole == p.whole
  {
    hide ProtocolInv, ServerOk, Grows, Others;
    ShapeOf(p, v, s);
    if args.term < s.currentTerm {
      p' := p;
      PersistStep(p, v, s);
    } else if args.term == s.currentTerm {
      p' := SameTermVote(p, v, s, args);
    } else {
      var q := Observe(p, v, args.term);
      var s1 := Persist(Follow(s, args.term));
      FollowStep(p, v, s, args.term);
      MessageGrows(p, q, VoteRequest(v, args));
      p' := SameTermVote(q, v, s1, args);
      assert HandleRequestVote(s1, args) == HandleRequestVote(s, args);
      AdvancedTrans(p, q, p', v, HandleRequestVote(s, args).0);
    }
  }

  // ---------- Counting votes

  /** Election Safety, section 5.2 of the Raft paper: a term has one leader. */
  lemma OneLeaderPerTerm(p: Protocol, c: nat, d: nat, t: nat)
    requires ElectedBy(p, c, t) && ElectedBy(p, d, t)
    ensures c == d
  {
    var q :| VoteQuorum(p, q, c, t);
    var r :| VoteQuorum(p, r, d, t);
    var v := QuorumsMeet(|p.terms|, q, r);
    assert VotedFor(p, v, t, c) && VotedFor(p, v, t, d);
  }

  /** A server that wins an election holds, in full, the log it votes with. */
  lemma WinnerIsWhole(p: Protocol, v: nat, s: Server)
    requires ProtocolInv(p) && ServerOk(p, v, s) && s.role == Candidate
    requires ElectedBy(p, v, s.currentTerm) && s.currentTerm !in p.lead
    ensures FullOf(s) == p.logs[v]
  {
    hide ProtocolInv, Local, ApplyLink, VoteLink, LeaderLink, FullOf;
    ShapeOf(p, v, s);
    var f, w := FullOf(s), p.logs[v];
    LocalFacts(s, |p.terms|);
    if s.commitIndex > 0 {
      var u: nat, i: nat :| Reaches(p, u, i, s.currentTerm, s.commitIndex) && u in p.lead
                              && Agree(f, p.lead[u], s.commitIndex + 1);
      WinnerHoldsCommit(p, v, u, i);
    } else {
      DummyFirst(p, v);
    }
    assert forall k :: 0 <= k < |f| ==> f[k] == w[k];
  }

  lemma LocalFacts(s: Server, n: nat)
    requires Local(s, n)
    ensures LogShape(s.logs) && |FullOf(s)| == LastIndex(s.logs) + 1 && FullOf(s)[0] == Dummy
    ensures DummyIndex(s.logs) <= s.commitIndex <= LastIndex(s.logs)
    ensures FullOf(s)[..DummyIndex(s.logs) + 1] == s.disk.snapshot
    ensures FullOf(s)[DummyIndex(s.logs)].term == s.logs[0].term
    ensures forall k :: DummyIndex(s.logs) < k < |FullOf(s)| ==> FullOf(s)[k] == GetEntry(s.logs, k)
  {
  }

  lemma DummyFirst(p: Protocol, v: nat)
    requires ProtocolInv(p) && v < |p.logs|
    ensures |p.logs[v]| > 0 && p.logs[v][0] == Dummy
  {
    hide LeadsGood, StandsGood, VotesGood, LeadersElected, AcksGood, AckersHold, VotersHeld, LeadersHold,
      CommitsConfirmed;
    assert GoodUpTo(p.logs[v], p.lead, p.terms[v]);
  }

  lemma WinnerHoldsCommit(p: Protocol, c: nat, t: nat, i: nat)
    requires ProtocolInv(p)
    requires c < |p.terms| == |p.logs| && (c, p.terms[c]) in p.stands && p.stands[(c, p.terms[c])] == p.logs[c]
    requires ElectedBy(p, c, p.terms[c]) && (t, i) in p.commits && t < p.terms[c]
    ensures Own(p, t, i) && Agree(p.logs[c], p.lead[t], i + 1)
  {
    hide LogsGood, LeadsGood, StandsGood, VotesGood, LeadersElected, AcksGood, AckersHold, VotersHeld, LeadersHold;
    assert Own(p, t, i) && Confirmed(p, t, i);
    ConfirmedIsChoosable(p, t, i);
    WinnerHolds(p, c, t, i);
  }

  /** A counted vote is a new one. */
  lemma VoteCounted(p: Protocol, v: nat, s: Server, s': Server, src: nat)
    requires CandidateLink(p, v, s) && s.role == Candidate && src in s.awaiting && src < |p.terms|
    requires VotedFor(p, src, s.currentTerm, v)
    requires s' == s.(awaiting := s.awaiting - {src}, grantedVotes := s.grantedVotes + 1)
    ensures CandidateLink(p, v, s')
    ensures s'.grantedVotes > |p.terms| / 2 ==> ElectedBy(p, v, s.currentTerm)
  {
    var q :| CountedVotes(p, v, s, q);
    assert CountedVotes(p, v, s', q + {src});
    if s'.grantedVotes > |p.terms| / 2 {
      assert VoteQuorum(p, q + {src}, v, s.currentTerm);
    }
  }

  lemma UnledTerm(p: Protocol, v: nat, t: nat)
    requires ProtocolInv(p) && ElectedBy(p, v, t) && !(t in p.leaderOf && p.leaderOf[t] == v)
    ensures t !in p.leaderOf && t !in p.lead
  {
    hide LogsGood, StandsGood, VotesGood, AcksGood, AckersHold, VotersHeld, LeadersHold, CommitsConfirmed, GoodUpTo,
      ElectedBy;
    if t in p.lead {
      OneLeaderPerTerm(p, v, p.leaderOf[t], t);
    }
  }

  lemma ElectStep(p: Protocol, v: nat, s: Server)
    requires ProtocolInv(p) && ServerOk(p, v, s) && s.role == Candidate && ElectedBy(p, v, s.currentTerm)
    ensures Advanced(p, Elect(p, v), v, BecomeLeader(s, |p.terms|))
  {
    hide ProtocolInv, LogLink, ApplyLink, CoveredLog, FullOf, ElectedBy;
    DummyFirst(p, v);
    var p' := Elect(p, v);
    UnledTerm(p, v, s.currentTerm);
    WinnerIsWhole(p, v, s);
    ElectKeeps(p, v);
    assert Others(p, p', v);
    LocalFacts(s, |p.terms|);
    SameFull(s, BecomeLeader(s, |p.terms|));
    SameLogOk(p, p', v, s, BecomeLeader(s, |p.terms|));
  }

  lemma VoteReturnedStep(p: Protocol, v: nat, s: Server, src: nat, term: nat, reply: VoteReply) returns (p': Protocol)
    requires ProtocolInv(p) && ServerOk(p, v, s) && MessageOk(p, VoteAnswer(v, src, term, reply))
    requires term == s.currentTerm && s.role == Candidate ==> src in s.awaiting
    ensures |s.logs| > 0 && Advanced(p, p', v, VoteReturned(s, |p.terms|, src, term, reply))
    ensures p'.whole == p.whole
  {
    hide ProtocolInv, LogLink, ApplyLink, CoveredLog, FullOf, ElectedBy, Advanced, Local;
    ShapeOf(p, v, s);
    p' := p;
    if s.currentTerm == term && s.role == Candidate {
      if reply.granted {
        var s1 := s.(awaiting := s.awaiting - {src}, grantedVotes := s.grantedVotes + 1);
        VoteCounted(p, v, s, s1, src);
        QuietOnDisk(p, v, s, s1);
        if s1.grantedVotes > |p.terms| / 2 {
          DummyFirst(p, v);
          p' := Elect(p, v);
          ElectStep(p, v, s1);
        }
      } else {
        var s1 := s.(awaiting := s.awaiting - {src});
        FewerAwaited(p, v, s, src);
        QuietOnDisk(p, v, s, s1);
        if reply.term > s.currentTerm {
          p' := Observe(p, v, reply.term);
          StepDownStep(p, v, s1, reply.term);
        }
      }
    } else {
      QuietOnDisk(p, v, s, s);
    }
  }

  lemma FewerAwaited(p: Protocol, v: nat, s: Server, src: nat)
    requires CandidateLink(p, v, s)
    ensures CandidateLink(p, v, s.(awaiting := s.awaiting - {src}))
  {
    if s.role == Candidate {
      var q :| CountedVotes(p, v, s, q);
      assert CountedVotes(p, v, s.(awaiting := s.awaiting - {src}), q);
    }
  }

  /** Only the vote count of a candidate changes. */
  lemma QuietOnDisk(p: Protocol, v: nat, s: Server, s': Server)
    requires ProtocolInv(p) && ServerOk(p, v, s) && CandidateLink(p, v, s')
    requires s' == s.(awaiting := s'.awaiting, grantedVotes := s'.grantedVotes)
    ensures ServerOk(p, v, s') && Advanced(p, p, v, s')
  {
    hide ProtocolInv, LogLink, ApplyLink, CoveredLog, CandidateLink;
    QuietStep(p, v, s, s');
  }
}
