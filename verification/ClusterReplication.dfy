/** Steps that replicate and commit entries keep the invariant. */
module ClusterReplication {
  import opened Wrappers
  import opened RaftTypes
  import opened RaftLog
  import opened RaftServer
  import opened Consensus
  import opened ClusterInv
  import opened ClusterElections

  // ---------- The service's view does not depend on the uncommitted part of the log

  lemma {:induction false} ChainAgrees(f: Log, g: Log, queue: seq<ApplyMsg>, a: nat, upTo: nat)
    requires Chain(f, queue, a, upTo) && Agree(f, g, upTo + 1)
    ensures Chain(g, queue, a, upTo)
    decreases |queue|
  {
    if queue != [] {
      match queue[0]
      case CommandMsg(e) => ChainAgrees(f, g, queue[1..], a + 1, upTo);
      case SnapshotMsg(snap, index) =>
        ChainAgrees(f, g, queue[1..], index, upTo);
        assert f[..index + 1] == g[..index + 1];
    }
  }

  predicate SameApplier(s: Server, s': Server) {
    && s'.lastApplied == s.lastApplied && s'.hasSnapshot == s.hasSnapshot
    && s'.applier == s.applier && s'.service == s.service
  }

  lemma ApplyLinkStable(s: Server, s': Server)
    requires ApplyLink(s) && SameApplier(s, s')
    requires |s'.logs| > 0 && DummyIndex(s'.logs) == DummyIndex(s.logs)
    requires s.commitIndex <= s'.commitIndex < |FullOf(s')|
    requires Agree(FullOf(s), FullOf(s'), s.commitIndex + 1)
    ensures ApplyLink(s')
  {
    var f, f' := FullOf(s), FullOf(s');
    assert f[..|s.service.applied|] == f'[..|s.service.applied|];
    assert Agree(f, f', s.applier.upTo + 1);
    ChainAgrees(f, f', Pending(s), s.service.received, s.applier.upTo);
  }

  // ---------- Commands

  lemma StartShape(s: Server, n: nat, command: Command)
    requires Local(s, n) && s.role == Leader
    ensures Local(Start(s, command), n)
    ensures FullOf(Start(s, command)) == FullOf(s) + [Entry(|FullOf(s)|, s.currentTerm, command)]
  {
    var s' := Start(s, command);
    var e := Entry(LastIndex(s.logs) + 1, s.currentTerm, command);
    assert s'.logs[1..] == s.logs[1..] + [e];
    assert FullOf(s') == FullOf(s) + [e];
  }

  lemma ClientStep(p: Protocol, v: nat, s: Server, command: Command) returns (p': Protocol)
    requires ProtocolInv(p) && ServerOk(p, v, s)
    ensures |s.logs| > 0 && Advanced(p, p', v, Start(s, command))
    ensures p'.whole == p.whole
  {
    hide ProtocolInv, CoveredLog, FullOf, MatchOk, Local, ApplyLink, Grows;
    ShapeOf(p, v, s);
    if s.role != Leader {
      p' := p;
      QuietOnDisk(p, v, s, s);
    } else {
      var s' := Start(s, command);
      var e := Entry(|p.logs[v]|, s.currentTerm, command);
      StartShape(s, |p.terms|, command);
      LocalFacts(s, |p.terms|);
      p' := Extend(p, v, e);
      ExtendKeeps(p, v, e);
      OneLeads(p, p', v);
      ExtendedOk(p, p', v, s, s', e);
    }
  }

  lemma ExtendedOk(p: Protocol, p': Protocol, v: nat, s: Server, s': Server, e: Entry)
    requires ServerOk(p, v, s) && s.role == Leader && Grows(p, p') && CanExtend(p, v, e) && p' == Extend(p, v, e)
    requires Local(s', |p.terms|) && FullOf(s') == FullOf(s) + [e]
    requires s' == s.(logs := s'.logs, disk := s'.disk) && DummyIndex(s'.logs) == DummyIndex(s.logs)
    ensures ServerOk(p', v, s')
  {
    hide CoveredLog, FullOf, MatchOk, Local, ApplyLink;
    LocalFacts(s, |p.terms|);
    LocalFacts(s', |p.terms|);
    CoveredLogGrows(p, p', FullOf(s), s.currentTerm, s.currentTerm, s.commitIndex);
    CoveredLogAgrees(p', FullOf(s), FullOf(s'), s.currentTerm, s.commitIndex);
    ApplyLinkStable(s, s');
    forall j | 0 <= j < |s.matchIndex|
      ensures MatchOk(p', s.currentTerm, j, s.matchIndex[j])
    {
      MatchGrows(p, p', s.currentTerm, j, s.matchIndex[j]);
    }
  }

  lemma OneLeads(p: Protocol, p': Protocol, c: nat)
    requires c < |p.terms| == |p.logs| && |p'.terms| == |p'.logs| == |p.terms|
    requires p'.terms == p.terms && p'.votes == p.votes && p'.leaderOf == p.leaderOf
    requires p.terms[c] in p.leaderOf && p.leaderOf[p.terms[c]] == c
    requires forall u :: 0 <= u < |p.logs| && u != c ==> p'.logs[u] == p.logs[u]
    requires forall t :: t in p.lead && t != p.terms[c] ==> t in p'.lead && p'.lead[t] == p.lead[t]
    ensures Others(p, p', c)
  {
  }

  lemma CoveredLogAgrees(p: Protocol, f: Log, g: Log, t: nat, m: nat)
    requires CoveredLog(p, f, t, m) && Agree(f, g, m + 1)
    ensures CoveredLog(p, g, t, m)
  {
    if m > 0 {
      var u: nat, i: nat :| Reaches(p, u, i, t, m) && u in p.lead && Agree(f, p.lead[u], m + 1);
      assert Reaches(p, u, i, t, m) && Agree(g, p.lead[u], m + 1);
    }
  }

  // ---------- Rounds

  lemma CoveredBelow(p: Protocol, f: Log, t: nat, m: nat, k: nat)
    requires CoveredLog(p, f, t, m) && k <= m
    ensures Covered(p, t, k)
  {
    if k > 0 {
      var u: nat, i: nat :| Reaches(p, u, i, t, m) && u in p.lead && Agree(f, p.lead[u], m + 1);
      assert Reaches(p, u, i, t, k);
    }
  }

  /** A leader's round never panics, and what it sends agrees with its log. */
  lemma SentOk(p: Protocol, v: nat, s: Server, peer: nat)
    requires ServerOk(p, v, s) && peer < |p.terms|
    ensures CanSend(s, peer)
    ensures Send(s, v, peer).Append? ==> AppendOk(p, Send(s, v, peer).append)
    ensures Send(s, v, peer).Install? ==> InstallOk(p, Send(s, v, peer).install)
  {
    hide CoveredLog, Covered, Local, ApplyLink, VoteLink, CandidateLink, LogLink, FullOf;
    ShapeOf(p, v, s);
    LocalFacts(s, |p.terms|);
    SendShape(s, |p.terms|, peer);
    if s.role == Leader {
      CoveredBelow(p, FullOf(s), s.currentTerm, s.commitIndex, s.commitIndex);
      CoveredBelow(p, FullOf(s), s.currentTerm, s.commitIndex, DummyIndex(s.logs));
    }
  }

  lemma SendShape(s: Server, n: nat, peer: nat)
    requires Local(s, n) && peer < n && s.role == Leader ==> s.nextIndex[peer] <= |FullOf(s)|
    requires Local(s, n) && peer < n
    ensures CanSend(s, peer)
    ensures Send(s, 0, peer).Append? ==>
      var args := Send(s, 0, peer).append;
      && args.prevLogIndex < |FullOf(s)|
      && args.entries == FullOf(s)[args.prevLogIndex + 1..]
      && args.prevLogTerm == FullOf(s)[args.prevLogIndex].term
  {
    if s.role == Leader && s.nextIndex[peer] > DummyIndex(s.logs) {
      var prev := s.nextIndex[peer] - 1;
      assert s.logs[prev + 1 - DummyIndex(s.logs)..] == FullOf(s)[prev + 1..];
    }
  }

  // ---------- Receiving entries

  /** What a server has committed is in the log of every leader it may hear from. */
  lemma CommittedInLead(p: Protocol, f: Log, t: nat, m: nat, u: nat)
    requires ProtocolInv(p) && CoveredLog(p, f, t, m) && u in p.lead && t <= u && |f| > 0 && f[0] == Dummy
    ensures Agree(f, p.lead[u], m + 1)
  {
    hide ProtocolInv;
    LeadStarts(p, u);
    if m > 0 {
      var t': nat, i: nat :| Reaches(p, t', i, t, m) && t' in p.lead && Agree(f, p.lead[t'], m + 1);
      CommitAgrees(p, t', i, u);
    }
  }

  lemma CommitAgrees(p: Protocol, t: nat, i: nat, u: nat)
    requires ProtocolInv(p) && (t, i) in p.commits && t <= u && u in p.lead
    ensures Own(p, t, i) && Agree(p.lead[u], p.lead[t], i + 1)
  {
    hide LogsGood, LeadsGood, StandsGood, VotesGood, LeadersElected, AcksGood, AckersHold, VotersHeld, LeadersHold,
      CommitsConfirmed;
    CommitHeld(p, t, i, u);
  }

  lemma LeadStarts(p: Protocol, u: nat)
    requires ProtocolInv(p) && u in p.lead
    ensures u >= 1 && |p.lead[u]| > 0 && p.lead[u][0] == Dummy && GoodUpTo(p.lead[u], p.lead, u)
  {
    hide LogsGood, StandsGood, VotesGood, LeadersElected, AcksGood, AckersHold, VotersHeld, LeadersHold,
      CommitsConfirmed;
  }

  /** Log Matching, section 5.3 of the Raft paper, between two logs of good shape. */
  lemma GoodLogsMatch(w: Log, x: Log, lead: map<nat, Log>, k: nat)
    requires GoodLog(w, lead) && GoodLog(x, lead) && k < |w| && k < |x| && w[k].term == x[k].term
    ensures Agree(w, x, k + 1)
  {
  }

  /** The consistency check of a request vouches for the whole prefix, grafted or not. */
  lemma PrefixMatches(p: Protocol, v: nat, s: Server, k: nat)
    requires ProtocolInv(p) && ServerOk(p, v, s) && s.currentTerm in p.lead
    requires DummyIndex(s.logs) <= k < |FullOf(s)| && k < |p.lead[s.currentTerm]|
    requires FullOf(s)[k].term == p.lead[s.currentTerm][k].term
    ensures Agree(FullOf(s), p.lead[s.currentTerm], k + 1)
    ensures k > DummyIndex(s.logs) ==> Agree(p.logs[v], p.lead[s.currentTerm], k + 1)
  {
    hide ProtocolInv, CoveredLog, Local, ApplyLink, VoteLink, CandidateLink, LeaderLink, FullOf, GoodLog;
    ShapeOf(p, v, s);
    LocalFacts(s, |p.terms|);
    var f, w, x := FullOf(s), p.logs[v], p.lead[s.currentTerm];
    CommittedInLead(p, f, s.currentTerm, s.commitIndex, s.currentTerm);
    if k > DummyIndex(s.logs) {
      BothGood(p, v, s.currentTerm);
      GoodLogsMatch(w, x, p.lead, k);
    }
  }

  lemma BothGood(p: Protocol, v: nat, t: nat)
    requires ProtocolInv(p) && v < |p.logs| && t in p.lead
    ensures GoodLog(p.logs[v], p.lead) && GoodLog(p.lead[t], p.lead)
  {
    hide StandsGood, VotesGood, LeadersElected, AcksGood, AckersHold, VotersHeld, LeadersHold, CommitsConfirmed;
    assert GoodUpTo(p.logs[v], p.lead, p.terms[v]);
  }

  /** `s` accepts `args`, whose term it follows: the check against its log succeeds. */
  ghost predicate Accepts(p: Protocol, v: nat, s: Server, args: AppendArgs) {
    && ServerOk(p, v, s)
    && AppendOk(p, args)
    && args.term == s.currentTerm
    && DummyIndex(s.logs) <= args.prevLogIndex <= LastIndex(s.logs)
    && GetEntry(s.logs, args.prevLogIndex).term == args.prevLogTerm
  }

  lemma PresentIsSame(s: Server, n: nat, e: Entry)
    requires Local(s, n) && Present(s.logs, e)
    ensures e.index < |FullOf(s)| && FullOf(s)[e.index].term == e.term
  {
    LocalFacts(s, n);
  }

  lemma AppendShape(p: Protocol, args: AppendArgs)
    requires ProtocolInv(p) && AppendOk(p, args)
    ensures Numbered(args.entries, args.prevLogIndex + 1)
    ensures forall k :: 0 <= k < |args.entries| ==> args.entries[k] == p.lead[args.term][args.prevLogIndex + 1 + k]
  {
    hide ProtocolInv, Covered;
    LeadStarts(p, args.term);
  }

  lemma AcceptShape(p: Protocol, v: nat, s: Server, args: AppendArgs)
    requires ProtocolInv(p) && Accepts(p, v, s, args)
    ensures Continues(s.logs, args.entries)
  {
    hide ProtocolInv, Covered, ServerOk;
    ShapeOf(p, v, s);
    AppendShape(p, args);
  }

  /** The log agrees with the leader's up to the last entry before the first missing one. */
  lemma MatchBefore(p: Protocol, v: nat, s: Server, args: AppendArgs, j: nat)
    requires ProtocolInv(p) && Accepts(p, v, s, args)
    requires j == FirstMissing(s.logs, args.entries, 0)
    ensures Agree(FullOf(s), p.lead[args.term], args.prevLogIndex + j + 1)
    ensures args.prevLogIndex + j > DummyIndex(s.logs) ==>
      v < |p.logs| && Agree(p.logs[v], p.lead[args.term], args.prevLogIndex + j + 1)
  {
    hide ProtocolInv, Covered, ServerOk, Local, FullOf;
    ShapeOf(p, v, s);
    LocalFacts(s, |p.terms|);
    AppendShape(p, args);
    if j > 0 {
      PresentIsSame(s, |p.terms|, args.entries[j - 1]);
    }
    PrefixMatches(p, v, s, args.prevLogIndex + j);
  }

  /** Some entry is missing: the log becomes the leader's, up to the last entry sent. */
  lemma SomeMissing(p: Protocol, v: nat, s: Server, args: AppendArgs)
    requires ProtocolInv(p) && Accepts(p, v, s, args) && Continues(s.logs, args.entries)
    requires FirstMissing(s.logs, args.entries, 0) < |args.entries|
    ensures var m := args.prevLogIndex + |args.entries|;
      && Full(s.disk.snapshot, Merge(s.logs, args.entries)) == p.lead[args.term][..m + 1]
      && Differs(p.logs[v], p.lead[args.term], m)
      && s.commitIndex <= m && Agree(FullOf(s), p.lead[args.term][..m + 1], s.commitIndex + 1)
  {
    hide ProtocolInv, Covered, ServerOk, Local, FullOf, Full, Merge, FirstMissing, Differs, Agree, Continues;
    ShapeOf(p, v, s);
    AppendShape(p, args);
    var j := FirstMissing(s.logs, args.entries, 0);
    MergeIs(s.logs, args.entries, j);
    MatchBefore(p, v, s, args, j);
    MergedHere(s, |p.terms|, args.entries, j, p.lead[args.term], args.prevLogIndex + 1);
    MissingDiffers(p, v, s, args.entries[j], args.prevLogIndex + |args.entries|);
  }

  /** An entry of the leader that the log lacks lies beyond what is committed. */
  lemma MissingDiffers(p: Protocol, v: nat, s: Server, e: Entry, m: nat)
    requires ProtocolInv(p) && ServerOk(p, v, s) && s.currentTerm in p.lead && !Present(s.logs, e)
    requires DummyIndex(s.logs) < e.index <= m < |p.lead[s.currentTerm]| && e == p.lead[s.currentTerm][e.index]
    ensures Differs(p.logs[v], p.lead[s.currentTerm], m)
    ensures s.commitIndex < e.index && Agree(FullOf(s), p.lead[s.currentTerm][..m + 1], s.commitIndex + 1)
  {
    hide ProtocolInv, CoveredLog, VoteLink, CandidateLink, LeaderLink, ApplyLink, Local, FullOf;
    ShapeOf(p, v, s);
    LocalFacts(s, |p.terms|);
    CommittedInLead(p, FullOf(s), s.currentTerm, s.commitIndex, s.currentTerm);
  }

  lemma MergedHere(s: Server, n: nat, entries: Log, j: nat, x: Log, first: nat)
    requires Local(s, n) && Continues(s.logs, entries) && j == FirstMissing(s.logs, entries, 0) < |entries|
    requires entries[j].index == first + j && Agree(FullOf(s), x, first + j)
    requires first + |entries| <= |x| && entries == x[first..first + |entries|]
    requires DummyIndex(s.logs) < first + j <= LastIndex(s.logs) + 1
    ensures Full(s.disk.snapshot, Merge(s.logs, entries)) == x[..first + |entries|]
  {
    hide Full, FullOf, Local, Merge, Agree, FirstMissing, Continues, LastIndex;
    MergeIs(s.logs, entries, j);
    JoinedSizes(s, n);
    var es := entries[j..];
    assert es == x[first + j..first + j + |es|];
    CutAndAppend(s.disk.snapshot, s.logs, es, x, first + j);
  }

  lemma MergeIs(l: Log, entries: Log, j: nat)
    requires Continues(l, entries) && j == FirstMissing(l, entries, 0) < |entries|
    ensures DummyIndex(l) < entries[j].index <= LastIndex(l) + 1
    ensures Merge(l, entries) == l[..entries[j].index - DummyIndex(l)] + entries[j..]
  {
    MissingInReach(l, entries, j);
  }

  lemma JoinedSizes(s: Server, n: nat)
    requires Local(s, n)
    ensures |s.disk.snapshot| == DummyIndex(s.logs) + 1 && LastIndex(s.logs) + 1 == DummyIndex(s.logs) + |s.logs|
    ensures FullOf(s) == Full(s.disk.snapshot, s.logs)
  {
  }

  lemma CutAndAppend(snapshot: Log, l: Log, es: Log, x: Log, idx: nat)
    requires |l| > 0 && |snapshot| <= idx < |snapshot| + |l|
    requires Agree(Full(snapshot, l), x, idx) && idx + |es| <= |x| && es == x[idx..idx + |es|]
    ensures Full(snapshot, l[..idx + 1 - |snapshot|] + es) == x[..idx + |es|]
  {
    var l' := l[..idx + 1 - |snapshot|] + es;
    var r := Full(snapshot, l');
    assert l'[1..] == l[1..idx + 1 - |snapshot|] + es;
    assert r[..idx] == Full(snapshot, l)[..idx];
    assert r[idx..] == es == x[idx..idx + |es|];
    assert r == r[..idx] + r[idx..];
  }

  // ---------- The follower's state after an accepted request

  /** A commit index that the leader vouches for is covered by the log the leader sent. */
  lemma CoveredByLead(p: Protocol, f: Log, t: nat, m: nat, k: nat)
    requires ProtocolInv(p) && t in p.lead && Agree(f, p.lead[t], m + 1) && Covered(p, t, k) && k <= m
    ensures CoveredLog(p, f, t, k)
  {
    hide ProtocolInv;
    if k > 0 {
      var u: nat, i: nat :| Reaches(p, u, i, t, k);
      CommitAgrees(p, u, i, t);
      assert Reaches(p, u, i, t, k) && Agree(f, p.lead[u], k + 1);
    }
  }

  /** The log and the commit index of a follower changed; the rest did not. */
  lemma FollowerOk(p: Protocol, p': Protocol, v: nat, s: Server, s': Server)
    requires ServerOk(p, v, s) && s.role == Follower && v < |p'.terms| == |p'.logs| == |p.terms|
    requires p'.terms[v] == p.terms[v] && p'.votes == p.votes
    requires s' == s.(logs := s'.logs, commitIndex := s'.commitIndex, disk := s'.disk)
    requires s'.disk == Disk(Some(Saved(s.currentTerm, s.votedFor, s'.logs)), s.disk.snapshot)
    requires LogShape(s'.logs) && s'.logs[0] == s.logs[0]
    requires Agree(FullOf(s), FullOf(s'), s.commitIndex + 1)
    requires forall i :: 0 <= i < |FullOf(s')| ==> FullOf(s')[i].index == i
    requires s.commitIndex <= s'.commitIndex <= LastIndex(s'.logs)
    requires LogLink(FullOf(s'), DummyIndex(s.logs), p'.logs[v], p'.whole)
    requires CoveredLog(p', FullOf(s'), s.currentTerm, s'.commitIndex)
    ensures ServerOk(p', v, s')
  {
    hide CoveredLog, ApplyLink, LogLink;
    assert Local(s', |p.terms|);
    LocalFacts(s', |p.terms|);
    ApplyLinkStable(s, s');
  }

  function NewCommit(s: Server, leaderCommit: nat, last: nat): nat {
    if leaderCommit > s.commitIndex then Min(leaderCommit, last) else s.commitIndex
  }

  lemma NewCommitCovered(p: Protocol, s: Server, f: Log, args: AppendArgs)
    requires ProtocolInv(p) && AppendOk(p, args) && args.term == s.currentTerm
    requires Agree(f, p.lead[args.term], args.prevLogIndex + |args.entries| + 1)
    requires CoveredLog(p, f, s.currentTerm, s.commitIndex)
    ensures CoveredLog(p, f, s.currentTerm, NewCommit(s, args.leaderCommit, |f| - 1))
  {
    hide ProtocolInv, CoveredLog, Covered;
    if args.leaderCommit > s.commitIndex {
      CoveredByLead(p, f, args.term, args.prevLogIndex + |args.entries|, args.leaderCommit);
    }
  }

  /** What `MatchAppend` makes of `s` once the check has succeeded, written to disk. */
  function Accepted(s: Server, l: Log, leaderCommit: nat): Server
    requires |l| > 0
  {
    s.(logs := l, commitIndex := NewCommit(s, leaderCommit, LastIndex(l)),
       disk := Disk(Some(Saved(s.currentTerm, s.votedFor, l)), s.disk.snapshot))
  }

  lemma AcceptedState(p: Protocol, v: nat, s: Server, args: AppendArgs)
    requires ProtocolInv(p) && Accepts(p, v, s, args)
    ensures Continues(s.logs, args.entries) && CanHandleAppend(s, args)
    ensures MatchAppend(s, args).1 == AppendReply(s.currentTerm, true, 0)
    ensures Persist(MatchAppend(s, args).0) == Accepted(s, Merge(s.logs, args.entries), args.leaderCommit)
  {
    hide ProtocolInv, ServerOk, AppendOk, Merge;
    ShapeOf(p, v, s);
    AcceptShape(p, v, s, args);
    AppendShape(p, args);
  }

  /** `l` is what the follower may hold after `args`. */
  ghost predicate GoodMerge(p: Protocol, v: nat, s: Server, l: Log, args: AppendArgs) {
    && LogShape(l) && |s.logs| > 0 && l[0] == s.logs[0]
    && |Full(s.disk.snapshot, l)| == LastIndex(l) + 1
    && v < |p.logs|
    && args.term in p.lead
    && Agree(Full(s.disk.snapshot, l), p.lead[args.term], args.prevLogIndex + |args.entries| + 1)
    && Agree(FullOf(s), Full(s.disk.snapshot, l), s.commitIndex + 1)
    && (forall i :: 0 <= i < |Full(s.disk.snapshot, l)| ==> Full(s.disk.snapshot, l)[i].index == i)
    && LogLink(Full(s.disk.snapshot, l), DummyIndex(s.logs), p.logs[v], p.whole)
  }

  lemma AcceptedOk(p: Protocol, p': Protocol, v: nat, s: Server, l: Log, args: AppendArgs)
    requires ServerOk(p, v, s) && s.role == Follower && AppendOk(p', args) && args.term == s.currentTerm
    requires ProtocolInv(p') && Grows(p, p') && p'.terms == p.terms && p'.votes == p.votes && |p'.logs| == |p.logs|
    requires GoodMerge(p', v, s, l, args)
    ensures ServerOk(p', v, Accepted(s, l, args.leaderCommit))
  {
    hide ProtocolInv, CoveredLog, Covered, LogLink, ApplyLink, CandidateLink, LeaderLink, VoteLink, Agree, Full;
    var f' := Full(s.disk.snapshot, l);
    var s' := Accepted(s, l, args.leaderCommit);
    assert FullOf(s') == f';
    CoveredLogGrows(p, p', FullOf(s), s.currentTerm, s.currentTerm, s.commitIndex);
    CoveredLogAgrees(p', FullOf(s), f', s.currentTerm, s.commitIndex);
    NewCommitCovered(p', s, f', args);
    AgreeSize(FullOf(s), f', s.commitIndex + 1);
    FollowerOk(p, p', v, s, s');
  }

  lemma AgreeSize(f: Log, g: Log, k: nat)
    requires Agree(f, g, k)
    ensures k <= |f| && k <= |g|
  {
  }

  lemma ConfirmIfNew(p: Protocol, v: nat, s: Server, m: nat) returns (p': Protocol)
    requires ProtocolInv(p) && ServerOk(p, v, s) && s.currentTerm in p.lead && m < |p.lead[s.currentTerm]|
    requires m <= s.commitIndex || Agree(p.logs[v], p.lead[s.currentTerm], m + 1)
    ensures ProtocolInv(p') && Grows(p, p') && Others(p, p', v)
    ensures p'.terms == p.terms && p'.logs == p.logs && p'.votes == p.votes && p'.lead == p.lead && p'.whole == p.whole
    ensures MatchOk(p', s.currentTerm, v, m)
  {
    hide ProtocolInv, FullOf, CoveredLog, Covered, CandidateLink, LeaderLink, ApplyLink, VoteLink, LogLink, Local;
    ShapeOf(p, v, s);
    p' := p;
    if !Acked(p, s.currentTerm, v, m) {
      if m <= s.commitIndex {
        CoveredBelow(p, FullOf(s), s.currentTerm, s.commitIndex, m);
      } else {
        p' := Confirm(p, v, m);
        ConfirmKeeps(p, v, m);
      }
    }
  }

  lemma KeepStep(p: Protocol, v: nat, s: Server, args: AppendArgs) returns (p': Protocol)
    requires ProtocolInv(p) && Accepts(p, v, s, args) && s.role == Follower
    requires FirstMissing(s.logs, args.entries, 0) == |args.entries|
    ensures Advanced(p, p', v, Accepted(s, s.logs, args.leaderCommit))
    ensures MatchOk(p', args.term, v, args.prevLogIndex + |args.entries|)
    ensures p'.whole == p.whole
  {
    hide ProtocolInv, FullOf, CoveredLog, Covered, CandidateLink, LeaderLink, ApplyLink, VoteLink, LogLink, Local,
      Agree, MatchOk, AppendOk, ServerOk;
    var m := args.prevLogIndex + |args.entries|;
    ShapeOf(p, v, s);
    MatchBefore(p, v, s, args, |args.entries|);
    AppendReach(p, args);
    BaseCommitted(s, |p.terms|);
    p' := ConfirmIfNew(p, v, s, m);
    AppendGrows(p, p', args);
    KeptIsGood(p, p', v, s, args);
    AcceptedOk(p, p', v, s, s.logs, args);
  }

  lemma AppendReach(p: Protocol, args: AppendArgs)
    requires AppendOk(p, args)
    ensures args.term in p.lead && args.prevLogIndex + |args.entries| < |p.lead[args.term]|
  {
  }

  lemma BaseCommitted(s: Server, n: nat)
    requires Local(s, n)
    ensures DummyIndex(s.logs) <= s.commitIndex
  {
  }

  lemma KeptIsGood(p: Protocol, p': Protocol, v: nat, s: Server, args: AppendArgs)
    requires ServerOk(p, v, s) && p'.logs == p.logs && p'.lead == p.lead && p'.whole == p.whole && args.term in p.lead
    requires Agree(FullOf(s), p.lead[args.term], args.prevLogIndex + |args.entries| + 1)
    ensures GoodMerge(p', v, s, s.logs, args)
  {
    hide CoveredLog, CandidateLink, LeaderLink, ApplyLink, VoteLink;
    LocalFacts(s, |p.terms|);
  }

  lemma ReplaceStep(p: Protocol, v: nat, s: Server, args: AppendArgs) returns (p': Protocol)
    requires ProtocolInv(p) && Accepts(p, v, s, args) && s.role == Follower && Continues(s.logs, args.entries)
    requires FirstMissing(s.logs, args.entries, 0) < |args.entries|
    ensures Advanced(p, p', v, Accepted(s, Merge(s.logs, args.entries), args.leaderCommit))
    ensures MatchOk(p', args.term, v, args.prevLogIndex + |args.entries|)
    ensures p'.whole == p.whole
  {
    hide ProtocolInv, FullOf, Full, Covered, ServerOk, Local, AppendOk, Agree, Differs, Merge, CanSetLog, FirstMissing,
      Continues;
    var m := args.prevLogIndex + |args.entries|;
    var l := Merge(s.logs, args.entries);
    ShapeOf(p, v, s);
    SomeMissing(p, v, s, args);
    AppendReach(p, args);
    var x := p.lead[args.term];
    AdoptStep(p, v, s.currentTerm, m);
    var q := SetLog(p, v, x[..m + 1]);
    p' := q;
    if !Acked(q, s.currentTerm, v, m) {
      p' := Confirm(q, v, m);
      AdoptedConfirms(q, v, m);
      ConfirmKeeps(q, v, m);
    }
    TwoSteps(p, q, p', v);
    AppendGrows(p, p', args);
    JoinedSizes(s, |p.terms|);
    ReplacedIsGood(p, p', v, s, l, args);
    AcceptedOk(p, p', v, s, l, args);
  }

  lemma AdoptStep(p: Protocol, v: nat, t: nat, m: nat)
    requires ProtocolInv(p) && v < |p.terms| == |p.logs| && p.terms[v] == t && t in p.lead && m < |p.lead[t]|
    requires Differs(p.logs[v], p.lead[t], m)
    ensures ProtocolInv(SetLog(p, v, p.lead[t][..m + 1])) && Grows(p, SetLog(p, v, p.lead[t][..m + 1]))
  {
    hide LogsGood, StandsGood, VotesGood, LeadersElected, AcksGood, AckersHold, VotersHeld, LeadersHold,
      CommitsConfirmed, GoodUpTo, Differs, Grows, CanSetLog;
    CanAdopt(p, v, t, m);
    SetLogKeeps(p, v, p.lead[t][..m + 1]);
  }

  lemma AdoptedConfirms(q: Protocol, v: nat, m: nat)
    requires v < |q.terms| == |q.logs| && q.terms[v] in q.lead && m < |q.lead[q.terms[v]]|
    requires q.logs[v] == q.lead[q.terms[v]][..m + 1] && !Acked(q, q.terms[v], v, m)
    ensures CanConfirm(q, v, m)
  {
  }

  lemma TwoSteps(p: Protocol, q: Protocol, r: Protocol, v: nat)
    requires Grows(p, q) && Grows(q, r) && v < |p.logs| == |p.terms|
    requires q == p.(logs := q.logs) && |q.logs| == |p.logs|
    requires (forall u :: 0 <= u < |p.logs| && u != v ==> q.logs[u] == p.logs[u])
    requires r == q.(acks := r.acks)
    ensures Grows(p, r) && Others(p, r, v)
  {
    GrowsTrans(p, q, r);
  }

  lemma ReplacedIsGood(p: Protocol, p': Protocol, v: nat, s: Server, l: Log, args: AppendArgs)
    requires ProtocolInv(p) && v < |p'.logs| && p'.lead == p.lead && args.term in p.lead
    requires args.prevLogIndex + |args.entries| < |p.lead[args.term]|
    requires p'.logs[v] == p.lead[args.term][..args.prevLogIndex + |args.entries| + 1]
    requires LogShape(l) && |s.logs| > 0 && l[0] == s.logs[0] && |s.disk.snapshot| == DummyIndex(l) + 1
    requires Full(s.disk.snapshot, l) == p'.logs[v]
    requires Agree(FullOf(s), p'.logs[v], s.commitIndex + 1)
    ensures GoodMerge(p', v, s, l, args)
  {
    hide ProtocolInv;
    LeadStarts(p, args.term);
  }

  /** A request of the server's own term, which it follows. */
  lemma FollowedAppendStep(p: Protocol, v: nat, s: Server, args: AppendArgs) returns (p': Protocol)
    requires ProtocolInv(p) && ServerOk(p, v, s) && AppendOk(p, args) && CanHandleAppend(s, args)
    requires s.role == Follower && args.term == s.currentTerm && Persist(s) == s
    ensures Advanced(p, p', v, Persist(MatchAppend(s, args).0))
    ensures AppendAnswerOk(p', v, args, MatchAppend(s, args).1)
    ensures p'.whole == p.whole
  {
    hide ProtocolInv, ServerOk, AppendOk, Advanced, Merge, MatchOk, Grows;
    ShapeOf(p, v, s);
    p' := p;
    if args.prevLogIndex < DummyIndex(s.logs) || !MatchLog(s.logs, args.prevLogTerm, args.prevLogIndex) {
      PersistStep(p, v, s);
      RejectionOk(p, v, s, args);
    } else {
      AcceptedState(p, v, s, args);
      if FirstMissing(s.logs, args.entries, 0) == |args.entries| {
        p' := KeepStep(p, v, s, args);
        assert Merge(s.logs, args.entries) == s.logs by { MergeKeeps(s.logs, args.entries); }
      } else {
        p' := ReplaceStep(p, v, s, args);
      }
      GrewTo(p, p', v, Persist(MatchAppend(s, args).0));
      AppendGrows(p, p', args);
    }
  }

  lemma GrewTo(p: Protocol, p': Protocol, v: nat, s: Server)
    requires Advanced(p, p', v, s)
    ensures Grows(p, p')
  {
  }

  lemma MergeKeeps(l: Log, entries: Log)
    requires Continues(l, entries) && FirstMissing(l, entries, 0) == |entries|
    ensures Merge(l, entries) == l
  {
  }

  /** A rejection points back, but never below the first real entry. */
  lemma RejectionOk(p: Protocol, v: nat, s: Server, args: AppendArgs)
    requires ProtocolInv(p) && ServerOk(p, v, s) && AppendOk(p, args) && CanHandleAppend(s, args)
    requires args.term == s.currentTerm
    requires args.prevLogIndex < DummyIndex(s.logs) || !MatchLog(s.logs, args.prevLogTerm, args.prevLogIndex)
    ensures MatchAppend(s, args).0 == s && !MatchAppend(s, args).1.success
    ensures AppendAnswerOk(p, v, args, MatchAppend(s, args).1)
  {
    hide ProtocolInv, ServerOk, Merge, FullOf, Covered, ConflictFrom;
    ShapeOf(p, v, s);
    LocalFacts(s, |p.terms|);
    LeadStarts(p, args.term);
  }

  lemma AppendStep(p: Protocol, v: nat, s: Server, args: AppendArgs) returns (p': Protocol)
    requires ProtocolInv(p) && ServerOk(p, v, s) && AppendOk(p, args)
    ensures CanHandleAppend(s, args)
    ensures Advanced(p, p', v, HandleAppend(s, args).0)
    ensures AppendAnswerOk(p', v, args, HandleAppend(s, args).1)
    ensures p'.whole == p.whole
  {
    hide ProtocolInv, ServerOk, AppendOk, MatchAppend;
    ShapeOf(p, v, s);
    AppendShape(p, args);
    if args.term < s.currentTerm {
      p' := p;
      PersistStep(p, v, s);
    } else {
      var q := Observe(p, v, args.term);
      var s1 := Persist(Follow(s, args.term));
      FollowStep(p, v, s, args.term);
      AppendGrows(p, q, args);
      p' := FollowedAppendStep(q, v, s1, args);
      PersistCommutes(Follow(s, args.term), args);
      AdvancedTrans(p, q, p', v, HandleAppend(s, args).0);
    }
  }

  lemma PersistCommutes(s: Server, args: AppendArgs)
    requires CanHandleAppend(s, args)
    ensures Persist(MatchAppend(Persist(s), args).0) == Persist(MatchAppend(s, args).0)
    ensures MatchAppend(Persist(s), args).1 == MatchAppend(s, args).1
  {
  }

  // ---------- A leader counting confirmations

  function Holders(matchIndex: seq<nat>, me: nat, i: nat, k: nat): (q: set<nat>)
    requires k <= |matchIndex|
    ensures |q| == Holding(matchIndex, me, i, k)
    ensures forall j: nat :: j in q <==> j < k && j != me && matchIndex[j] >= i
  {
    if k == 0 then {}
    else Holders(matchIndex, me, i, k - 1) + (if k - 1 != me && matchIndex[k - 1] >= i then {k - 1} else {})
  }

  /** An entry of the leader's own term that some earlier commit reaches was committed in this very term. */
  lemma ReachedByOwnTerm(p: Protocol, t: nat, i: nat, u: nat, k: nat)
    requires ProtocolInv(p) && Own(p, t, i) && (u, k) in p.commits && u <= t && i <= k
    ensures u == t && Confirmed(p, t, i)
  {
    hide LogsGood, LeadsGood, StandsGood, VotesGood, LeadersElected, AcksGood, AckersHold, VotersHeld, LeadersHold,
      Confirmed, CommitsConfirmed;
    CommitIs(p, u, k);
    CommitHeld(p, u, k, t);
    TermsAscend(p, u, i, k);
    ConfirmedForth(p, p, t, k, i);
  }

  lemma CommitIs(p: Protocol, u: nat, k: nat)
    requires CommitsConfirmed(p) && (u, k) in p.commits
    ensures Own(p, u, k) && Confirmed(p, u, k)
  {
  }

  lemma TermsAscend(p: Protocol, u: nat, i: nat, k: nat)
    requires LeadsGood(p) && u in p.lead && i <= k < |p.lead[u]|
    ensures p.lead[u][i].term <= p.lead[u][k].term
  {
    assert GoodUpTo(p.lead[u], p.lead, u);
  }

  lemma CommitRuleConfirms(p: Protocol, v: nat, s: Server, i: nat)
    requires ProtocolInv(p) && LeaderLink(p, v, s) && s.role == Leader && |s.matchIndex| == |p.terms| && v < |p.terms|
    requires Own(p, s.currentTerm, i)
    requires Holding(s.matchIndex, v, i, |s.matchIndex|) + 1 > |s.matchIndex| / 2
    ensures Confirmed(p, s.currentTerm, i)
  {
    hide ProtocolInv, FullOf, Own, MatchOk;
    var t := s.currentTerm;
    var q := Holders(s.matchIndex, v, i, |s.matchIndex|) + {v};
    OwnWithin(p, t, i);
    assert Acked(p, t, v, i);
    if j :| j in q && !Acked(p, t, j, i) {
      assert MatchOk(p, t, j, s.matchIndex[j]);
      MatchConfirms(p, t, i, j, s.matchIndex[j]);
    } else {
      assert AckQuorum(p, q, t, i);
    }
  }

  /** A peer that holds the entry without having acknowledged it got it in a committed prefix. */
  lemma MatchConfirms(p: Protocol, t: nat, i: nat, j: nat, m: nat)
    requires ProtocolInv(p) && Own(p, t, i) && MatchOk(p, t, j, m) && i <= m && !Acked(p, t, j, i)
    ensures Confirmed(p, t, i)
  {
    hide ProtocolInv, Own;
    OwnPositive(p, t, i);
    var u: nat, k: nat :| Reaches(p, u, k, t, m);
    ReachedByOwnTerm(p, t, i, u, k);
  }

  lemma OwnWithin(p: Protocol, t: nat, i: nat)
    requires Own(p, t, i)
    ensures t in p.lead && i < |p.lead[t]|
  {
  }

  lemma OwnPositive(p: Protocol, t: nat, i: nat)
    requires ProtocolInv(p) && Own(p, t, i)
    ensures i > 0
  {
    hide ProtocolInv;
    LeadStarts(p, t);
  }

  /** The leader's record of one peer moved. */
  lemma RecordedOk(p: Protocol, v: nat, s: Server, s': Server, peer: nat)
    requires ProtocolInv(p) && ServerOk(p, v, s) && s.role == Leader && peer < |p.terms|
    requires s' == s.(nextIndex := s'.nextIndex, matchIndex := s'.matchIndex)
    requires |s.nextIndex| == |s.matchIndex| == |p.terms|
    requires |s'.nextIndex| == |s.nextIndex| && s'.nextIndex == s.nextIndex[peer := s'.nextIndex[peer]]
    requires |s'.matchIndex| == |s.matchIndex| && s'.matchIndex == s.matchIndex[peer := s'.matchIndex[peer]]
    requires 1 <= s'.nextIndex[peer] <= |p.logs[v]| && MatchOk(p, s.currentTerm, peer, s'.matchIndex[peer])
    ensures ServerOk(p, v, s') && Advanced(p, p, v, s')
  {
    hide ProtocolInv, LogLink, ApplyLink, CoveredLog, CandidateLink, MatchOk, Local;
    ShapeOf(p, v, s);
    SameFull(s, s');
    LocalOnDisk(s, s', |p.terms|);
    SameLogOk(p, p, v, s, s') by { assert CandidateLink(p, v, s') by { NotCandidate(p, v, s'); } }
  }

  lemma LocalOnDisk(s: Server, s': Server, n: nat)
    requires Local(s, n) && s' == s.(nextIndex := s'.nextIndex, matchIndex := s'.matchIndex)
    ensures OnDisk(s')
  {
  }

  lemma NotCandidate(p: Protocol, v: nat, s: Server)
    requires s.role != Candidate
    ensures CandidateLink(p, v, s)
  {
  }

  lemma CommitStep(p: Protocol, v: nat, s: Server, i: nat)
    requires ProtocolInv(p) && ServerOk(p, v, s) && s.role == Leader
    requires s.commitIndex < i <= LastIndex(s.logs) && InLog(s.logs, i) && CommitRule(s, v, i)
    ensures Advanced(p, Commit(p, s.currentTerm, i), v, s.(commitIndex := i))
  {
    hide ProtocolInv, LogLink, ApplyLink, CoveredLog, CandidateLink, MatchOk, Local, FullOf, Grows;
    ShapeOf(p, v, s);
    LocalFacts(s, |p.terms|);
    var p' := Commit(p, s.currentTerm, i);
    CommitRuleConfirms(p, v, s, i);
    CommitKeeps(p, s.currentTerm, i);
    CommittedOk(p, p', v, s, s.(commitIndex := i));
  }

  lemma CommittedOk(p: Protocol, p': Protocol, v: nat, s: Server, s': Server)
    requires ServerOk(p, v, s) && s.role == Leader && Grows(p, p') && p' == Commit(p, s.currentTerm, s'.commitIndex)
    requires s' == s.(commitIndex := s'.commitIndex) && s.commitIndex <= s'.commitIndex <= LastIndex(s.logs)
    ensures ServerOk(p', v, s') && Others(p, p', v)
  {
    hide LogLink, ApplyLink, CoveredLog, CandidateLink, MatchOk;
    LocalFacts(s, |p.terms|);
    assert FullOf(s') == FullOf(s);
    assert CoveredLog(p', FullOf(s), s.currentTerm, s'.commitIndex) by {
      CoveredHere(p', FullOf(s), s.currentTerm, s'.commitIndex);
    }
    ApplyLinkStable(s, s');
    NotCandidate(p', v, s');
    forall j | 0 <= j < |s.matchIndex|
      ensures MatchOk(p', s.currentTerm, j, s.matchIndex[j])
    {
      MatchGrows(p, p', s.currentTerm, j, s.matchIndex[j]);
    }
  }

  lemma CoveredHere(p: Protocol, f: Log, t: nat, i: nat)
    requires (t, i) in p.commits && t in p.lead && f == p.lead[t] && i < |f|
    ensures CoveredLog(p, f, t, i)
  {
    assert Reaches(p, t, i, t, i) && Agree(f, p.lead[t], i + 1);
  }

  lemma AppendReturnedStep(p: Protocol, v: nat, s: Server, src: nat, args: AppendArgs, reply: AppendReply)
    returns (p': Protocol)
    requires ProtocolInv(p) && ServerOk(p, v, s) && src < |p.terms| && AppendAnswerOk(p, src, args, reply)
    ensures CanReturnAppend(s, src) && Advanced(p, p', v, AppendReturned(s, v, src, args, reply))
    ensures p'.whole == p.whole
  {
    hide ProtocolInv, LogLink, ApplyLink, CoveredLog, CandidateLink, MatchOk, FullOf, Advanced, CommitRule;
    ShapeOf(p, v, s);
    LocalFacts(s, |p.terms|);
    p' := p;
    if reply.term > s.currentTerm {
      p' := Observe(p, v, reply.term);
      StepDownStep(p, v, s, reply.term);
    } else if reply.term == s.currentTerm && s.role == Leader && args.term == s.currentTerm
              && args.prevLogIndex + 1 == s.nextIndex[src] {
      if reply.success {
        var m := |args.entries| + args.prevLogIndex;
        var s1 := s.(matchIndex := s.matchIndex[src := m], nextIndex := s.nextIndex[src := m + 1]);
        RecordedOk(p, v, s, s1, src);
        var i := CommitScan(s1, v, LastIndex(s1.logs));
        if i > s1.commitIndex {
          p' := Commit(p, s.currentTerm, i);
          CommitStep(p, v, s1, i);
        } else {
          assert s1.(commitIndex := i) == s1;
        }
      } else {
        RecordedOk(p, v, s, s.(nextIndex := s.nextIndex[src := reply.conflictIndex]), src);
      }
    } else {
      QuietOnDisk(p, v, s, s);
    }
  }
}
