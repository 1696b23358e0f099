/** Snapshots, restarts and the applier keep the invariant. */
module ClusterSnapshots {
  import opened RaftTypes
  import opened RaftLog
  import opened RaftServer
  import opened Consensus
  import opened ClusterInv
  import opened ClusterElections
  import opened ClusterReplication

  // ---------- Installing a snapshot

  /** The log after an installation: the snapshot's prefix, then what lay beyond it. */
  lemma InstalledFull(s: Server, n: nat, b: nat, term: nat, snapshot: Log)
    requires Local(s, n) && s.commitIndex < b && |snapshot| == b + 1
    ensures LogShape(s.logs) && DummyIndex(s.logs) < b
    ensures var f' := Full(snapshot, InstalledLog(s.logs, b, term));
      f' == if b < |FullOf(s)| then snapshot + FullOf(s)[b + 1..] else snapshot
  {
    hide InstalledLog, FullOf, Local;
    LocalFacts(s, n);
    RestOfLog(s, n, b, term);
  }

  lemma RestOfLog(s: Server, n: nat, b: nat, term: nat)
    requires Local(s, n) && DummyIndex(s.logs) < b
    ensures InstalledLog(s.logs, b, term)[1..] == if b < |FullOf(s)| then FullOf(s)[b + 1..] else []
  {
    LocalFacts(s, n);
    if b <= LastIndex(s.logs) {
      var k := b - DummyIndex(s.logs);
      assert s.logs[k..][1..] == s.logs[k + 1..] == FullOf(s)[b + 1..];
    }
  }

  /** A snapshot at least as long as the log replaces what the server votes with. */
  lemma ResetStep(p: Protocol, v: nat, t: nat, b: nat)
    requires ProtocolInv(p) && v < |p.terms| == |p.logs| && p.terms[v] == t && t in p.lead && 0 < b < |p.lead[t]|
    requires Covered(p, t, b) && |p.logs[v]| <= b + 1
    ensures ProtocolInv(SetLog(p, v, p.lead[t][..b + 1])) && Grows(p, SetLog(p, v, p.lead[t][..b + 1]))
  {
    hide LogsGood, StandsGood, VotesGood, LeadersElected, AcksGood, AckersHold, VotersHeld, LeadersHold, GoodUpTo,
      Grows, CanSetLog;
    var u: nat, i: nat :| Reaches(p, u, i, t, b);
    CommitAgrees(p, u, i, t);
    CanReset(p, v, u, i, b);
    assert p.lead[u][..b + 1] == p.lead[t][..b + 1];
    SetLogKeeps(p, v, p.lead[t][..b + 1]);
  }

  /** The state after the installation, given the log the server now votes with. */
  lemma InstalledOk(p: Protocol, p': Protocol, v: nat, s: Server, args: InstallArgs)
    requires ServerOk(p, v, s) && s.role == Follower && InstallOk(p', args) && args.term == s.currentTerm
    requires ProtocolInv(p') && Grows(p, p') && p'.terms == p.terms && p'.votes == p.votes && |p'.logs| == |p.logs|
    requires s.commitIndex < args.lastIncludedIndex && DummyIndex(s.logs) < args.lastIncludedIndex
    requires LogLink(FullOf(Installed(s, args)), args.lastIncludedIndex, p'.logs[v], p'.whole)
    ensures ServerOk(p', v, Installed(s, args))
  {
    hide ProtocolInv, CoveredLog, Covered, LogLink, ApplyLink, CandidateLink, LeaderLink, InstalledLog, FullOf, Local;
    LocalFacts(s, |p.terms|);
    var s' := Installed(s, args);
    var b := args.lastIncludedIndex;
    InstalledFull(s, |p.terms|, b, args.lastIncludedTerm, args.snapshot);
    InstalledLocal(p', s, |p.terms|, args);
    CoveredLogGrows(p, p', FullOf(s), s.currentTerm, s.currentTerm, s.commitIndex);
    CommittedInLead(p', FullOf(s), s.currentTerm, s.commitIndex, s.currentTerm);
    CoveredByLead(p', FullOf(s'), s.currentTerm, b, b);
    InstalledApply(s, s', b);
    NotCandidate(p', v, s');
    NotLeader(p', v, s');
  }

  lemma NotLeader(p: Protocol, v: nat, s: Server)
    requires s.role != Leader
    ensures LeaderLink(p, v, s)
  {
  }

  lemma InstalledLocal(p: Protocol, s: Server, n: nat, args: InstallArgs)
    requires ProtocolInv(p) && Local(s, n) && InstallOk(p, args) && s.commitIndex < args.lastIncludedIndex
    requires DummyIndex(s.logs) < args.lastIncludedIndex
    ensures Local(Installed(s, args), n)
    ensures Agree(FullOf(Installed(s, args)), p.lead[args.term], args.lastIncludedIndex + 1)
  {
    hide ProtocolInv, Covered, GoodUpTo, InstalledLog, FullOf, Full;
    LocalFacts(s, n);
    IndexedAt(s, n);
    LeadIndexed(p, args.term);
    InstalledFull(s, n, args.lastIncludedIndex, args.lastIncludedTerm, args.snapshot);
    FullIs(Installed(s, args));
  }

  lemma IndexedAt(s: Server, n: nat)
    requires Local(s, n)
    ensures forall i :: 0 <= i < |FullOf(s)| ==> FullOf(s)[i].index == i
  {
  }

  lemma LeadIndexed(p: Protocol, t: nat)
    requires ProtocolInv(p) && t in p.lead
    ensures |p.lead[t]| > 0 && p.lead[t][0] == Dummy && forall i :: 0 <= i < |p.lead[t]| ==> p.lead[t][i].index == i
  {
    hide ProtocolInv;
    LeadStarts(p, t);
  }

  lemma InstalledApply(s: Server, s': Server, b: nat)
    requires ApplyLink(s) && |s'.logs| > 0 && s.commitIndex < b < |FullOf(s')|
    requires Agree(FullOf(s), FullOf(s'), s.commitIndex + 1)
    requires s'.hasSnapshot && s'.lastApplied == s'.commitIndex == b == DummyIndex(s'.logs)
    requires s'.applier == s.applier && s'.service == s.service
    ensures ApplyLink(s')
  {
    assert FullOf(s)[..|s.service.applied|] == FullOf(s')[..|s.service.applied|];
    ChainAgrees(FullOf(s), FullOf(s'), Pending(s), s.service.received, s.applier.upTo);
  }

  /** The snapshot ends at or past the log's end, or where both hold an entry of the same term. */
  predicate Fits(s: Server, args: InstallArgs)
    requires LogShape(s.logs) && DummyIndex(s.logs) <= args.lastIncludedIndex
  {
    args.lastIncludedIndex >= LastIndex(s.logs) ||
      GetEntry(s.logs, args.lastIncludedIndex).term == args.lastIncludedTerm
  }

  /** The installation proper, in the server's own term. */
  lemma InstalledStep(p: Protocol, v: nat, s: Server, args: InstallArgs) returns (p': Protocol)
    requires ProtocolInv(p) && ServerOk(p, v, s) && s.role == Follower && InstallOk(p, args)
    requires args.term == s.currentTerm
    requires s.commitIndex < args.lastIncludedIndex
    ensures DummyIndex(s.logs) < args.lastIncludedIndex && Advanced(p, p', v, Installed(s, args))
    ensures p.whole && Fits(s, args) ==> p'.whole
  {
    hide ProtocolInv, CoveredLog, Covered, ApplyLink, CandidateLink, LeaderLink, VoteLink, InstalledLog, Local, FullOf,
      Full, Grows;
    ShapeOf(p, v, s);
    LocalFacts(s, |p.terms|);
    var b := args.lastIncludedIndex;
    if b >= LastIndex(s.logs) {
      p' := ReplacedStep(p, v, s, args);
    } else {
      p' := p.(whole := p.whole && Fits(s, args));
      UnwholeKeeps(p, p');
      InstallGrows(p, p', args);
      GraftedLink(p, p', v, s, args);
      InstalledOk(p, p', v, s, args);
    }
  }

  lemma UnwholeKeeps(p: Protocol, p': Protocol)
    requires ProtocolInv(p) && p' == p.(whole := p'.whole) && (p'.whole ==> p.whole)
    ensures ProtocolInv(p') && Grows(p, p')
  {
    SameLogsSame(p, p');
    hide ProtocolInv, Grows, Closes;
    SameLogsKeepAll(p, p');
  }

  lemma SameLogsSame(p: Protocol, p': Protocol)
    requires p' == p.(whole := p'.whole) && (p'.whole ==> p.whole)
    ensures SameLogs(p, p')
  {
  }

  lemma SameLogsKeepAll(p: Protocol, p': Protocol)
    requires ProtocolInv(p) && SameLogs(p, p') && p'.votes == p.votes && p'.stands == p.stands
    requires p'.commits == p.commits
    ensures ProtocolInv(p')
  {
    hide LogsGood, LeadsGood, StandsGood, VotesGood, LeadersElected, AcksGood, AckersHold, VotersHeld, LeadersHold,
      CommitsConfirmed, Grows, Closes;
    StandsGrow(p, p');
    VotesGrow(p, p');
    VotersSame(p, p');
    CommitsGrow(p, p');
    SameLogsKeep(p, p');
  }

  lemma ReplacedStep(p: Protocol, v: nat, s: Server, args: InstallArgs) returns (p': Protocol)
    requires ProtocolInv(p) && ServerOk(p, v, s) && s.role == Follower && InstallOk(p, args)
    requires args.term == s.currentTerm
    requires s.commitIndex < args.lastIncludedIndex && LastIndex(s.logs) <= args.lastIncludedIndex
    requires DummyIndex(s.logs) < args.lastIncludedIndex
    ensures Advanced(p, p', v, Installed(s, args)) && p'.whole == p.whole
  {
    hide ProtocolInv, CoveredLog, Covered, ApplyLink, CandidateLink, LeaderLink, VoteLink, InstalledLog, Local, FullOf,
      Full, Grows;
    ShapeOf(p, v, s);
    LocalFacts(s, |p.terms|);
    var b := args.lastIncludedIndex;
    InstalledFull(s, |p.terms|, b, args.lastIncludedTerm, args.snapshot);
    FullIs(Installed(s, args));
    p' := SetLog(p, v, p.lead[args.term][..b + 1]);
    ResetStep(p, v, args.term, b);
    InstallGrows(p, p', args);
    assert FullOf(Installed(s, args)) == p'.logs[v];
    InstalledOk(p, p', v, s, args);
  }

  lemma GraftedLink(p: Protocol, p': Protocol, v: nat, s: Server, args: InstallArgs)
    requires ProtocolInv(p) && ServerOk(p, v, s) && InstallOk(p, args) && args.term == s.currentTerm
    requires s.commitIndex < args.lastIncludedIndex < LastIndex(s.logs) && DummyIndex(s.logs) < args.lastIncludedIndex
    requires p' == p.(whole := p.whole && Fits(s, args))
    ensures LogLink(FullOf(Installed(s, args)), args.lastIncludedIndex, p'.logs[v], p'.whole)
  {
    hide ProtocolInv, CoveredLog, Covered, ApplyLink, CandidateLink, LeaderLink, VoteLink, InstalledLog, Local, FullOf,
      Full, LogLink;
    ShapeOf(p, v, s);
    LocalFacts(s, |p.terms|);
    var b := args.lastIncludedIndex;
    InstalledFull(s, |p.terms|, b, args.lastIncludedTerm, args.snapshot);
    FullIs(Installed(s, args));
    if p'.whole {
      PrefixMatches(p, v, s, b);
      assert args.snapshot == FullOf(s)[..b + 1];
    }
    LinkBeyond(FullOf(s), DummyIndex(s.logs), p.logs[v], p.whole, args.snapshot, p'.whole);
  }

  /** Another prefix in front of the same entries. */
  lemma LinkBeyond(f: Log, base: nat, w: Log, whole: bool, snapshot: Log, whole': bool)
    requires LogLink(f, base, w, whole) && base < |snapshot| < |f|
    requires whole' ==> whole && snapshot == f[..|snapshot|]
    ensures LogLink(snapshot + f[|snapshot|..], |snapshot| - 1, w, whole')
  {
  }

  lemma FullIs(s: Server)
    requires |s.logs| > 0
    ensures FullOf(s) == Full(s.disk.snapshot, s.logs)
  {
  }

  lemma FollowQuiet(p: Protocol, v: nat, s: Server)
    requires ProtocolInv(p) && ServerOk(p, v, s)
    ensures Advanced(p, p, v, s.(role := Follower)) && ServerOk(p, v, s.(role := Follower))
  {
    hide ProtocolInv, LogLink, ApplyLink, CoveredLog, CandidateLink, LeaderLink;
    NotCandidate(p, v, s.(role := Follower));
    NotLeader(p, v, s.(role := Follower));
    QuietStep(p, v, s, s.(role := Follower));
  }

  lemma InstallStep(p: Protocol, v: nat, s: Server, args: InstallArgs) returns (p': Protocol)
    requires ProtocolInv(p) && ServerOk(p, v, s) && InstallOk(p, args)
    ensures LogShape(s.logs) && DummyIndex(s.logs) <= s.commitIndex
    ensures Advanced(p, p', v, HandleInstall(s, args).0) && InstallOk(p', args)
    ensures p.whole && !(args.term >= s.currentTerm && args.lastIncludedIndex > s.commitIndex && !Fits(s, args)) ==>
      p'.whole
  {
    hide ProtocolInv, ServerOk, InstallOk, Installed, Grows, Others, Local;
    ShapeOf(p, v, s);
    LocalFacts(s, |p.terms|);
    if args.term < s.currentTerm {
      p' := p;
      QuietSame(p, v, s);
    } else {
      var q, s1;
      if args.term > s.currentTerm {
        q, s1 := Observe(p, v, args.term), Persist(Follow(s, args.term));
        FollowStep(p, v, s, args.term);
      } else {
        q, s1 := p, s.(role := Follower);
        FollowQuiet(p, v, s);
      }
      InstallGrows(p, q, args);
      p' := q;
      if args.lastIncludedIndex > s1.commitIndex {
        p' := InstalledStep(q, v, s1, args);
        InstallGrows(q, p', args);
        AdvancedTrans(p, q, p', v, Installed(s1, args));
      }
    }
  }

  lemma QuietSame(p: Protocol, v: nat, s: Server)
    requires ProtocolInv(p) && ServerOk(p, v, s)
    ensures Advanced(p, p, v, s)
  {
    hide ProtocolInv, LogLink, ApplyLink, CoveredLog, CandidateLink, LeaderLink;
    QuietStep(p, v, s, s);
  }

  lemma InstallReturnedStep(p: Protocol, v: nat, s: Server, src: nat, args: InstallArgs, term: nat)
    returns (p': Protocol)
    requires ProtocolInv(p) && ServerOk(p, v, s) && src < |p.terms| && InstallOk(p, args)
    ensures src < |s.nextIndex| == |s.matchIndex| && Advanced(p, p', v, InstallReturned(s, src, args, term))
    ensures p'.whole == p.whole
  {
    hide ProtocolInv, LogLink, ApplyLink, CoveredLog, CandidateLink, FullOf, Advanced, Covered;
    ShapeOf(p, v, s);
    p' := p;
    if term > s.currentTerm {
      p' := Observe(p, v, term);
      StepDownStep(p, v, s, term);
    } else if s.role == Leader && args.term == s.currentTerm {
      RecordedOk(p, v, s, InstallReturned(s, src, args, term), src);
    } else {
      QuietSame(p, v, s);
    }
  }

  // ---------- Local compaction

  lemma CompactedSame(s: Server, n: nat, a: nat)
    requires Local(s, n) && DummyIndex(s.logs) < a <= LastIndex(s.logs) && a < |FullOf(s)|
    ensures LogShape(s.logs)
    ensures var s' := Compact(s, a, FullOf(s)[..a + 1]); |s'.logs| > 0 && FullOf(s') == FullOf(s)
  {
    hide FullOf, Local;
    LocalFacts(s, n);
    var f := FullOf(s);
    var s' := Compact(s, a, f[..a + 1]);
    assert s'.logs[1..] == s.logs[a - DummyIndex(s.logs)..][1..] == f[a + 1..];
    FullIs(s');
    assert FullOf(s') == f[..a + 1] + f[a + 1..] == f;
  }

  lemma CompactedFull(s: Server, n: nat)
    requires Local(s, n) && ApplyLink(s) && |s.service.applied| - 1 > DummyIndex(s.logs)
    ensures |s.service.applied| - 1 <= LastIndex(s.logs)
    ensures var s' := Compact(s, |s.service.applied| - 1, s.service.applied);
      |s'.logs| > 0 && FullOf(s') == FullOf(s) && Local(s', n)
  {
    hide Chain, FullOf, BatchLink, Pending;
    LocalFacts(s, n);
    CompactedSame(s, n, |s.service.applied| - 1);
  }

  lemma CompactStep(p: Protocol, v: nat, s: Server)
    requires ProtocolInv(p) && ServerOk(p, v, s)
    ensures LogShape(s.logs) && 0 < |s.service.applied| <= LastIndex(s.logs) + 1
    ensures Advanced(p, p, v, Compact(s, |s.service.applied| - 1, s.service.applied))
  {
    hide ProtocolInv, CoveredLog, CandidateLink, LeaderLink, VoteLink, LogLink;
    LocalFacts(s, |p.terms|);
    if |s.service.applied| - 1 > DummyIndex(s.logs) {
      CompactedFull(s, |p.terms|);
      CompactedOk(p, v, s, Compact(s, |s.service.applied| - 1, s.service.applied));
    } else {
      QuietSame(p, v, s);
    }
  }

  lemma CompactedOk(p: Protocol, v: nat, s: Server, s': Server)
    requires ProtocolInv(p) && ServerOk(p, v, s) && Local(s', |p.terms|) && FullOf(s') == FullOf(s)
    requires s' == s.(logs := s'.logs, disk := s'.disk)
    requires DummyIndex(s'.logs) == |s.service.applied| - 1 > DummyIndex(s.logs)
    ensures Advanced(p, p, v, s')
  {
    hide ProtocolInv, CoveredLog, FullOf, Local;
    LocalFacts(s, |p.terms|);
    LocalFacts(s', |p.terms|);
    if s.role == Candidate {
      var q :| CountedVotes(p, v, s, q);
      assert CountedVotes(p, v, s', q);
    }
  }

  // ---------- Crash and restart

  lemma CoveredLogBelow(p: Protocol, f: Log, t: nat, m: nat, k: nat)
    requires CoveredLog(p, f, t, m) && k <= m
    ensures CoveredLog(p, f, t, k)
  {
    if k > 0 {
      var u: nat, i: nat :| Reaches(p, u, i, t, m) && u in p.lead && Agree(f, p.lead[u], m + 1);
      assert Reaches(p, u, i, t, k) && Agree(f, p.lead[u], k + 1);
    }
  }

  /** A restart finds exactly the term, vote and log the server had when it stopped. */
  lemma RestartFinds(s: Server, n: nat)
    requires Local(s, n)
    ensures s.disk.state.Some? ==> |s.disk.state.value.logs| > 0
    ensures var s' := Restart(s.disk, n);
      && s'.logs == s.logs && s'.currentTerm == s.currentTerm && s'.votedFor == s.votedFor
      && s'.role == Follower && s'.disk == s.disk && s'.commitIndex == DummyIndex(s.logs)
  {
  }

  lemma RestartStep(p: Protocol, v: nat, s: Server)
    requires ProtocolInv(p) && ServerOk(p, v, s)
    ensures s.disk.state.Some? ==> |s.disk.state.value.logs| > 0
    ensures Advanced(p, p, v, Restart(s.disk, |p.terms|))
  {
    hide ProtocolInv, CoveredLog, LogLink;
    LocalFacts(s, |p.terms|);
    RestartFinds(s, |p.terms|);
    var s' := Restart(s.disk, |p.terms|);
    assert FullOf(s') == FullOf(s);
    CoveredLogBelow(p, FullOf(s), s.currentTerm, s.commitIndex, DummyIndex(s.logs));
    assert ServerOk(p, v, s');
  }

  // ---------- The applier

  lemma ApplierOnly(p: Protocol, v: nat, s: Server, s': Server)
    requires ProtocolInv(p) && ServerOk(p, v, s) && ApplyLink(s')
    requires s' == s.(hasSnapshot := s'.hasSnapshot, lastApplied := s'.lastApplied, applier := s'.applier,
      service := s'.service)
    ensures Advanced(p, p, v, s')
  {
    hide ProtocolInv, CoveredLog, LogLink, ApplyLink;
    assert FullOf(s') == FullOf(s);
    if s.role == Candidate {
      var q :| CountedVotes(p, v, s, q);
      assert CountedVotes(p, v, s', q);
    }
  }

  lemma {:induction false} CommandsChain(f: Log, a: nat, upTo: nat)
    requires a <= upTo < |f|
    ensures Chain(f, Commands(f[a + 1..upTo + 1]), a, upTo)
    decreases upTo - a
  {
    if a < upTo {
      CommandsChain(f, a + 1, upTo);
      var cmds := Commands(f[a + 1..upTo + 1]);
      assert cmds[1..] == Commands(f[a + 2..upTo + 1]);
    }
  }

  /** The applier never reads outside the log. */
  lemma CollectReads(s: Server, n: nat)
    requires Local(s, n) && ApplyLink(s) && s.applier.Waiting? && (s.hasSnapshot || s.lastApplied < s.commitIndex)
    ensures CanCollect(s) && s.lastApplied <= s.commitIndex < |FullOf(s)| && DummyIndex(s.logs) <= s.commitIndex
    ensures var cmds := Commands(FullOf(s)[s.lastApplied + 1..s.commitIndex + 1]);
      Collect(s).applier.queue ==
        if s.hasSnapshot then [SnapshotMsg(FullOf(s)[..DummyIndex(s.logs) + 1], DummyIndex(s.logs))] + cmds else cmds
  {
    hide Chain, FullOf, Local;
    LocalFacts(s, n);
    var base := DummyIndex(s.logs);
    if s.lastApplied < s.commitIndex {
      assert s.logs[s.lastApplied + 1 - base..s.commitIndex + 1 - base] ==
        FullOf(s)[s.lastApplied + 1..s.commitIndex + 1];
    }
  }

  lemma {:induction false} ChainJoins(f: Log, one: seq<ApplyMsg>, two: seq<ApplyMsg>, a: nat, b: nat, upTo: nat)
    requires Chain(f, one, a, b) && Chain(f, two, b, upTo) && b <= upTo < |f|
    ensures Chain(f, one + two, a, upTo)
    decreases |one|
  {
    if one == [] {
      assert one + two == two;
    } else {
      assert (one + two)[1..] == one[1..] + two;
      ChainJoins(f, one[1..], two, if one[0].CommandMsg? then a + 1 else one[0].index, b, upTo);
    }
  }

  lemma ChainGrows(f: Log, one: seq<ApplyMsg>, a: nat, b: nat)
    requires Chain(f, one, a, b)
    ensures a <= b
    decreases |one|
  {
    if one != [] {
      ChainGrows(f, one[1..], if one[0].CommandMsg? then a + 1 else one[0].index, b);
    }
  }

  lemma CollectFrom(s: Server)
    requires ApplyLink(s) && s.applier.Waiting?
    ensures if s.hasSnapshot then s.applier.upTo < DummyIndex(s.logs) == s.lastApplied
            else s.lastApplied == s.applier.upTo
  {
    hide FullOf, Chain;
  }

  /** What the applier collects continues what it sent before. */
  lemma CollectChain(s: Server, n: nat)
    requires Local(s, n) && ApplyLink(s) && s.applier.Waiting? && (s.hasSnapshot || s.lastApplied < s.commitIndex)
    ensures CanCollect(s) && Chain(FullOf(s), Collect(s).applier.queue, s.applier.upTo, s.commitIndex)
  {
    hide FullOf, Local, Commands, Chain, ApplyLink, Collect;
    CollectReads(s, n);
    CollectFrom(s);
    BatchChain(FullOf(s), s.hasSnapshot, DummyIndex(s.logs), s.lastApplied, s.applier.upTo, s.commitIndex);
  }

  lemma BatchChain(f: Log, snapshot: bool, base: nat, last: nat, upTo: nat, commit: nat)
    requires last <= commit < |f| && if snapshot then upTo < base == last else last == upTo
    ensures var cmds := Commands(f[last + 1..commit + 1]);
      Chain(f, if snapshot then [SnapshotMsg(f[..base + 1], base)] + cmds else cmds, upTo, commit)
  {
    hide Commands, Chain;
    CommandsChain(f, last, commit);
    if snapshot {
      SnapshotFirst(f, Commands(f[last + 1..commit + 1]), upTo, base, commit);
    }
  }

  lemma CollectLinks(s: Server, n: nat)
    requires Local(s, n) && ApplyLink(s) && s.applier.Waiting? && (s.hasSnapshot || s.lastApplied < s.commitIndex)
    ensures CanCollect(s) && ApplyLink(Collect(s))
  {
    hide FullOf, Local, Commands, Chain;
    CollectReads(s, n);
    CollectChain(s, n);
    var s' := Collect(s);
    SameFullApplier(s, s');
    assert Pending(s) == s.service.channel;
    ChainJoins(FullOf(s), s.service.channel, s'.applier.queue, s.service.received, s.applier.upTo, s.commitIndex);
  }

  lemma SnapshotFirst(f: Log, cmds: seq<ApplyMsg>, a: nat, index: nat, upTo: nat)
    requires a < index <= upTo < |f| && Chain(f, cmds, index, upTo)
    ensures Chain(f, [SnapshotMsg(f[..index + 1], index)] + cmds, a, upTo)
  {
    assert ([SnapshotMsg(f[..index + 1], index)] + cmds)[1..] == cmds;
  }

  lemma SameFullApplier(s: Server, s': Server)
    requires |s.logs| > 0
    requires s' == s.(hasSnapshot := s'.hasSnapshot, lastApplied := s'.lastApplied, applier := s'.applier,
      service := s'.service)
    ensures FullOf(s') == FullOf(s)
  {
  }

  lemma SendLinks(s: Server)
    requires ApplyLink(s) && s.applier.Sending? && |s.applier.queue| > 0
    ensures ApplyLink(SendOne(s))
  {
    hide Chain, FullOf;
    SameFullApplier(s, SendOne(s));
    assert Pending(SendOne(s)) == Pending(s);
  }

  lemma FinishLinks(s: Server)
    requires ApplyLink(s) && s.applier.Sending? && s.applier.queue == []
    ensures ApplyLink(Finish(s))
  {
    hide Chain, FullOf;
    SameFullApplier(s, Finish(s));
    assert Pending(Finish(s)) == Pending(s);
  }

  // ---------- The service

  /** A message continues exactly where the last one ended, and the service's state stays a committed prefix. */
  lemma ReceiveLinks(s: Server, n: nat)
    requires Local(s, n) && ApplyLink(s) && s.service.serving && |s.service.channel| > 0
    ensures ApplyLink(RaftServer.Receive(s))
    ensures match s.service.channel[0]
      case CommandMsg(e) => e.index == s.service.received + 1 < |FullOf(s)| && e == FullOf(s)[e.index]
      case SnapshotMsg(snap, index) => s.service.received < index < |FullOf(s)| && snap == FullOf(s)[..index + 1]
  {
    hide FullOf, Local, Chain, Pending;
    var s', f := RaftServer.Receive(s), FullOf(s);
    SameFullApplier(s, s');
    NextPending(s, n);
    ChainGrows(f, Pending(s'), s'.service.received, s.applier.upTo);
  }

  lemma NextPending(s: Server, n: nat)
    requires |s.logs| > 0 && Local(s, n) && |s.service.channel| > 0
    requires Chain(FullOf(s), Pending(s), s.service.received, s.applier.upTo)
    ensures var s', f := RaftServer.Receive(s), FullOf(s);
      && Chain(f, Pending(s'), s'.service.received, s.applier.upTo)
      && match s.service.channel[0]
         case CommandMsg(e) => e.index == s.service.received + 1 <= s.applier.upTo < |f| && e == f[e.index]
         case SnapshotMsg(snap, index) => s.service.received < index <= s.applier.upTo < |f| && snap == f[..index + 1]
  {
    hide FullOf, Local, Chain;
    IndexedAt(s, n);
    assert Pending(s)[0] == s.service.channel[0] && Pending(s)[1..] == Pending(RaftServer.Receive(s));
    ChainHead(FullOf(s), Pending(s), s.service.received, s.applier.upTo);
  }

  lemma ChainHead(f: Log, queue: seq<ApplyMsg>, a: nat, upTo: nat)
    requires Chain(f, queue, a, upTo) && queue != []
    ensures match queue[0]
      case CommandMsg(e) => a + 1 <= upTo < |f| && e == f[a + 1] && Chain(f, queue[1..], a + 1, upTo)
      case SnapshotMsg(snap, index) =>
        a < index <= upTo < |f| && snap == f[..index + 1] && Chain(f, queue[1..], index, upTo)
  {
  }

  lemma StartServiceLinks(s: Server, n: nat)
    requires Local(s, n) && ApplyLink(s) && !s.service.serving
    ensures ApplyLink(StartService(s))
  {
    hide Chain;
    LocalFacts(s, n);
    SameFullApplier(s, StartService(s));
  }
}
