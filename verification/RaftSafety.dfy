/** What holds in every run of a cluster of any size. */
module RaftSafety {
  import opened RaftTypes
  import opened RaftLog
  import opened LogCompaction
  import opened RaftServer
  import opened Consensus
  import opened Cluster
  import opened ClusterInv
  import opened ClusterElections
  import opened ClusterReplication
  import opened ClusterSnapshots

  // ---------- One step

  /**
   The step installs a snapshot in the middle of a log whose entry at the snapshot's last index
   has another term: the entries beyond it are kept although they do not belong to it.
   */
  predicate Grafts(c: State, st: Step) {
    && st.Receive? && st.m.InstallRequest? && st.m.dst < |c.servers|
    && var s, args := c.servers[st.m.dst], st.m.install;
       && args.term >= s.currentTerm
       && args.lastIncludedIndex > s.commitIndex
       && InLog(s.logs, args.lastIncludedIndex)
       && args.lastIncludedIndex < LastIndex(s.logs)
       && GetEntry(s.logs, args.lastIncludedIndex).term != args.lastIncludedTerm
  }

  /** A message handled by `v` advances the protocol, without a panic. */
  lemma ReceiveAdvances(c: State, p: Protocol, m: Message) returns (p': Protocol)
    requires Inv(c, p) && Ready(c, Receive(m))
    ensures Safe(c.servers[m.dst], Receive(m))
    ensures Advanced(p, p', m.dst, Act(c, Receive(m)).0)
    ensures forall r :: r in Act(c, Receive(m)).1 ==> MessageOk(p', r)
    ensures p.whole && !Grafts(c, Receive(m)) ==> p'.whole
  {
    hide ProtocolInv, ServerOk, Advanced, AppendOk, InstallOk, AppendAnswerOk, HandleAppend, HandleInstall,
      HandleRequestVote, VoteReturned, AppendReturned, InstallReturned;
    var v := m.dst;
    var s := c.servers[v];
    assert MessageOk(p, m);
    ShapeOf(p, v, s);
    SafeShape(s, |p.terms|);
    match m
    case VoteRequest(_, args) => p' := VoteStep(p, v, s, args); AdvancedSize(p, p', v, Act(c, Receive(m)).0);
    case VoteAnswer(_, src, term, reply) => p' := VoteReturnedStep(p, v, s, src, term, reply);
    case AppendRequest(_, args) => p' := AppendStep(p, v, s, args); AdvancedSize(p, p', v, Act(c, Receive(m)).0);
    case AppendAnswer(_, src, args, reply) => p' := AppendReturnedStep(p, v, s, src, args, reply);
    case InstallRequest(_, args) => p' := InstallStep(p, v, s, args); AdvancedSize(p, p', v, Act(c, Receive(m)).0);
    case InstallAnswer(_, src, args, term) => p' := InstallReturnedStep(p, v, s, src, args, term);
  }

  lemma SafeShape(s: Server, n: nat)
    requires Local(s, n)
    ensures LogShape(s.logs) && DummyIndex(s.logs) <= s.commitIndex && |s.nextIndex| == |s.matchIndex| == n
  {
  }

  lemma AdvancedSize(p: Protocol, p': Protocol, v: nat, s: Server)
    requires Advanced(p, p', v, s)
    ensures |p'.terms| == |p.terms| && v < |p'.terms|
  {
  }

  /** Every other step advances the protocol, without a panic. */
  lemma OwnAdvances(c: State, p: Protocol, st: Step) returns (p': Protocol)
    requires Inv(c, p) && Ready(c, st) && !st.Receive?
    ensures Safe(c.servers[Actor(st)], st)
    ensures Advanced(p, p', Actor(st), Act(c, st).0)
    ensures forall r :: r in Act(c, st).1 ==> MessageOk(p', r)
    ensures p'.whole == p.whole
  {
    hide ProtocolInv, ServerOk, Advanced, AppendOk, InstallOk, Send, Compact, Restart, Collect, SendOne, Finish, Start,
      StartService, RaftServer.Receive;
    var v := Actor(st);
    var s := c.servers[v];
    ShapeOf(p, v, s);
    SafeShape(s, |p.terms|);
    p' := p;
    match st
    case Timeout(_) =>
      p' := Stand(p, v);
      TimeoutStep(p, v, s);
      forall r | r in Act(c, st).1
        ensures MessageOk(p', r)
      {
        StandSent(p, v, s, r);
      }
    case ClientCommand(_, command) => p' := ClientStep(p, v, s, command);
    case SendRound(_, peer) =>
      QuietSame(p, v, s);
      SentOk(p, v, s, peer);
    case ServiceSnapshot(_) => CompactStep(p, v, s);
    case CrashAndRestart(_) => RestartStep(p, v, s);
    case ApplierCollect(_) => CollectStep(p, v, s); CollectShape(s);
    case ApplierSend(_) => SendStep(p, v, s);
    case ApplierFinish(_) => FinishStep(p, v, s);
    case ServiceStart(_) => ServiceStartStep(p, v, s);
    case ServiceReceive(_) => ReceiveStep(p, v, s);
  }

  lemma StandSent(p: Protocol, v: nat, s: Server, r: Message)
    requires ProtocolInv(p) && ServerOk(p, v, s)
    requires r.VoteRequest? && r.dst in StartElection(s, v, |p.terms|).0.awaiting
    requires r.vote == StartElection(s, v, |p.terms|).1
    ensures MessageOk(Stand(p, v), r)
  {
    hide LeadsGood, StandsGood, VotesGood, LeadersElected, AcksGood, AckersHold, VotersHeld, LeadersHold,
      CommitsConfirmed, ServerOk, LogsGood;
    TimeoutSent(p, v, s, r);
  }

  lemma CollectShape(s: Server)
    requires CanCollect(s)
    ensures LogShape(s.logs)
  {
  }

  lemma CollectStep(p: Protocol, v: nat, s: Server)
    requires ProtocolInv(p) && ServerOk(p, v, s) && s.applier.Waiting?
    requires s.hasSnapshot || s.lastApplied < s.commitIndex
    ensures CanCollect(s) && Advanced(p, p, v, Collect(s))
  {
    hide ProtocolInv, Advanced, ApplyLink, CoveredLog, CandidateLink, LeaderLink, LogLink, Local, VoteLink;
    CollectLinks(s, |p.terms|);
    ApplierOnly(p, v, s, Collect(s));
  }

  lemma SendStep(p: Protocol, v: nat, s: Server)
    requires ProtocolInv(p) && ServerOk(p, v, s) && s.applier.Sending? && |s.applier.queue| > 0
    ensures Advanced(p, p, v, SendOne(s))
  {
    hide ProtocolInv, Advanced, ApplyLink, CoveredLog, CandidateLink, LeaderLink, LogLink, Local, VoteLink;
    SendLinks(s);
    ApplierOnly(p, v, s, SendOne(s));
  }

  lemma FinishStep(p: Protocol, v: nat, s: Server)
    requires ProtocolInv(p) && ServerOk(p, v, s) && s.applier.Sending? && s.applier.queue == []
    ensures Advanced(p, p, v, Finish(s))
  {
    hide ProtocolInv, Advanced, ApplyLink, CoveredLog, CandidateLink, LeaderLink, LogLink, Local, VoteLink;
    FinishLinks(s);
    ApplierOnly(p, v, s, Finish(s));
  }

  lemma ServiceStartStep(p: Protocol, v: nat, s: Server)
    requires ProtocolInv(p) && ServerOk(p, v, s) && !s.service.serving
    ensures Advanced(p, p, v, StartService(s))
  {
    hide ProtocolInv, Advanced, ApplyLink, CoveredLog, CandidateLink, LeaderLink, LogLink, Local, VoteLink;
    StartServiceLinks(s, |p.terms|);
    ApplierOnly(p, v, s, StartService(s));
  }

  lemma ReceiveStep(p: Protocol, v: nat, s: Server)
    requires ProtocolInv(p) && ServerOk(p, v, s) && s.service.serving && |s.service.channel| > 0
    ensures Advanced(p, p, v, RaftServer.Receive(s))
  {
    hide ProtocolInv, Advanced, ApplyLink, CoveredLog, CandidateLink, LeaderLink, LogLink, Local, VoteLink;
    ReceiveLinks(s, |p.terms|);
    ApplierOnly(p, v, s, RaftServer.Receive(s));
  }

  lemma StepKeeps(c: State, p: Protocol, st: Step) returns (p': Protocol)
    requires Inv(c, p) && Ready(c, st)
    ensures Safe(c.servers[Actor(st)], st)
    ensures Inv(Next(c, st), p') && Grows(p, p')
    ensures p.whole && !Grafts(c, st) ==> p'.whole
  {
    if st.Receive? {
      p' := ReceiveAdvances(c, p, st.m);
    } else {
      p' := OwnAdvances(c, p, st);
    }
    hide ProtocolInv, ServerOk, MessageOk, Grows, Act, Others, Grafts;
    Assemble(c, Next(c, st), p, p', Actor(st), Act(c, st).1);
  }

  // ---------- Whole runs

  function Beginning(n: nat): Protocol {
    Protocol(Fill(n, 0), seq(n, _ => [Dummy]), map[], map[], map[], map[], map[], {}, true)
  }

  lemma InitHolds(n: nat, c: State)
    requires Init(n, c)
    ensures Inv(c, Beginning(n))
  {
  }

  /** The history of the protocol along a run. */
  ghost predicate Explains(n: nat, run: seq<State>, steps: seq<Step>, ps: seq<Protocol>) {
    && |ps| == |run|
    && (forall k :: 0 <= k < |run| ==> |run[k].servers| == n && Inv(run[k], ps[k]))
    && (forall k, l :: 0 <= k <= l < |ps| ==> Grows(ps[k], ps[l]))
    && (forall k :: 0 <= k < |ps| && NoGraftBefore(run, steps, k) ==> ps[k].whole)
  }

  predicate NoGraftBefore(run: seq<State>, steps: seq<Step>, k: nat) {
    forall l :: 0 <= l < k && l < |run| && l < |steps| ==> !Grafts(run[l], steps[l])
  }

  lemma RunHistory(n: nat, run: seq<State>, steps: seq<Step>) returns (ps: seq<Protocol>)
    requires IsRun(n, run, steps)
    ensures Explains(n, run, steps, ps) && |ps| == |run| > 0
  {
    hide Inv, Grows, Init, Grafts, Ready, Safe, Next;
    InitHolds(n, run[0]);
    InitSize(n, run[0]);
    ps := [Beginning(n)];
    GrowsRefl(Beginning(n));
    assert ps[0].whole;
    for k := 0 to |steps|
      invariant |ps| == k + 1
      invariant forall l :: 0 <= l <= k ==> |run[l].servers| == n && Inv(run[l], ps[l])
      invariant forall j, l :: 0 <= j <= l <= k ==> Grows(ps[j], ps[l])
      invariant forall l :: 0 <= l <= k && NoGraftBefore(run, steps, l) ==> ps[l].whole
    {
      assert Taken(run[k], steps[k], run[k + 1]);
      var p' := StepKeeps(run[k], ps[k], steps[k]);
      forall j | 0 <= j <= k
        ensures Grows(ps[j], p')
      {
        GrowsTrans(ps[j], ps[k], p');
      }
      GrowsRefl(p');
      NextSize(run[k], steps[k]);
      assert NoGraftBefore(run, steps, k + 1) ==> NoGraftBefore(run, steps, k) && !Grafts(run[k], steps[k]);
      ps := ps + [p'];
    }
  }

  lemma InitSize(n: nat, c: State)
    requires Init(n, c)
    ensures |c.servers| == n
  {
  }

  lemma NextSize(c: State, st: Step)
    requires Ready(c, st) && Safe(c.servers[Actor(st)], st)
    ensures |Next(c, st).servers| == |c.servers|
  {
  }

  lemma GrowsRefl(p: Protocol)
    ensures Grows(p, p)
  {
  }

  // ---------- The log a server stands for

  /** Its snapshot's prefix followed by the entries it still holds. */
  function Held(s: Server): Log {
    if |s.logs| == 0 then [] else FullOf(s)
  }

  /** Server `v` at moment `a` of a run. */
  function At(run: seq<State>, a: nat, v: nat): Server
    requires a < |run| && v < |run[a].servers|
  {
    run[a].servers[v]
  }

  predicate Point(n: nat, run: seq<State>, a: nat, v: nat) {
    a < |run| && v < n && v < |run[a].servers|
  }

  lemma PointOk(n: nat, run: seq<State>, steps: seq<Step>, ps: seq<Protocol>, a: nat, v: nat)
    requires Explains(n, run, steps, ps) && Point(n, run, a, v)
    ensures ProtocolInv(ps[a]) && ServerOk(ps[a], v, At(run, a, v)) && n == |ps[a].terms|
  {
    hide ProtocolInv, ServerOk, Grows;
  }

  /** What `v` had committed at moment `a` is still covered at the end of the run. */
  lemma CommittedAt(n: nat, run: seq<State>, steps: seq<Step>, ps: seq<Protocol>, a: nat, v: nat)
    requires Explains(n, run, steps, ps) && Point(n, run, a, v)
    ensures var s := At(run, a, v);
      && ProtocolInv(ps[|ps| - 1])
      && |s.logs| > 0 && s.commitIndex < |FullOf(s)| && Held(s)[0] == Dummy
      && CoveredLog(ps[|ps| - 1], FullOf(s), s.currentTerm, s.commitIndex)
  {
    var last := |ps| - 1;
    assert Inv(run[last], ps[last]);
    assert Grows(ps[a], ps[last]);
    hide ProtocolInv, Grows, CoveredLog, LogLink, ApplyLink, CandidateLink, LeaderLink, VoteLink, Explains, Local,
      FullOf;
    PointOk(n, run, steps, ps, a, v);
    var s := At(run, a, v);
    LocalFacts(s, |ps[a].terms|);
    CoveredLogGrows(ps[a], ps[last], FullOf(s), s.currentTerm, s.currentTerm, s.commitIndex);
  }

  /** Two logs covered by commits agree as far as both are committed. */
  lemma CoveredAgree(p: Protocol, f: Log, t: nat, m: nat, g: Log, u: nat, k: nat)
    requires ProtocolInv(p) && CoveredLog(p, f, t, m) && CoveredLog(p, g, u, k)
    requires m < |f| && k < |g| && f[0] == Dummy == g[0]
    ensures Agree(f, g, Min(m, k) + 1)
  {
    hide ProtocolInv;
    if m > 0 && k > 0 {
      var t': nat, i: nat :| Reaches(p, t', i, t, m) && t' in p.lead && Agree(f, p.lead[t'], m + 1);
      var u': nat, j: nat :| Reaches(p, u', j, u, k) && u' in p.lead && Agree(g, p.lead[u'], k + 1);
      if t' <= u' {
        CommitAgrees(p, t', i, u');
      } else {
        CommitAgrees(p, u', j, t');
      }
    }
  }

  // ---------- The theorems

  /**
   State Machine Safety, section 5.4.3 of the Raft paper: no two servers, at any two moments of a run,
   hold different entries at an index both have committed.
   */
  lemma StateMachineSafety(n: nat, run: seq<State>, steps: seq<Step>, a: nat, v: nat, b: nat, w: nat, i: nat)
    requires IsRun(n, run, steps) && Point(n, run, a, v) && Point(n, run, b, w)
    requires i <= At(run, a, v).commitIndex && i <= At(run, b, w).commitIndex
    ensures i < |Held(At(run, a, v))| && i < |Held(At(run, b, w))|
    ensures Held(At(run, a, v))[i] == Held(At(run, b, w))[i]
  {
    hide IsRun, Explains, ProtocolInv, CoveredLog, FullOf;
    var ps := RunHistory(n, run, steps);
    CommittedAt(n, run, steps, ps, a, v);
    CommittedAt(n, run, steps, ps, b, w);
    var s, r := At(run, a, v), At(run, b, w);
    CoveredAgree(ps[|ps| - 1], FullOf(s), s.currentTerm, s.commitIndex, FullOf(r), r.currentTerm, r.commitIndex);
  }

  /** Election Safety, section 5.2: a term never has two leaders, crashes included. */
  lemma ElectionSafety(n: nat, run: seq<State>, steps: seq<Step>, a: nat, v: nat, b: nat, w: nat)
    requires IsRun(n, run, steps) && Point(n, run, a, v) && Point(n, run, b, w)
    requires At(run, a, v).role == Leader && At(run, b, w).role == Leader
    requires At(run, a, v).currentTerm == At(run, b, w).currentTerm
    ensures v == w
  {
    hide IsRun, Explains, ProtocolInv;
    var ps := RunHistory(n, run, steps);
    LeaderAt(n, run, steps, ps, a, v);
    LeaderAt(n, run, steps, ps, b, w);
  }

  /** A leader's identity and the log it took office with stay on record. */
  lemma LeaderAt(n: nat, run: seq<State>, steps: seq<Step>, ps: seq<Protocol>, a: nat, v: nat)
    requires Explains(n, run, steps, ps) && Point(n, run, a, v) && At(run, a, v).role == Leader
    ensures var s := At(run, a, v); var p := ps[|ps| - 1];
      && s.currentTerm in p.leaderOf && p.leaderOf[s.currentTerm] == v
      && s.currentTerm in p.lead && |s.logs| > 0 && |FullOf(s)| > 0
      && Agree(p.lead[s.currentTerm], FullOf(s), |FullOf(s)|)
      && Agree(FullOf(s), First(p, s.currentTerm), |First(p, s.currentTerm)|)
  {
    var last := |ps| - 1;
    assert Grows(ps[a], ps[last]);
    hide ProtocolInv, ServerOk, Explains, FullOf, Agree, Grows;
    PointOk(n, run, steps, ps, a, v);
    LeaderRecorded(ps[a], ps[last], v, At(run, a, v));
  }

  lemma LeaderRecorded(p: Protocol, p': Protocol, v: nat, s: Server)
    requires ServerOk(p, v, s) && s.role == Leader && Grows(p, p')
    ensures s.currentTerm in p'.leaderOf && p'.leaderOf[s.currentTerm] == v
    ensures s.currentTerm in p'.lead && |s.logs| > 0 && |FullOf(s)| > 0
    ensures Agree(p'.lead[s.currentTerm], FullOf(s), |FullOf(s)|)
    ensures Agree(FullOf(s), First(p', s.currentTerm), |First(p', s.currentTerm)|)
  {
    hide CoveredLog, LogLink, ApplyLink, CandidateLink, VoteLink, Local, FullOf, MatchOk;
  }

  /**
   Leader Completeness, section 5.4: what a leader has committed in its own term is in the log of
   every server that is ever the leader of a later term, whichever of the two happens first.
   */
  lemma LeaderCompleteness(n: nat, run: seq<State>, steps: seq<Step>, a: nat, v: nat, b: nat, w: nat, i: nat)
    requires IsRun(n, run, steps) && Point(n, run, a, v) && Point(n, run, b, w)
    requires At(run, a, v).role == Leader && At(run, b, w).role == Leader
    requires At(run, a, v).currentTerm < At(run, b, w).currentTerm
    requires i <= At(run, a, v).commitIndex
    ensures i < |Held(At(run, a, v))| && i < |Held(At(run, b, w))|
    ensures Held(At(run, a, v))[i] == Held(At(run, b, w))[i]
  {
    hide IsRun, Explains, ProtocolInv, FullOf;
    var ps := RunHistory(n, run, steps);
    LeaderAt(n, run, steps, ps, b, w);
    CommittedAt(n, run, steps, ps, a, v);
    var s, r := At(run, a, v), At(run, b, w);
    var p := ps[|ps| - 1];
    FirstHolds(p, FullOf(s), s.currentTerm, s.commitIndex, r.currentTerm, i);
    PointOk(n, run, steps, ps, b, w);
    WholeStart(ps[b], w, r);
  }

  lemma FirstHolds(p: Protocol, f: Log, t: nat, m: nat, u: nat, i: nat)
    requires ProtocolInv(p) && CoveredLog(p, f, t, m) && u in p.lead && t < u && i <= m && |f| > 0 && f[0] == Dummy
    ensures i > 0 ==> Agree(f, First(p, u), i + 1)
  {
    hide LogsGood, LeadsGood, StandsGood, VotesGood, LeadersElected, AckersHold, VotersHeld, AcksGood;
    if i > 0 {
      var t': nat, j: nat :| Reaches(p, t', j, t, m) && t' in p.lead && Agree(f, p.lead[t'], m + 1);
      assert Own(p, t', j) && Confirmed(p, t', j);
      ConfirmedIsChoosable(p, t', j);
    }
  }

  lemma WholeStart(p: Protocol, v: nat, s: Server)
    requires ServerOk(p, v, s)
    ensures |s.logs| > 0 && FullOf(s)[0] == Dummy
  {
  }

  lemma SizeAt(n: nat, run: seq<State>, steps: seq<Step>, ps: seq<Protocol>, a: nat)
    requires Explains(n, run, steps, ps) && a < |run|
    ensures |run[a].servers| == n
  {
    hide Inv, Grows;
  }

  lemma TakenReady(c: State, st: Step, c': State)
    requires Taken(c, st, c')
    ensures Ready(c, st)
  {
  }

  // ---------- No panic, and what the leader keeps about its peers

  /** Whatever region a server is about to run in a reachable state, it does not panic. */
  lemma NoPanic(n: nat, run: seq<State>, steps: seq<Step>, st: Step)
    requires IsRun(n, run, steps) && Ready(run[|run| - 1], st)
    ensures Safe(run[|run| - 1].servers[Actor(st)], st)
  {
    hide IsRun, Explains, Inv;
    var ps := RunHistory(n, run, steps);
    InvAt(n, run, steps, ps, |run| - 1);
    var p' := StepKeeps(run[|run| - 1], ps[|run| - 1], st);
  }

  lemma InvAt(n: nat, run: seq<State>, steps: seq<Step>, ps: seq<Protocol>, a: nat)
    requires Explains(n, run, steps, ps) && a < |run|
    ensures |ps| == |run| && Inv(run[a], ps[a])
  {
    hide Inv, Grows;
  }

  /** A leader's next and match indices stay within its log. */
  lemma ReplicationBounds(n: nat, run: seq<State>, steps: seq<Step>, a: nat, v: nat, j: nat)
    requires IsRun(n, run, steps) && Point(n, run, a, v) && At(run, a, v).role == Leader && j < n
    ensures var s := At(run, a, v);
      && j < |s.nextIndex| == |s.matchIndex| && |s.logs| > 0
      && 1 <= s.nextIndex[j] <= LastIndex(s.logs) + 1
      && s.matchIndex[j] <= LastIndex(s.logs)
  {
    hide IsRun, Explains, ProtocolInv;
    var ps := RunHistory(n, run, steps);
    PointOk(n, run, steps, ps, a, v);
    LeaderBounds(ps[a], v, At(run, a, v), j);
  }

  lemma LeaderBounds(p: Protocol, v: nat, s: Server, j: nat)
    requires ServerOk(p, v, s) && s.role == Leader && j < |p.terms|
    ensures j < |s.nextIndex| == |s.matchIndex| && |s.logs| > 0
    ensures 1 <= s.nextIndex[j] <= LastIndex(s.logs) + 1 && s.matchIndex[j] <= LastIndex(s.logs)
  {
    hide ApplyLink, CoveredLog, VoteLink, CandidateLink, LogLink, Covered, FullOf;
    LocalFacts(s, |p.terms|);
    assert MatchOk(p, s.currentTerm, j, s.matchIndex[j]);
  }

  /** A rejection a leader acts upon never points below index one. */
  lemma ConflictIndexPositive(n: nat, run: seq<State>, steps: seq<Step>, a: nat, m: Message)
    requires IsRun(n, run, steps) && a < |run| && m in run[a].net
    requires m.AppendAnswer? && !m.appendReply.success && m.appendReply.term == m.append.term
    ensures 1 <= m.appendReply.conflictIndex <= m.append.prevLogIndex
  {
    hide IsRun, Explains, ProtocolInv;
    var ps := RunHistory(n, run, steps);
    InvAt(n, run, steps, ps, a);
    assert MessageOk(ps[a], m);
  }

  /** The persister always holds the current term, vote and log; a restart finds them. */
  lemma PersistedAlways(n: nat, run: seq<State>, steps: seq<Step>, a: nat, v: nat)
    requires IsRun(n, run, steps) && Point(n, run, a, v)
    ensures var s := At(run, a, v);
      && (s.disk.state.Some? ==> |s.disk.state.value.logs| > 0)
      && var r := Restart(s.disk, n);
         r.currentTerm == s.currentTerm && r.votedFor == s.votedFor && r.logs == s.logs
  {
    hide IsRun, Explains, ProtocolInv, ApplyLink, CoveredLog, VoteLink, CandidateLink, LeaderLink, LogLink;
    var ps := RunHistory(n, run, steps);
    PointOk(n, run, steps, ps, a, v);
    RestartFinds(At(run, a, v), n);
  }

  /** What a server keeps is always its whole log with a prefix replaced by the snapshot on disk. */
  lemma CompactedAlways(n: nat, run: seq<State>, steps: seq<Step>, a: nat, v: nat)
    requires IsRun(n, run, steps) && Point(n, run, a, v)
    ensures Compacts(Held(At(run, a, v)), At(run, a, v).disk.snapshot, At(run, a, v).logs)
  {
    hide IsRun, Explains, ProtocolInv, ApplyLink, CoveredLog, VoteLink, CandidateLink, LeaderLink, LogLink;
    var ps := RunHistory(n, run, steps);
    PointOk(n, run, steps, ps, a, v);
  }

  // ---------- Follower commits

  /** A request never announces a commit beyond the entries it brings the follower up to. */
  lemma LeaderCommitWithinRequest(n: nat, run: seq<State>, steps: seq<Step>, a: nat, m: Message)
    requires IsRun(n, run, steps) && a < |run| && m in run[a].net && m.AppendRequest?
    ensures m.append.leaderCommit <= m.append.prevLogIndex + |m.append.entries|
  {
    hide IsRun, Explains, ProtocolInv, Covered;
    var ps := RunHistory(n, run, steps);
    InvAt(n, run, steps, ps, a);
    assert MessageOk(ps[a], m);
  }

  /**
   What a follower has committed in term `t` is what the leader of term `t` holds there, although the
   follower's commit index is bounded by its own last index only.
   */
  lemma FollowerCommitsLeadersEntries(n: nat, run: seq<State>, steps: seq<Step>, a: nat, v: nat, b: nat, w: nat, i: nat)
    requires IsRun(n, run, steps) && Point(n, run, a, v) && Point(n, run, b, w)
    requires At(run, b, w).role == Leader && At(run, a, v).currentTerm <= At(run, b, w).currentTerm
    requires i <= At(run, a, v).commitIndex && i < |Held(At(run, b, w))|
    ensures i < |Held(At(run, a, v))| && Held(At(run, a, v))[i] == Held(At(run, b, w))[i]
  {
    hide IsRun, Explains, ProtocolInv, FullOf, CoveredLog;
    var ps := RunHistory(n, run, steps);
    LeaderAt(n, run, steps, ps, b, w);
    CommittedAt(n, run, steps, ps, a, v);
    var s, r := At(run, a, v), At(run, b, w);
    CommittedInLead(ps[|ps| - 1], FullOf(s), s.currentTerm, s.commitIndex, r.currentTerm);
  }

  // ---------- What the service receives

  /**
   A received command is the one right after what was received last, and a received snapshot is strictly ahead of
   it.  Either way the service's state afterwards covers what was received.
   */
  lemma DeliveredInOrder(n: nat, run: seq<State>, steps: seq<Step>, k: nat)
    requires IsRun(n, run, steps) && k < |steps| && steps[k].ServiceReceive?
    ensures var v := steps[k].v;
      && v < |run[k].servers| == |run[k + 1].servers|
      && var s, s' := run[k].servers[v].service, run[k + 1].servers[v].service;
         && |s.channel| > 0 && s'.channel == s.channel[1..] && s.received < |s.applied|
         && InOrder(s, s.channel[0], s')
  {
    assert Taken(run[k], steps[k], run[k + 1]);
    ReceiveMoves(run[k], steps[k], run[k + 1]);
    hide Taken, IsRun, Explains, ProtocolInv, CoveredLog, VoteLink, CandidateLink, LeaderLink, LogLink, Inv, InOrder;
    var ps := RunHistory(n, run, steps);
    InvAt(n, run, steps, ps, k);
    ReceivesInOrder(ps[k], run[k], steps[k].v);
  }

  predicate InOrder(s: Service, m: ApplyMsg, s': Service)
    requires s.received < |s.applied|
  {
    match m
    case CommandMsg(e) =>
      && e.index == s'.received == s.received + 1
      && s'.applied == (if e.index < |s.applied| then s.applied else s.applied + [e])
      && e.index < |s'.applied| && s'.applied[e.index] == e
    case SnapshotMsg(snap, index) =>
      && s.received < index == s'.received && s'.applied == snap && |snap| == index + 1
      && s.applied[..s.received + 1] <= snap
      && (s.applied <= snap || snap <= s.applied)
  }

  lemma ReceiveMoves(c: State, st: Step, c': State)
    requires Taken(c, st, c') && st.ServiceReceive?
    ensures st.v < |c.servers| == |c'.servers|
    ensures c.servers[st.v].service.serving && |c.servers[st.v].service.channel| > 0
    ensures c'.servers[st.v] == RaftServer.Receive(c.servers[st.v])
  {
  }

  lemma ReceivesInOrder(p: Protocol, c: State, v: nat)
    requires Inv(c, p) && v < |c.servers| && c.servers[v].service.serving && |c.servers[v].service.channel| > 0
    ensures c.servers[v].service.received < |c.servers[v].service.applied|
    ensures InOrder(c.servers[v].service, c.servers[v].service.channel[0], RaftServer.Receive(c.servers[v]).service)
  {
    hide ProtocolInv, CoveredLog, VoteLink, CandidateLink, LeaderLink, LogLink, MessageOk, FullOf, Chain, BatchLink,
      Local;
    var s := c.servers[v];
    assert ServerOk(p, v, s);
    ReceiveLinks(s, |p.terms|);
  }

  /**
   A service that has not started from a newer snapshot than its server was started with reflects exactly what it
   has received, so that every command it receives extends its state by one entry.
   */
  predicate InStep(s: Service) {
    |s.applied| == s.received + 1
  }

  lemma InStepStays(n: nat, run: seq<State>, steps: seq<Step>, k: nat, v: nat)
    requires IsRun(n, run, steps) && k < |steps| && Point(n, run, k, v) && Point(n, run, k + 1, v)
    requires InStep(At(run, k, v).service) && steps[k] != ServiceStart(v) && steps[k] != CrashAndRestart(v)
    ensures InStep(At(run, k + 1, v).service)
  {
    assert Taken(run[k], steps[k], run[k + 1]);
    if steps[k] == ServiceReceive(v) {
      DeliveredInOrder(n, run, steps, k);
    } else {
      ServiceMoves(run[k], steps[k], run[k + 1], v);
    }
  }

  /** Nothing but these steps changes what a service has received and what it reflects. */
  lemma ServiceMoves(c: State, st: Step, c': State, v: nat)
    requires Taken(c, st, c') && v < |c.servers|
    requires st != ServiceStart(v) && st != CrashAndRestart(v) && st != ServiceReceive(v)
    ensures v < |c'.servers|
    ensures c'.servers[v].service == c.servers[v].service.(channel := c'.servers[v].service.channel)
  {
    hide Merge, MatchLog, CommitScan, ConflictFrom, InstalledLog;
  }

  /** What two services reflect, at any two moments, never differs: one is a prefix of the other. */
  lemma ServicesAgree(n: nat, run: seq<State>, steps: seq<Step>, a: nat, v: nat, b: nat, w: nat)
    requires IsRun(n, run, steps) && Point(n, run, a, v) && Point(n, run, b, w)
    ensures At(run, a, v).service.applied <= At(run, b, w).service.applied ||
      At(run, b, w).service.applied <= At(run, a, v).service.applied
  {
    hide IsRun, Explains, ProtocolInv, FullOf, CoveredLog;
    var ps := RunHistory(n, run, steps);
    var s, r := At(run, a, v), At(run, b, w);
    AppliedAt(n, run, steps, ps, a, v);
    AppliedAt(n, run, steps, ps, b, w);
    CommittedAt(n, run, steps, ps, a, v);
    CommittedAt(n, run, steps, ps, b, w);
    CoveredAgree(ps[|ps| - 1], FullOf(s), s.currentTerm, s.commitIndex, FullOf(r), r.currentTerm, r.commitIndex);
  }

  lemma AppliedAt(n: nat, run: seq<State>, steps: seq<Step>, ps: seq<Protocol>, a: nat, v: nat)
    requires Explains(n, run, steps, ps) && Point(n, run, a, v)
    ensures var s := At(run, a, v);
      |s.logs| > 0 && 1 <= |s.service.applied| <= s.commitIndex + 1 <= |FullOf(s)| &&
        s.service.applied == FullOf(s)[..|s.service.applied|]
  {
    hide Explains, ProtocolInv, FullOf, CoveredLog, VoteLink, CandidateLink, LeaderLink, LogLink;
    PointOk(n, run, steps, ps, a, v);
  }
}
