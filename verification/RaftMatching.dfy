/** Log Matching: exactly when it holds, where it holds in spite of everything, and which steps break it. */
module RaftMatching {
  import opened RaftTypes
  import opened RaftLog
  import opened RaftServer
  import opened Consensus
  import opened Cluster
  import opened ClusterInv
  import opened ClusterElections
  import opened ClusterReplication
  import opened ClusterSnapshots
  import opened RaftSafety

  predicate SamePrefix(f: Log, g: Log, i: nat) {
    i < |f| && i < |g| && f[i].term == g[i].term ==> Agree(f, g, i + 1)
  }

  /** Log Matching, section 5.3 of the Raft paper: same index and term on two servers means the same prefix. */
  ghost predicate LogsMatch(c: State) {
    forall v: nat, w: nat, i: nat :: v < |c.servers| && w < |c.servers| ==>
      SamePrefix(Held(c.servers[v]), Held(c.servers[w]), i)
  }

  /** The same for all logs that ever were, also those of one server at two moments. */
  ghost predicate LogsEverMatch(n: nat, run: seq<State>) {
    forall a: nat, v: nat, b: nat, w: nat, i: nat :: Point(n, run, a, v) && Point(n, run, b, w) ==>
      SamePrefix(Held(At(run, a, v)), Held(At(run, b, w)), i)
  }

  /** As long as no step grafts a snapshot, the logs of all servers match. */
  lemma LogMatching(n: nat, run: seq<State>, steps: seq<Step>, k: nat)
    requires IsRun(n, run, steps) && k < |run| && NoGraftBefore(run, steps, k)
    ensures LogsMatch(run[k])
  {
    hide Explains, Grafts, Taken, Init, NoGraftBefore;
    var ps := RunHistory(n, run, steps);
    forall v: nat, w: nat, i: nat | v < |run[k].servers| && w < |run[k].servers|
      ensures SamePrefix(Held(run[k].servers[v]), Held(run[k].servers[w]), i)
    {
      SizeAt(n, run, steps, ps, k);
      WholeAt(n, run, steps, ps, k, k, v);
      WholeAt(n, run, steps, ps, k, k, w);
      GoodLogsSamePrefix(Held(At(run, k, v)), Held(At(run, k, w)), ps[k].lead, i);
    }
  }

  /**
   All logs that ever were match exactly when no step grafts a snapshot: a follower that keeps entries beyond a
   snapshot without comparing terms then holds an entry it held before, with another prefix.
   */
  lemma LogMatchingOverTime(n: nat, run: seq<State>, steps: seq<Step>)
    requires IsRun(n, run, steps)
    ensures LogsEverMatch(n, run) <==> NoGraftBefore(run, steps, |steps|)
  {
    hide Explains, Grafts, Taken, Init;
    var ps := RunHistory(n, run, steps);
    if NoGraftBefore(run, steps, |steps|) {
      forall a: nat, v: nat, b: nat, w: nat, i: nat | Point(n, run, a, v) && Point(n, run, b, w)
        ensures SamePrefix(Held(At(run, a, v)), Held(At(run, b, w)), i)
      {
        WholeAt(n, run, steps, ps, a, |steps|, v);
        WholeAt(n, run, steps, ps, b, |steps|, w);
        GoodLogsSamePrefix(Held(At(run, a, v)), Held(At(run, b, w)), ps[|steps|].lead, i);
      }
    } else {
      var k :| 0 <= k < |steps| && Grafts(run[k], steps[k]);
      assert Taken(run[k], steps[k], run[k + 1]);
      GraftBreaks(n, run, steps, ps, k);
    }
  }

  lemma WholeAt(n: nat, run: seq<State>, steps: seq<Step>, ps: seq<Protocol>, a: nat, k: nat, v: nat)
    requires Explains(n, run, steps, ps) && Point(n, run, a, v) && a <= k < |run| && NoGraftBefore(run, steps, k)
    ensures |ps| == |run| && GoodLog(Held(At(run, a, v)), ps[k].lead)
  {
    assert Grows(ps[a], ps[k]);
    assert NoGraftBefore(run, steps, a);
    hide Explains, ProtocolInv, Local, ApplyLink, CoveredLog, VoteLink, CandidateLink, LeaderLink, NoGraftBefore,
      GoodLog, FullOf;
    PointOk(n, run, steps, ps, a, v);
    ShapeOf(ps[a], v, At(run, a, v));
    LogIsGood(ps[a], v);
    GoodLogGrows(ps[a].logs[v], ps[a].lead, ps[k].lead);
  }

  lemma LogIsGood(p: Protocol, v: nat)
    requires ProtocolInv(p) && v < |p.logs|
    ensures GoodLog(p.logs[v], p.lead)
  {
    hide LeadsGood, StandsGood, VotesGood, LeadersElected, AcksGood, AckersHold, VotersHeld, LeadersHold,
      CommitsConfirmed, GoodLog;
    assert GoodUpTo(p.logs[v], p.lead, p.terms[v]);
  }

  lemma GoodLogsSamePrefix(f: Log, g: Log, lead: map<nat, Log>, i: nat)
    requires GoodLog(f, lead) && GoodLog(g, lead)
    ensures SamePrefix(f, g, i)
  {
    if i < |f| && i < |g| && f[i].term == g[i].term {
      GoodLogsMatch(f, g, lead, i);
    }
  }

  /** The server's log before and after a graft agree beyond the snapshot but not at its end. */
  lemma GraftBreaks(n: nat, run: seq<State>, steps: seq<Step>, ps: seq<Protocol>, k: nat)
    requires Explains(n, run, steps, ps) && k + 1 < |run| && k < |steps|
    requires Taken(run[k], steps[k], run[k + 1]) && Grafts(run[k], steps[k])
    ensures !LogsEverMatch(n, run)
  {
    hide Explains, ProtocolInv, Inv, Taken, Held, SamePrefix;
    var v := steps[k].m.dst;
    InvAt(n, run, steps, ps, k);
    ServerAndMessage(run[k], ps[k], v, steps[k].m) by { TakenReady(run[k], steps[k], run[k + 1]); }
    InstallMoves(run[k], steps[k].m, run[k + 1]) by { assert steps[k] == Receive(steps[k].m); }
    assert Point(n, run, k, v) && Point(n, run, k + 1, v) by {
      SizeAt(n, run, steps, ps, k);
      SizeAt(n, run, steps, ps, k + 1);
    }
    GraftedLog(ps[k], v, run[k].servers[v], steps[k].m.install);
    assert !SamePrefix(Held(At(run, k, v)), Held(At(run, k + 1, v)), steps[k].m.install.lastIncludedIndex + 1);
  }

  lemma ServerAndMessage(c: State, p: Protocol, v: nat, m: Message)
    requires Inv(c, p) && v < |c.servers| && Ready(c, Receive(m))
    ensures ProtocolInv(p) && ServerOk(p, v, c.servers[v]) && MessageOk(p, m)
    ensures LogShape(c.servers[v].logs) && DummyIndex(c.servers[v].logs) <= c.servers[v].commitIndex
  {
    hide ProtocolInv, CoveredLog, VoteLink, CandidateLink, LeaderLink, LogLink, MessageOk, FullOf, ApplyLink;
    assert ServerOk(p, v, c.servers[v]);
  }

  lemma InstallMoves(c: State, m: Message, c': State)
    requires Taken(c, Receive(m), c') && m.InstallRequest?
    ensures m.dst < |c.servers| == |c'.servers| && LogShape(c.servers[m.dst].logs)
    ensures DummyIndex(c.servers[m.dst].logs) <= c.servers[m.dst].commitIndex
    ensures c'.servers[m.dst] == HandleInstall(c.servers[m.dst], m.install).0
  {
  }

  /** An accepted installation leaves the snapshot's prefix followed by what lay beyond it. */
  lemma InstalledHeld(p: Protocol, v: nat, s: Server, args: InstallArgs)
    requires ProtocolInv(p) && ServerOk(p, v, s) && InstallOk(p, args)
    requires args.term >= s.currentTerm && s.commitIndex < args.lastIncludedIndex
    requires LogShape(s.logs) && DummyIndex(s.logs) <= s.commitIndex
    ensures var b, s' := args.lastIncludedIndex, HandleInstall(s, args).0;
      && Held(s') == args.snapshot + (if b < |Held(s)| then Held(s)[b + 1..] else [])
      && s'.commitIndex == b && |args.snapshot| == b + 1 && args.snapshot[b].term == args.lastIncludedTerm
  {
    hide ProtocolInv, Local, ApplyLink, CoveredLog, VoteLink, CandidateLink, LeaderLink, LogLink, Covered, FullOf, Full,
      InstalledLog;
    ShapeOf(p, v, s);
    LocalFacts(s, |p.terms|);
    var s1 := if args.term > s.currentTerm then Persist(Follow(s, args.term)) else Follow(s, args.term);
    var s' := Installed(s1, args);
    assert HandleInstall(s, args).0 == s';
    InstalledFull(s, |p.terms|, args.lastIncludedIndex, args.lastIncludedTerm, args.snapshot);
    FullIs(s');
    assert args.snapshot + [] == args.snapshot;
  }

  lemma GraftedLog(p: Protocol, v: nat, s: Server, args: InstallArgs)
    requires ProtocolInv(p) && ServerOk(p, v, s) && InstallOk(p, args)
    requires args.term >= s.currentTerm && s.commitIndex < args.lastIncludedIndex < LastIndex(s.logs)
    requires InLog(s.logs, args.lastIncludedIndex)
    requires GetEntry(s.logs, args.lastIncludedIndex).term != args.lastIncludedTerm
    requires LogShape(s.logs) && DummyIndex(s.logs) <= s.commitIndex
    ensures !SamePrefix(Held(s), Held(HandleInstall(s, args).0), args.lastIncludedIndex + 1)
  {
    hide ProtocolInv, Local, ApplyLink, CoveredLog, VoteLink, CandidateLink, LeaderLink, LogLink, Covered, FullOf,
      HandleInstall;
    LocalFacts(s, |p.terms|);
    InstalledHeld(p, v, s, args);
    var f, f' := Held(s), Held(HandleInstall(s, args).0);
    assert f'[args.lastIncludedIndex + 1] == f[args.lastIncludedIndex + 1];
    assert f'[args.lastIncludedIndex] == args.snapshot[args.lastIncludedIndex];
  }

  // ---------- Where Log Matching holds whatever is installed

  lemma CommittedPrefixMatches(p: Protocol, w: Log, s: Server, g: Log, t: nat, b: nat, i: nat)
    requires ProtocolInv(p) && LogLinked(p, w, s) && CoveredLog(p, g, t, b) && b < |g| && g[0] == Dummy
    requires i <= b
    ensures |s.logs| > 0 && SamePrefix(FullOf(s), g, i)
  {
    hide ProtocolInv, CoveredLog, GoodLog;
    var f := FullOf(s);
    CoveredAgree(p, f, s.currentTerm, s.commitIndex, g, t, b);
    if s.commitIndex < i < |f| && f[i].term == g[i].term {
      CoveredInLead(p, g, t, b, i, w);
    }
  }

  /** A server's log, grafted or not: above its dummy it is that of `w`, up to its commit it is agreed. */
  ghost predicate LogLinked(p: Protocol, w: Log, s: Server) {
    && GoodLog(w, p.lead) && |s.logs| > 0
    && DummyIndex(s.logs) <= s.commitIndex < |FullOf(s)| == |w|
    && FullOf(s)[0] == Dummy
    && CoveredLog(p, FullOf(s), s.currentTerm, s.commitIndex)
    && forall k :: DummyIndex(s.logs) < k < |FullOf(s)| ==> FullOf(s)[k] == w[k]
  }

  lemma CoveredInLead(p: Protocol, g: Log, t: nat, b: nat, i: nat, w: Log)
    requires ProtocolInv(p) && CoveredLog(p, g, t, b) && 0 < i <= b < |g| && GoodLog(w, p.lead)
    requires i < |w| && w[i].term == g[i].term
    ensures Agree(w, g, i + 1)
  {
    hide ProtocolInv, GoodLog;
    var u: nat, j: nat :| Reaches(p, u, j, t, b) && u in p.lead && Agree(g, p.lead[u], b + 1);
    LeadIsGood(p, u);
    GoodLogsMatch(w, p.lead[u], p.lead, i);
  }

  lemma LeadIsGood(p: Protocol, u: nat)
    requires ProtocolInv(p) && u in p.lead
    ensures GoodLog(p.lead[u], p.lead)
  {
    hide LogsGood, StandsGood, VotesGood, LeadersElected, AcksGood, AckersHold, VotersHeld, LeadersHold,
      CommitsConfirmed, GoodLog;
    assert GoodUpTo(p.lead[u], p.lead, u);
  }

  lemma LinkedAt(p: Protocol, p': Protocol, v: nat, s: Server)
    requires ProtocolInv(p) && ServerOk(p, v, s) && Grows(p, p')
    ensures LogLinked(p', p.logs[v], s)
  {
    hide ProtocolInv, ApplyLink, CoveredLog, VoteLink, CandidateLink, LeaderLink, GoodLog, FullOf, Local, Grows;
    ShapeOf(p, v, s);
    LocalFacts(s, |p.terms|);
    LogIsGood(p, v);
    LeadsOnlyGrow(p, p');
    GoodLogGrows(p.logs[v], p.lead, p'.lead);
    CoveredLogGrows(p, p', FullOf(s), s.currentTerm, s.currentTerm, s.commitIndex);
  }

  lemma LeadsOnlyGrow(p: Protocol, p': Protocol)
    requires Grows(p, p')
    ensures LeadGrows(p.lead, p'.lead)
  {
  }

  /** Whatever is installed: where one of two servers, at any two moments, has committed, their logs match. */
  lemma CommittedMatch(n: nat, run: seq<State>, steps: seq<Step>, a: nat, v: nat, b: nat, w: nat, i: nat)
    requires IsRun(n, run, steps) && Point(n, run, a, v) && Point(n, run, b, w) && i <= At(run, b, w).commitIndex
    ensures SamePrefix(Held(At(run, a, v)), Held(At(run, b, w)), i)
  {
    hide IsRun, Explains, ProtocolInv, ServerOk, SamePrefix;
    var ps := RunHistory(n, run, steps);
    var last := |ps| - 1;
    LinkedLater(n, run, steps, ps, a, v);
    LinkedLater(n, run, steps, ps, b, w);
    var r := At(run, b, w);
    CommittedPrefixMatches(ps[last], ps[a].logs[v], At(run, a, v), FullOf(r), r.currentTerm, r.commitIndex, i);
  }

  lemma LinkedLater(n: nat, run: seq<State>, steps: seq<Step>, ps: seq<Protocol>, a: nat, v: nat)
    requires Explains(n, run, steps, ps) && Point(n, run, a, v)
    ensures |ps| == |run| && ProtocolInv(ps[|ps| - 1]) && v < |ps[a].logs|
    ensures LogLinked(ps[|ps| - 1], ps[a].logs[v], At(run, a, v))
  {
    assert Grows(ps[a], ps[|ps| - 1]);
    InvAt(n, run, steps, ps, |run| - 1);
    hide Explains, ProtocolInv, ServerOk, LogLinked, Grows;
    PointOk(n, run, steps, ps, a, v);
    LogsSize(ps[a], v, At(run, a, v));
    LinkedAt(ps[a], ps[|ps| - 1], v, At(run, a, v));
  }

  lemma LogsSize(p: Protocol, v: nat, s: Server)
    requires ServerOk(p, v, s)
    ensures v < |p.logs|
  {
  }

  // ---------- Exactly when Log Matching holds

  /**
   The two logs share the first entry above both dummies, by index and term, and differ in the term right below it.
   As long as no step has grafted there is no seam (`LogMatching`).
   */
  predicate Seam(s: Server, r: Server) {
    && |s.logs| > 0 && |r.logs| > 0
    && var b := Max(DummyIndex(s.logs), DummyIndex(r.logs));
       HoldsToo(Held(s), Held(r), b + 1) && Held(s)[b].term != Held(r)[b].term
  }

  predicate HoldsToo(f: Log, g: Log, i: nat) {
    i < |f| && i < |g| && f[i].term == g[i].term
  }

  /**
   In every run, grafts or not, and at every moment: the logs of all servers match if and only if no two of them meet
   in a seam.
   */
  lemma LogMatchingExactly(n: nat, run: seq<State>, steps: seq<Step>, k: nat)
    requires IsRun(n, run, steps) && k < |run|
    ensures LogsMatch(run[k]) <==>
            forall v, w :: 0 <= v < |run[k].servers| && 0 <= w < |run[k].servers| ==>
              !Seam(run[k].servers[v], run[k].servers[w])
  {
    hide IsRun, Explains, SamePrefix, Held, Seam;
    var ps := RunHistory(n, run, steps);
    SizeAt(n, run, steps, ps, k);
    forall v: nat, w: nat | v < |run[k].servers| && w < |run[k].servers|
      ensures (forall i: nat :: SamePrefix(Held(run[k].servers[v]), Held(run[k].servers[w]), i)) <==>
              !Seam(run[k].servers[v], run[k].servers[w])
    {
      MatchExactly(n, run, steps, k, v, k, w);
    }
  }

  /** The same for any two servers at any two moments. */
  lemma MatchExactly(n: nat, run: seq<State>, steps: seq<Step>, a: nat, v: nat, b: nat, w: nat)
    requires IsRun(n, run, steps) && Point(n, run, a, v) && Point(n, run, b, w)
    ensures (forall i: nat :: SamePrefix(Held(At(run, a, v)), Held(At(run, b, w)), i)) <==>
            !Seam(At(run, a, v), At(run, b, w))
  {
    var s, r := At(run, a, v), At(run, b, w);
    hide IsRun, SamePrefix, Held;
    if Seam(s, r) {
      SeamMismatch(s, r);
    } else {
      forall i: nat
        ensures SamePrefix(Held(s), Held(r), i)
      {
        NoSeamMatches(n, run, steps, a, v, b, w, i);
      }
    }
  }

  lemma SeamMismatch(s: Server, r: Server)
    requires Seam(s, r)
    ensures !SamePrefix(Held(s), Held(r), Max(DummyIndex(s.logs), DummyIndex(r.logs)) + 1)
  {
    hide Held;
  }

  lemma NoSeamMatches(n: nat, run: seq<State>, steps: seq<Step>, a: nat, v: nat, b: nat, w: nat, i: nat)
    requires IsRun(n, run, steps) && Point(n, run, a, v) && Point(n, run, b, w)
    requires !Seam(At(run, a, v), At(run, b, w))
    ensures SamePrefix(Held(At(run, a, v)), Held(At(run, b, w)), i)
  {
    hide IsRun, Explains, ProtocolInv, SamePrefix, Seam, LogLinked;
    var s, r := At(run, a, v), At(run, b, w);
    var ps := RunHistory(n, run, steps);
    LinkedLater(n, run, steps, ps, a, v);
    LinkedLater(n, run, steps, ps, b, w);
    var p, x, y := ps[|ps| - 1], ps[a].logs[v], ps[b].logs[w];
    LinkedCommit(p, x, s);
    LinkedCommit(p, y, r);
    var base := Max(DummyIndex(s.logs), DummyIndex(r.logs));
    MatchedBelow(n, run, steps, a, v, b, w, if i < base then i else base);
    if i > base {
      MatchedAbove(p, x, s, y, r, i);
    }
  }

  lemma LinkedCommit(p: Protocol, w: Log, s: Server)
    requires LogLinked(p, w, s)
    ensures |s.logs| > 0 && DummyIndex(s.logs) <= s.commitIndex
  {
    hide CoveredLog, GoodLog;
  }

  /** Up to the larger dummy one of the two has committed. */
  lemma MatchedBelow(n: nat, run: seq<State>, steps: seq<Step>, a: nat, v: nat, b: nat, w: nat, i: nat)
    requires IsRun(n, run, steps) && Point(n, run, a, v) && Point(n, run, b, w)
    requires i <= At(run, a, v).commitIndex || i <= At(run, b, w).commitIndex
    ensures SamePrefix(Held(At(run, a, v)), Held(At(run, b, w)), i)
  {
    hide IsRun, SamePrefix, Held;
    if i <= At(run, b, w).commitIndex {
      CommittedMatch(n, run, steps, a, v, b, w, i);
    } else {
      CommittedMatch(n, run, steps, b, w, a, v, i);
      SamePrefixSwap(Held(At(run, b, w)), Held(At(run, a, v)), i);
    }
  }

  /** Above both dummies the logs are good ones, so that a common term carries down to the seam. */
  lemma MatchedAbove(p: Protocol, x: Log, s: Server, y: Log, r: Server, i: nat)
    requires LogLinked(p, x, s) && LogLinked(p, y, r) && !Seam(s, r)
    requires var base := Max(DummyIndex(s.logs), DummyIndex(r.logs));
      base < i && SamePrefix(Held(s), Held(r), base)
    ensures SamePrefix(Held(s), Held(r), i)
  {
    hide GoodLog, CoveredLog, FullOf;
    var f, g := Held(s), Held(r);
    if i < |f| && i < |g| && f[i].term == g[i].term {
      GoodLogsMatch(x, y, p.lead, i);
      assert f[i] == x[i] && g[i] == y[i];
      var base := Max(DummyIndex(s.logs), DummyIndex(r.logs));
      assert forall j :: base < j <= i ==> f[j] == x[j] && g[j] == y[j] && x[j] == y[j];
      assert Agree(f, g, base + 1);
    }
  }

  // ---------- Installing a snapshot

  /** A graft that leaves another server with the entry that follows the snapshot, in its old surroundings. */
  ghost predicate Splits(c: State, st: Step) {
    && Grafts(c, st)
    && var d, b := st.m.dst, st.m.install.lastIncludedIndex;
       exists w :: 0 <= w < |c.servers| && w != d && HoldsToo(Held(c.servers[d]), Held(c.servers[w]), b + 1)
  }

  /** The effect of handling a request for an installation on what the server holds. */
  lemma InstallHeld(n: nat, run: seq<State>, steps: seq<Step>, k: nat)
    requires IsRun(n, run, steps) && k < |steps| && steps[k].Receive? && steps[k].m.InstallRequest?
    ensures |run[k].servers| == |run[k + 1].servers| == n
    ensures var d, args := steps[k].m.dst, steps[k].m.install;
      && Point(n, run, k, d) && Point(n, run, k + 1, d)
      && run[k + 1].servers == run[k].servers[d := At(run, k + 1, d)]
      && var s, s' := At(run, k, d), At(run, k + 1, d);
         if Accepted(s, args) then Replaced(s, args, s') else Held(s') == Held(s)
  {
    assert Taken(run[k], steps[k], run[k + 1]);
    hide IsRun, Explains, ProtocolInv, Inv, Taken, Replaced;
    var ps := RunHistory(n, run, steps);
    var m := steps[k].m;
    InvAt(n, run, steps, ps, k);
    SizeAt(n, run, steps, ps, k);
    SizeAt(n, run, steps, ps, k + 1);
    ServerAndMessage(run[k], ps[k], m.dst, m) by { TakenReady(run[k], steps[k], run[k + 1]); }
    InstallMoves(run[k], m, run[k + 1]) by { assert steps[k] == Receive(m); }
    ActorMoves(run[k], steps[k], run[k + 1]);
    if Accepted(run[k].servers[m.dst], m.install) {
      ReplacedHeld(ps[k], m.dst, run[k].servers[m.dst], m.install);
    } else {
      RefusedHeld(run[k].servers[m.dst], m.install);
    }
  }

  predicate Accepted(s: Server, args: InstallArgs) {
    args.term >= s.currentTerm && args.lastIncludedIndex > s.commitIndex
  }

  predicate Replaced(s: Server, args: InstallArgs, s': Server) {
    var b := args.lastIncludedIndex;
    && Held(s') == args.snapshot + (if b < |Held(s)| then Held(s)[b + 1..] else [])
    && s'.commitIndex == b && |args.snapshot| == b + 1 && args.snapshot[b].term == args.lastIncludedTerm
    && |s.logs| > 0 && DummyIndex(s.logs) <= s.commitIndex
    && |Held(s)| == LastIndex(s.logs) + 1
    && (InLog(s.logs, b) ==> b < |Held(s)| && GetEntry(s.logs, b) == Held(s)[b])
    && (b < |Held(s)| ==> InLog(s.logs, b))
  }

  lemma ReplacedHeld(p: Protocol, v: nat, s: Server, args: InstallArgs)
    requires ProtocolInv(p) && ServerOk(p, v, s) && InstallOk(p, args) && Accepted(s, args)
    requires LogShape(s.logs) && DummyIndex(s.logs) <= s.commitIndex
    ensures Replaced(s, args, HandleInstall(s, args).0)
  {
    hide ProtocolInv, Local, ApplyLink, CoveredLog, VoteLink, CandidateLink, LeaderLink, LogLink, Covered, FullOf,
      HandleInstall;
    InstalledHeld(p, v, s, args);
    LocalFacts(s, |p.terms|);
  }

  lemma RefusedHeld(s: Server, args: InstallArgs)
    requires LogShape(s.logs) && DummyIndex(s.logs) <= s.commitIndex && !Accepted(s, args)
    ensures Held(HandleInstall(s, args).0) == Held(s)
  {
  }

  lemma ActorMoves(c: State, st: Step, c': State)
    requires Taken(c, st, c')
    ensures Actor(st) < |c.servers| == |c'.servers| && c'.servers == c.servers[Actor(st) := c'.servers[Actor(st)]]
  {
    hide Act;
  }

  /**
   An installation keeps Log Matching if and only if it is not a graft that leaves another server with the entry right
   behind the snapshot.  A graft that keeps it may still be exposed later, when an append brings that entry to another
   server.
   */
  lemma InstallMatches(n: nat, run: seq<State>, steps: seq<Step>, k: nat)
    requires IsRun(n, run, steps) && k < |steps| && steps[k].Receive? && steps[k].m.InstallRequest?
    requires LogsMatch(run[k])
    ensures LogsMatch(run[k + 1]) <==> !Splits(run[k], steps[k])
  {
    hide IsRun, SamePrefix, Held, Grafts;
    InstallHeld(n, run, steps, k);
    var d := steps[k].m.dst;
    if Splits(run[k], steps[k]) {
      var w :| 0 <= w < |run[k].servers| && w != d
        && HoldsToo(Held(run[k].servers[d]), Held(run[k].servers[w]), steps[k].m.install.lastIncludedIndex + 1);
      GraftsAccepts(run[k], steps[k]);
      SplitMismatch(run[k], steps[k], At(run, k + 1, d), w);
      assert run[k + 1].servers[w] == run[k].servers[w];
    } else {
      var c' := run[k + 1];
      forall v: nat, w: nat, i: nat | v < |c'.servers| && w < |c'.servers|
        ensures SamePrefix(Held(c'.servers[v]), Held(c'.servers[w]), i)
      {
        if v == d {
          StillMatches(n, run, steps, k, w, i);
        } else if w == d {
          StillMatches(n, run, steps, k, v, i);
          SamePrefixSwap(Held(run[k + 1].servers[d]), Held(run[k + 1].servers[v]), i);
        } else {
          assert run[k + 1].servers[v] == run[k].servers[v] && run[k + 1].servers[w] == run[k].servers[w];
        }
      }
    }
  }

  lemma GraftsAccepts(c: State, st: Step)
    requires Grafts(c, st)
    ensures Accepted(c.servers[st.m.dst], st.m.install)
  {
  }

  lemma SamePrefixSwap(f: Log, g: Log, i: nat)
    requires SamePrefix(f, g, i)
    ensures SamePrefix(g, f, i)
  {
  }

  lemma SplitMismatch(c: State, st: Step, s': Server, w: nat)
    requires Grafts(c, st) && Replaced(c.servers[st.m.dst], st.m.install, s') && w < |c.servers|
    requires HoldsToo(Held(c.servers[st.m.dst]), Held(c.servers[w]), st.m.install.lastIncludedIndex + 1)
    requires SamePrefix(Held(c.servers[st.m.dst]), Held(c.servers[w]), st.m.install.lastIncludedIndex + 1)
    ensures !SamePrefix(Held(s'), Held(c.servers[w]), st.m.install.lastIncludedIndex + 1)
  {
    hide Held;
    var b := st.m.install.lastIncludedIndex;
    var f, f', g := Held(c.servers[st.m.dst]), Held(s'), Held(c.servers[w]);
    assert f'[b + 1] == f[b + 1] && f'[b] == st.m.install.snapshot[b];
    assert f[b] == g[b];
  }

  lemma StillMatches(n: nat, run: seq<State>, steps: seq<Step>, k: nat, w: nat, i: nat)
    requires IsRun(n, run, steps) && k < |steps| && steps[k].Receive? && steps[k].m.InstallRequest?
    requires LogsMatch(run[k]) && !Splits(run[k], steps[k]) && Point(n, run, k + 1, w)
    ensures Point(n, run, k + 1, steps[k].m.dst)
    ensures SamePrefix(Held(At(run, k + 1, steps[k].m.dst)), Held(At(run, k + 1, w)), i)
  {
    hide IsRun, SamePrefix, Held, LogsMatch;
    InstallHeld(n, run, steps, k);
    var d, args := steps[k].m.dst, steps[k].m.install;
    var s, s' := At(run, k, d), At(run, k + 1, d);
    if w == d {
      SamePrefixRefl(Held(s'), i);
    } else {
      assert run[k + 1].servers[w] == run[k].servers[w];
      MatchAt(run[k], d, w, i);
      if Accepted(s, args) {
        var b := args.lastIncludedIndex;
        if i <= b {
          CommittedMatch(n, run, steps, k + 1, w, k + 1, d, i);
          SamePrefixSwap(Held(At(run, k + 1, w)), Held(s'), i);
        } else {
          CommittedMatch(n, run, steps, k, d, k + 1, d, b);
          BeyondMatches(run[k], steps[k], s', w, i);
        }
      }
    }
  }

  lemma SamePrefixRefl(f: Log, i: nat)
    ensures SamePrefix(f, f, i)
  {
  }

  lemma MatchAt(c: State, v: nat, w: nat, i: nat)
    requires LogsMatch(c) && v < |c.servers| && w < |c.servers|
    ensures SamePrefix(Held(c.servers[v]), Held(c.servers[w]), i)
  {
  }

  lemma BeyondMatches(c: State, st: Step, s': Server, w: nat, i: nat)
    requires st.Receive? && st.m.InstallRequest? && st.m.dst < |c.servers| && w < |c.servers| && w != st.m.dst
    requires Accepted(c.servers[st.m.dst], st.m.install) && Replaced(c.servers[st.m.dst], st.m.install, s')
    requires !Splits(c, st) && i > st.m.install.lastIncludedIndex
    requires SamePrefix(Held(c.servers[st.m.dst]), Held(c.servers[w]), i)
    requires SamePrefix(Held(c.servers[st.m.dst]), Held(s'), st.m.install.lastIncludedIndex)
    ensures SamePrefix(Held(s'), Held(c.servers[w]), i)
  {
    hide Held;
    var s, b := c.servers[st.m.dst], st.m.install.lastIncludedIndex;
    var f, f', g := Held(s), Held(s'), Held(c.servers[w]);
    if i < |f'| && i < |g| && f'[i].term == g[i].term {
      assert b < |f| && f'[i] == f[i];
      assert Agree(f, g, i + 1);
      assert f'[b] == st.m.install.snapshot[b];
      assert Agree(f, f', b + 1);
      assert forall j :: b < j <= i ==> f'[j] == f[j];
    }
  }
}
