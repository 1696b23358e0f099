/**
 How a leader finds the point from which a follower's log can be repaired, and how long it takes
 when nothing else happens in between.
 */
module RaftBackoff {
  import opened RaftTypes
  import opened RaftLog
  import opened RaftServer
  import opened Consensus
  import opened Cluster
  import opened ClusterInv
  import opened ClusterElections
  import opened ClusterReplication
  import opened RaftSafety
  import opened RaftMatching

  /** The terms of the entries above the dummy, up to index `i`. */
  function TermsUpTo(l: Log, i: nat): set<nat>
    requires LogShape(l)
  {
    set k | 1 <= k < |l| && k <= i - DummyIndex(l) :: l[k].term
  }

  /** Log Matching between what the leader and the follower hold above their dummies. */
  ghost predicate Matching(l: Log, f: Log)
    requires LogShape(l) && LogShape(f)
  {
    && (DummyIndex(l) <= DummyIndex(f) ==>
          DummyIndex(f) <= LastIndex(l) && GetEntry(l, DummyIndex(f)).term == f[0].term)
    && (forall i, j :: 1 <= i <= j < |f| ==> f[i].term <= f[j].term)
    && (forall i, k :: Base(l, f) < k <= i && InLog(l, i) && InLog(f, i) && GetEntry(l, i).term == GetEntry(f, i).term
          ==> GetEntry(l, k) == GetEntry(f, k))
  }

  /** Above this index both logs hold entries. */
  function Base(l: Log, f: Log): nat
    requires |l| > 0 && |f| > 0
  {
    Max(DummyIndex(l), DummyIndex(f))
  }

  /** Leader `ld` and server `fo`, its peer number `peer`, of no later term. */
  predicate Talk(ld: Server, fo: Server, peer: nat) {
    && ld.role == Leader
    && LogShape(ld.logs) && LogShape(fo.logs)
    && DummyIndex(ld.logs) <= ld.commitIndex
    && peer < |ld.nextIndex| == |ld.matchIndex|
    && fo.currentTerm <= ld.currentTerm
    && ld.currentTerm >= 1
    && ld.nextIndex[peer] <= LastIndex(ld.logs) + 1
  }

  /** The leader's next round starts above the follower's dummy. */
  ghost predicate Setup(ld: Server, fo: Server, peer: nat) {
    Talk(ld, fo, peer) && DummyIndex(fo.logs) < ld.nextIndex[peer] && Matching(ld.logs, fo.logs)
  }

  /** The next round carries entries; otherwise it carries a snapshot. */
  predicate SendsEntries(ld: Server, peer: nat) {
    |ld.logs| > 0 && peer < |ld.nextIndex| && DummyIndex(ld.logs) < ld.nextIndex[peer]
  }

  function Request(ld: Server, me: nat, peer: nat): AppendArgs
    requires ld.role == Leader && CanSend(ld, peer) && DummyIndex(ld.logs) < ld.nextIndex[peer]
  {
    Send(ld, me, peer).append
  }

  lemma RequestShape(ld: Server, fo: Server, me: nat, peer: nat)
    requires Talk(ld, fo, peer) && SendsEntries(ld, peer)
    ensures CanSend(ld, peer) && DummyIndex(ld.logs) < ld.nextIndex[peer]
    ensures var args := Request(ld, me, peer);
      && args.term == ld.currentTerm && args.prevLogIndex == ld.nextIndex[peer] - 1
      && args.prevLogTerm == GetEntry(ld.logs, args.prevLogIndex).term
      && args.prevLogIndex + |args.entries| == LastIndex(ld.logs)
      && (forall k :: 0 <= k < |args.entries| ==> args.entries[k] == GetEntry(ld.logs, args.prevLogIndex + 1 + k))
      && CanHandleAppend(fo, args)
  {
  }

  /** One round trip: the leader sends, the follower answers, the leader takes note. */
  ghost function Round(ld: Server, fo: Server, me: nat, peer: nat): (Server, Server, AppendReply)
    requires Talk(ld, fo, peer) && SendsEntries(ld, peer)
  {
    RequestShape(ld, fo, me, peer);
    var args := Request(ld, me, peer);
    var (fo', reply) := HandleAppend(fo, args);
    (AppendReturned(ld, me, peer, args, reply), fo', reply)
  }

  /** How many more rejections there can be. */
  ghost function Budget(ld: Server, fo: Server, peer: nat): nat
    requires Setup(ld, fo, peer)
  {
    var prev := ld.nextIndex[peer] - 1;
    if prev > LastIndex(fo.logs) then 1 + |TermsUpTo(fo.logs, LastIndex(fo.logs))| else |TermsUpTo(fo.logs, prev)|
  }

  lemma {:induction false} ConflictBelow(l: Log, index: nat, term: nat)
    requires LogShape(l) && InLog(l, index) && index > DummyIndex(l)
    requires forall i, j :: 1 <= i <= j < |l| ==> l[i].term <= l[j].term
    requires GetEntry(l, index).term <= term
    ensures var c := ConflictFrom(l, index, term);
      DummyIndex(l) < c <= index && (c == DummyIndex(l) + 1 || GetEntry(l, c).term < term)
    decreases index
  {
    if index > DummyIndex(l) + 1 && GetEntry(l, index).term == term {
      ConflictBelow(l, index - 1, term);
    }
  }

  /** Backing off past a term leaves strictly fewer terms to disagree about. */
  lemma FewerTerms(l: Log, prev: nat, c: nat)
    requires LogShape(l) && InLog(l, prev) && DummyIndex(l) < c <= prev
    requires forall i, j :: 1 <= i <= j < |l| ==> l[i].term <= l[j].term
    requires c == DummyIndex(l) + 1 || GetEntry(l, c).term < GetEntry(l, prev).term
    ensures |TermsUpTo(l, c - 1)| < |TermsUpTo(l, prev)|
  {
    var less, more := TermsUpTo(l, c - 1), TermsUpTo(l, prev);
    var u := GetEntry(l, prev).term;
    assert less <= more;
    assert u in more by { assert l[prev - DummyIndex(l)].term == u; }
    assert u !in less;
    Subset(less, more, u);
  }

  lemma Subset(less: set<nat>, more: set<nat>, u: nat)
    requires less <= more && u in more && u !in less
    ensures |less| < |more|
  {
    assert more == less + (more - less);
    assert u in more - less;
  }

  /** How the follower answers a request of its leader that reaches into its log. */
  lemma FollowerAnswers(fo: Server, args: AppendArgs)
    requires CanHandleAppend(fo, args) && args.term >= fo.currentTerm && args.prevLogIndex >= DummyIndex(fo.logs)
    requires Continues(fo.logs, args.entries) || !MatchLog(fo.logs, args.prevLogTerm, args.prevLogIndex)
    ensures var (fo', reply) := HandleAppend(fo, args);
      && reply.term == fo'.currentTerm == args.term
      && (reply.success <==> MatchLog(fo.logs, args.prevLogTerm, args.prevLogIndex))
      && (reply.success ==> fo'.logs == Merge(fo.logs, args.entries))
      && (!reply.success ==> fo'.logs == fo.logs && fo'.commitIndex == fo.commitIndex)
      && (!reply.success && args.prevLogIndex > LastIndex(fo.logs) ==> reply.conflictIndex == LastIndex(fo.logs) + 1)
      && (!reply.success && args.prevLogIndex <= LastIndex(fo.logs) ==>
            reply.conflictIndex == ConflictFrom(fo.logs, args.prevLogIndex, GetEntry(fo.logs, args.prevLogIndex).term))
  {
    hide Merge, ConflictFrom;
  }

  /** Entries sent from within the follower's log continue it. */
  lemma SentContinue(ld: Server, fo: Server, me: nat, peer: nat)
    requires Setup(ld, fo, peer) && SendsEntries(ld, peer)
    ensures CanSend(ld, peer) && DummyIndex(ld.logs) < ld.nextIndex[peer]
    ensures var args := Request(ld, me, peer);
      args.prevLogIndex <= LastIndex(fo.logs) ==> Continues(fo.logs, args.entries)
  {
    hide Matching;
  }

  /** The follower rejects: it keeps its log, and the leader goes back to the conflict index. */
  lemma RejectedState(ld: Server, fo: Server, me: nat, peer: nat) returns (c: nat)
    requires Setup(ld, fo, peer) && SendsEntries(ld, peer) && !Round(ld, fo, me, peer).2.success
    ensures var prev := ld.nextIndex[peer] - 1;
      && DummyIndex(fo.logs) < c <= prev
      && (prev > LastIndex(fo.logs) ==> c == LastIndex(fo.logs) + 1)
      && (prev <= LastIndex(fo.logs) ==>
            c == DummyIndex(fo.logs) + 1 || GetEntry(fo.logs, c).term < GetEntry(fo.logs, prev).term)
    ensures var (ld', fo', _) := Round(ld, fo, me, peer);
      && ld' == ld.(nextIndex := ld.nextIndex[peer := c]) && fo'.currentTerm == ld.currentTerm
      && fo'.logs == fo.logs && fo'.commitIndex == fo.commitIndex
  {
    hide Merge, HandleAppend, Matching, Send, ConflictFrom, CommitScan, Continues;
    RequestShape(ld, fo, me, peer);
    SentContinue(ld, fo, me, peer);
    FollowerAnswers(fo, Request(ld, me, peer));
    MatchingFacts(ld.logs, fo.logs);
    var prev := ld.nextIndex[peer] - 1;
    var f := fo.logs;
    if prev <= LastIndex(f) {
      c := ConflictFrom(f, prev, GetEntry(f, prev).term);
      ConflictBelow(f, prev, GetEntry(f, prev).term);
    } else {
      c := LastIndex(f) + 1;
    }
  }

  /** A rejection strictly lowers the next index, leaves both logs alone and uses up budget. */
  lemma RejectionBacksOff(ld: Server, fo: Server, me: nat, peer: nat)
    requires Setup(ld, fo, peer) && SendsEntries(ld, peer) && !Round(ld, fo, me, peer).2.success
    ensures var (ld', fo', _) := Round(ld, fo, me, peer);
      && ld' == ld.(nextIndex := ld'.nextIndex) && fo'.logs == fo.logs && fo'.commitIndex == fo.commitIndex
      && Setup(ld', fo', peer)
      && ld'.nextIndex[peer] < ld.nextIndex[peer]
      && Budget(ld', fo', peer) < Budget(ld, fo, peer)
  {
    hide TermsUpTo, Round;
    var c := RejectedState(ld, fo, me, peer);
    var prev := ld.nextIndex[peer] - 1;
    if prev <= LastIndex(fo.logs) {
      FewerTerms(fo.logs, prev, c);
    }
  }

  /** The follower's log agrees with the leader's through the leader's last index. */
  predicate Repaired(l: Log, f: Log)
    requires LogShape(l) && LogShape(f)
  {
    LastIndex(l) <= LastIndex(f) && forall k :: Base(l, f) < k <= LastIndex(l) ==> GetEntry(f, k) == GetEntry(l, k)
  }

  /** As long as no sent entry is missing, the follower has the leader's terms. */
  lemma AgreesSoFar(l: Log, f: Log, entries: Log, prev: nat, j: nat)
    requires LogShape(l) && LogShape(f) && InLog(l, prev) && InLog(f, prev) && prev + |entries| == LastIndex(l)
    requires GetEntry(l, prev).term == GetEntry(f, prev).term
    requires forall k :: 0 <= k < |entries| ==> entries[k] == GetEntry(l, prev + 1 + k)
    requires j <= |entries| && forall k :: 0 <= k < j ==> Present(f, entries[k])
    ensures InLog(f, prev + j) && InLog(l, prev + j) && GetEntry(l, prev + j).term == GetEntry(f, prev + j).term
  {
    if j > 0 {
      assert Present(f, entries[j - 1]);
    }
  }

  lemma CutRepairs(l: Log, f: Log, entries: Log, i: nat)
    requires LogShape(l) && LogShape(f)
    requires InLog(f, i) && InLog(l, i) && i + |entries| == LastIndex(l)
    requires forall k :: 0 <= k < |entries| ==> entries[k] == GetEntry(l, i + 1 + k)
    requires forall k :: Base(l, f) < k <= i ==> GetEntry(f, k) == GetEntry(l, k)
    ensures var f' := f[..i + 1 - DummyIndex(f)] + entries;
      LogShape(f') && DummyIndex(f') == DummyIndex(f) && Repaired(l, f')
  {
    var f' := f[..i + 1 - DummyIndex(f)] + entries;
    forall k | Base(l, f) < k <= LastIndex(l)
      ensures GetEntry(f', k) == GetEntry(l, k)
    {
      if k > i {
        assert f'[k - DummyIndex(f)] == entries[k - i - 1];
      }
    }
  }

  lemma MergeRepairs(l: Log, f: Log, entries: Log, prev: nat)
    requires LogShape(l) && LogShape(f) && Matching(l, f)
    requires InLog(f, prev) && InLog(l, prev) && prev + |entries| == LastIndex(l)
    requires GetEntry(l, prev).term == GetEntry(f, prev).term
    requires forall k :: 0 <= k < |entries| ==> entries[k] == GetEntry(l, prev + 1 + k)
    requires Continues(f, entries)
    ensures Repaired(l, Merge(f, entries))
  {
    hide Present, FirstMissing, Matching, Repaired;
    var j := FirstMissing(f, entries, 0);
    AgreesSoFar(l, f, entries, prev, j);
    AgreesBelow(l, f, prev + j);
    if j < |entries| {
      MissingInReach(f, entries, j);
      assert entries[j].index == prev + j + 1;
      CutRepairs(l, f, entries[j..], prev + j);
    }
  }

  lemma MatchingFacts(l: Log, f: Log)
    requires LogShape(l) && LogShape(f) && Matching(l, f)
    ensures DummyIndex(l) <= DummyIndex(f) ==>
      DummyIndex(f) <= LastIndex(l) && GetEntry(l, DummyIndex(f)).term == f[0].term
    ensures forall i, j :: 1 <= i <= j < |f| ==> f[i].term <= f[j].term
  {
  }

  lemma AgreesBelow(l: Log, f: Log, i: nat)
    requires LogShape(l) && LogShape(f) && Matching(l, f)
    requires InLog(f, i) && InLog(l, i) && GetEntry(l, i).term == GetEntry(f, i).term
    ensures forall k :: Base(l, f) < k <= i ==> GetEntry(f, k) == GetEntry(l, k)
    ensures i == LastIndex(l) ==> Repaired(l, f)
  {
  }

  /** A round that is not rejected repairs the follower's log, and the leader knows it. */
  lemma AcceptanceRepairs(ld: Server, fo: Server, me: nat, peer: nat)
    requires Setup(ld, fo, peer) && SendsEntries(ld, peer) && Round(ld, fo, me, peer).2.success
    ensures var (ld', fo', _) := Round(ld, fo, me, peer);
      && LogShape(fo'.logs) && DummyIndex(fo'.logs) == DummyIndex(fo.logs) && Repaired(ld.logs, fo'.logs)
      && ld'.logs == ld.logs
      && peer < |ld'.matchIndex| == |ld'.nextIndex|
      && ld'.matchIndex[peer] == LastIndex(ld.logs) && ld'.nextIndex[peer] == LastIndex(ld.logs) + 1
  {
    hide Matching, Merge, Repaired, CommitScan, HandleAppend, Send, ConflictFrom, Continues;
    RequestShape(ld, fo, me, peer);
    SentContinue(ld, fo, me, peer);
    var args := Request(ld, me, peer);
    FollowerAnswers(fo, args);
    MergeRepairs(ld.logs, fo.logs, args.entries, args.prevLogIndex);
  }

  /** `k` rounds in a row, all of them rejected. */
  ghost predicate Rejects(ld: Server, fo: Server, me: nat, peer: nat, k: nat)
    decreases k
  {
    Setup(ld, fo, peer) &&
    (k > 0 ==>
       SendsEntries(ld, peer) &&
       var (ld', fo', reply) := Round(ld, fo, me, peer);
       !reply.success && Rejects(ld', fo', me, peer, k - 1))
  }

  /** The leader and the follower after `k` rejected rounds. */
  ghost function After(ld: Server, fo: Server, me: nat, peer: nat, k: nat): (Server, Server)
    requires Rejects(ld, fo, me, peer, k)
    decreases k
  {
    if k == 0 then (ld, fo)
    else
      hide Talk, Matching, Round;
      var (ld', fo', _) := Round(ld, fo, me, peer);
      After(ld', fo', me, peer, k - 1)
  }

  /** The next round brings the follower up to date: its entries are accepted, or it is a snapshot. */
  ghost predicate Settles(ld: Server, fo: Server, me: nat, peer: nat) {
    && Setup(ld, fo, peer)
    && if !SendsEntries(ld, peer) then CanSend(ld, peer) && Send(ld, me, peer).Install?
       else
         var (ld', fo', reply) := Round(ld, fo, me, peer);
         && reply.success
         && LogShape(fo'.logs) && DummyIndex(fo'.logs) == DummyIndex(fo.logs) && Repaired(ld.logs, fo'.logs)
         && peer < |ld'.matchIndex| && ld'.matchIndex[peer] == LastIndex(ld.logs)
  }

  /**
   With nothing else happening, the leader is rejected at most once more than there are distinct terms in the
   follower's log; then a round succeeds and the follower agrees with the leader's whole log, or the leader has
   compacted its log so far that it sends its snapshot.
   */
  lemma {:induction false} BackoffConverges(ld: Server, fo: Server, me: nat, peer: nat) returns (k: nat)
    requires Setup(ld, fo, peer)
    ensures k <= Budget(ld, fo, peer) <= 1 + |TermsUpTo(fo.logs, LastIndex(fo.logs))|
    ensures Rejects(ld, fo, me, peer, k)
    ensures var (ld', fo') := After(ld, fo, me, peer, k);
      ld'.logs == ld.logs && fo'.logs == fo.logs && Settles(ld', fo', me, peer)
    ensures DummyIndex(ld.logs) <= DummyIndex(fo.logs) ==> SendsEntries(After(ld, fo, me, peer, k).0, peer)
    decreases Budget(ld, fo, peer)
  {
    hide Talk, Matching, Round, TermsUpTo, Budget, Repaired;
    BudgetBound(ld, fo, peer);
    if !SendsEntries(ld, peer) {
      k := 0;
      SnapshotSent(ld, fo, me, peer);
    } else {
      var (ld', fo', reply) := Round(ld, fo, me, peer);
      if reply.success {
        k := 0;
        AcceptanceRepairs(ld, fo, me, peer);
      } else {
        RejectionBacksOff(ld, fo, me, peer);
        k := BackoffConverges(ld', fo', me, peer);
        k := k + 1;
      }
    }
  }

  lemma SnapshotSent(ld: Server, fo: Server, me: nat, peer: nat)
    requires Setup(ld, fo, peer) && !SendsEntries(ld, peer)
    ensures CanSend(ld, peer) && Send(ld, me, peer).Install? && DummyIndex(ld.logs) > DummyIndex(fo.logs)
  {
    hide Matching;
  }

  lemma BudgetBound(ld: Server, fo: Server, peer: nat)
    requires Setup(ld, fo, peer)
    ensures LogShape(ld.logs) && LogShape(fo.logs) && peer < |ld.matchIndex|
    ensures Budget(ld, fo, peer) <= 1 + |TermsUpTo(fo.logs, LastIndex(fo.logs))|
  {
    hide Matching;
    var some, all := TermsUpTo(fo.logs, ld.nextIndex[peer] - 1), TermsUpTo(fo.logs, LastIndex(fo.logs));
    assert some <= all;
    assert all == some + (all - some);
  }

  // ---------- The whole conversation

  /** What the leader needs of a server that may have committed more than it: at the leader's dummy they agree. */
  predicate Shared(ld: Server, fo: Server)
    requires LogShape(ld.logs) && LogShape(fo.logs)
  {
    var b := DummyIndex(ld.logs);
    DummyIndex(fo.logs) <= b <= fo.commitIndex ==> InLog(fo.logs, b) && GetEntry(fo.logs, b).term == ld.logs[0].term
  }

  /** Everything a reachable pair of a leader and a server of no later term satisfies. */
  ghost predicate Pair(ld: Server, fo: Server, peer: nat) {
    && Talk(ld, fo, peer) && DummyIndex(fo.logs) <= fo.commitIndex
    && Matching(ld.logs, fo.logs) && Shared(ld, fo)
  }

  /** One round trip of whatever the leader sends, entries or its snapshot. */
  ghost function Trip(ld: Server, fo: Server, me: nat, peer: nat): (r: (Server, Server))
    requires Talk(ld, fo, peer) && DummyIndex(fo.logs) <= fo.commitIndex
    ensures Talk(r.0, r.1, peer) && DummyIndex(r.1.logs) <= r.1.commitIndex
  {
    if SendsEntries(ld, peer) then
      RoundKeepsTalk(ld, fo, me, peer);
      var (ld', fo', _) := Round(ld, fo, me, peer);
      (ld', fo')
    else
      SnapshotKeepsTalk(ld, fo, me, peer);
      var args := Send(ld, me, peer).install;
      var (fo', term) := HandleInstall(fo, args);
      (InstallReturned(ld, peer, args, term), fo')
  }

  lemma FollowerKeeps(fo: Server, args: AppendArgs)
    requires CanHandleAppend(fo, args) && args.term >= fo.currentTerm && DummyIndex(fo.logs) <= fo.commitIndex
    ensures var (fo', reply) := HandleAppend(fo, args);
      && LogShape(fo'.logs) && DummyIndex(fo'.logs) <= fo'.commitIndex && fo'.currentTerm == args.term
      && (reply.term == args.term || reply.term == 0)
      && (reply.term == args.term && !reply.success && args.term > 0 ==> reply.conflictIndex <= args.prevLogIndex)
  {
    hide FirstMissing, Present;
  }

  lemma RoundKeepsTalk(ld: Server, fo: Server, me: nat, peer: nat)
    requires Talk(ld, fo, peer) && DummyIndex(fo.logs) <= fo.commitIndex && SendsEntries(ld, peer)
    ensures var (ld', fo', _) := Round(ld, fo, me, peer);
      Talk(ld', fo', peer) && DummyIndex(fo'.logs) <= fo'.commitIndex
  {
    hide HandleAppend, Send, CommitScan;
    RequestShape(ld, fo, me, peer);
    FollowerKeeps(fo, Request(ld, me, peer));
  }

  lemma SnapshotKeepsTalk(ld: Server, fo: Server, me: nat, peer: nat)
    requires Talk(ld, fo, peer) && DummyIndex(fo.logs) <= fo.commitIndex && !SendsEntries(ld, peer)
    ensures CanSend(ld, peer) && Send(ld, me, peer).Install?
    ensures var args := Send(ld, me, peer).install;
      var (fo', term) := HandleInstall(fo, args);
      Talk(InstallReturned(ld, peer, args, term), fo', peer) && DummyIndex(fo'.logs) <= fo'.commitIndex
  {
  }

  /** `k` round trips, with nothing else happening in between. */
  ghost function Trips(ld: Server, fo: Server, me: nat, peer: nat, k: nat): (r: (Server, Server))
    requires Talk(ld, fo, peer) && DummyIndex(fo.logs) <= fo.commitIndex
    ensures Talk(r.0, r.1, peer)
    decreases k
  {
    if k == 0 then (ld, fo)
    else
      hide Trip, Talk;
      var (ld', fo') := Trip(ld, fo, me, peer);
      Trips(ld', fo', me, peer, k - 1)
  }

  /** The follower has the leader's log, and the leader knows it. */
  predicate Done(ld: Server, fo: Server, peer: nat)
    requires Talk(ld, fo, peer)
  {
    && ld.matchIndex[peer] == LastIndex(ld.logs) && ld.nextIndex[peer] == LastIndex(ld.logs) + 1
    && Repaired(ld.logs, fo.logs)
  }

  /** The leader starts from an index that the follower's log still reaches. */
  predicate Reached(ld: Server, fo: Server, peer: nat)
    requires Talk(ld, fo, peer)
  {
    DummyIndex(fo.logs) < Max(ld.nextIndex[peer], DummyIndex(ld.logs) + 1)
  }

  // ---------- It ends with the same log

  lemma AcceptedTrip(ld: Server, fo: Server, me: nat, peer: nat)
    requires Setup(ld, fo, peer) && DummyIndex(fo.logs) <= fo.commitIndex && SendsEntries(ld, peer)
    requires Round(ld, fo, me, peer).2.success
    ensures var (ld', fo') := Trip(ld, fo, me, peer); Done(ld', fo', peer)
  {
    hide Round, Matching, Repaired, Talk;
    AcceptanceRepairs(ld, fo, me, peer);
  }

  /** After the snapshot the leader sends from its own dummy, where the two agree. */
  lemma SnapshotTrip(ld: Server, fo: Server, me: nat, peer: nat)
    requires Pair(ld, fo, peer) && !SendsEntries(ld, peer) && Reached(ld, fo, peer)
    ensures var (ld', fo') := Trip(ld, fo, me, peer);
      && Setup(ld', fo', peer) && SendsEntries(ld', peer) && ld'.logs == ld.logs
      && ld'.nextIndex[peer] == DummyIndex(ld.logs) + 1
      && MatchLog(fo'.logs, ld.logs[0].term, DummyIndex(ld.logs))
  {
    hide InstalledLog, Matching;
    var b := DummyIndex(ld.logs);
    var (ld', fo') := Trip(ld, fo, me, peer);
    if b > fo.commitIndex {
      InstalledKeeps(fo.logs, b, ld.logs[0].term);
      MatchingBeyond(ld.logs, fo.logs);
    }
  }

  /** Putting the leader's snapshot in front keeps the logs matching, whatever entries lie beyond it. */
  lemma MatchingBeyond(l: Log, f: Log)
    requires LogShape(l) && LogShape(f) && Matching(l, f) && DummyIndex(f) < DummyIndex(l)
    ensures Matching(l, InstalledLog(f, DummyIndex(l), l[0].term))
  {
    var b := DummyIndex(l);
    var r := InstalledLog(f, b, l[0].term);
    InstalledKeeps(f, b, l[0].term);
    hide InstalledLog;
    forall i, j | 1 <= i <= j < |r|
      ensures r[i].term <= r[j].term
    {
      assert r[i] == GetEntry(r, b + i) == GetEntry(f, b + i) && r[j] == GetEntry(r, b + j) == GetEntry(f, b + j);
    }
  }

  lemma MatchedRound(ld: Server, fo: Server, me: nat, peer: nat)
    requires Setup(ld, fo, peer) && SendsEntries(ld, peer)
    requires MatchLog(fo.logs, GetEntry(ld.logs, ld.nextIndex[peer] - 1).term, ld.nextIndex[peer] - 1)
    ensures Round(ld, fo, me, peer).2.success
  {
    hide HandleAppend, Matching, Send, AppendReturned, Continues;
    RequestShape(ld, fo, me, peer);
    SentContinue(ld, fo, me, peer);
    FollowerAnswers(fo, Request(ld, me, peer));
  }

  lemma {:induction false} Converges(ld: Server, fo: Server, me: nat, peer: nat) returns (k: nat)
    requires Pair(ld, fo, peer) && Setup(ld, fo, peer)
    ensures k <= Budget(ld, fo, peer) + 2
    ensures var (ld', fo') := Trips(ld, fo, me, peer, k); Done(ld', fo', peer)
    decreases Budget(ld, fo, peer)
  {
    hide Talk, Matching, Round, Trip, Budget, Done, Shared;
    if !SendsEntries(ld, peer) {
      ReachedBySetup(ld, fo, peer);
      k := AfterSnapshot(ld, fo, me, peer);
    } else if Round(ld, fo, me, peer).2.success {
      AcceptedTrip(ld, fo, me, peer);
      OneTrip(ld, fo, me, peer);
      k := 1;
    } else {
      RejectionBacksOff(ld, fo, me, peer);
      RejectedPair(ld, fo, me, peer);
      var (ld', fo') := Trip(ld, fo, me, peer);
      k := Converges(ld', fo', me, peer);
      k := k + 1;
    }
  }

  lemma ReachedBySetup(ld: Server, fo: Server, peer: nat)
    requires Setup(ld, fo, peer)
    ensures Reached(ld, fo, peer)
  {
    hide Matching;
  }

  lemma OneTrip(ld: Server, fo: Server, me: nat, peer: nat)
    requires Talk(ld, fo, peer) && DummyIndex(fo.logs) <= fo.commitIndex
    ensures Trips(ld, fo, me, peer, 1) == Trip(ld, fo, me, peer)
  {
    hide Talk, Trip;
    var (ld', fo') := Trip(ld, fo, me, peer);
    assert Trips(ld', fo', me, peer, 0) == (ld', fo');
  }

  lemma RejectedPair(ld: Server, fo: Server, me: nat, peer: nat)
    requires Pair(ld, fo, peer) && Setup(ld, fo, peer) && SendsEntries(ld, peer)
    requires !Round(ld, fo, me, peer).2.success
    ensures var (ld', fo', _) := Round(ld, fo, me, peer);
      Trip(ld, fo, me, peer) == (ld', fo') && Pair(ld', fo', peer)
  {
    hide Round, Matching;
    RejectionBacksOff(ld, fo, me, peer);
  }

  /** The snapshot and one round of entries. */
  lemma AfterSnapshot(ld: Server, fo: Server, me: nat, peer: nat) returns (k: nat)
    requires Pair(ld, fo, peer) && !SendsEntries(ld, peer) && Reached(ld, fo, peer)
    ensures k == 2
    ensures var (ld', fo') := Trips(ld, fo, me, peer, k); Done(ld', fo', peer)
  {
    hide Talk, Matching, Round, Trip, Done, Shared;
    k := 2;
    SnapshotTrip(ld, fo, me, peer);
    var (ld', fo') := Trip(ld, fo, me, peer);
    MatchedRound(ld', fo', me, peer);
    AcceptedTrip(ld', fo', me, peer);
    OneTrip(ld', fo', me, peer);
  }

  // ---------- Or never

  /** A follower whose log starts behind the leader's request answers with term 0, which the leader ignores. */
  lemma Unanswered(ld: Server, fo: Server, me: nat, peer: nat)
    requires Talk(ld, fo, peer) && DummyIndex(fo.logs) <= fo.commitIndex
    requires SendsEntries(ld, peer) && ld.nextIndex[peer] <= DummyIndex(fo.logs)
    ensures Trip(ld, fo, me, peer).0 == ld && Trip(ld, fo, me, peer).1.logs == fo.logs
  {
    hide Merge, MatchLog, ConflictFrom;
    RequestShape(ld, fo, me, peer);
  }

  lemma {:induction false} StaysUnanswered(ld: Server, fo: Server, me: nat, peer: nat, k: nat)
    requires Talk(ld, fo, peer) && DummyIndex(fo.logs) <= fo.commitIndex
    requires SendsEntries(ld, peer) && ld.nextIndex[peer] <= DummyIndex(fo.logs)
    ensures Trips(ld, fo, me, peer, k).0 == ld && Trips(ld, fo, me, peer, k).1.logs == fo.logs
    decreases k
  {
    hide Talk, Trip;
    if k > 0 {
      Unanswered(ld, fo, me, peer);
      StaysUnanswered(ld, Trip(ld, fo, me, peer).1, me, peer, k - 1);
    }
  }

  lemma NeverDone(ld: Server, fo: Server, me: nat, peer: nat, k: nat)
    requires Pair(ld, fo, peer) && !Reached(ld, fo, peer)
    ensures var (ld', fo') := Trips(ld, fo, me, peer, k);
      ld'.nextIndex[peer] <= DummyIndex(fo.logs) && fo'.logs == fo.logs && !Done(ld', fo', peer)
  {
    hide Matching, Trip, Done, Shared, Talk;
    LeaderBehind(ld, fo, peer);
    if SendsEntries(ld, peer) {
      StaysUnanswered(ld, fo, me, peer, k);
    } else if k > 0 {
      SnapshotIgnored(ld, fo, me, peer);
      var (ld', fo') := Trip(ld, fo, me, peer);
      StaysUnanswered(ld', fo', me, peer, k - 1);
    }
    var (ld', fo') := Trips(ld, fo, me, peer, k);
    NotDone(ld', fo', peer);
  }

  lemma LeaderBehind(ld: Server, fo: Server, peer: nat)
    requires Talk(ld, fo, peer) && Matching(ld.logs, fo.logs) && !Reached(ld, fo, peer)
    ensures ld.nextIndex[peer] <= DummyIndex(fo.logs) <= LastIndex(ld.logs) && DummyIndex(ld.logs) < DummyIndex(fo.logs)
  {
    MatchingFacts(ld.logs, fo.logs);
  }

  lemma NotDone(ld: Server, fo: Server, peer: nat)
    requires Talk(ld, fo, peer) && ld.nextIndex[peer] <= LastIndex(ld.logs)
    ensures !Done(ld, fo, peer)
  {
  }

  lemma SnapshotIgnored(ld: Server, fo: Server, me: nat, peer: nat)
    requires Talk(ld, fo, peer) && DummyIndex(fo.logs) <= fo.commitIndex
    requires !SendsEntries(ld, peer) && DummyIndex(ld.logs) < DummyIndex(fo.logs)
    ensures var (ld', fo') := Trip(ld, fo, me, peer);
      && fo'.logs == fo.logs && ld'.logs == ld.logs && SendsEntries(ld', peer)
      && ld'.nextIndex[peer] == DummyIndex(ld.logs) + 1
  {
  }

  /**
   A leader and a server of no later term, at any moment of any run, from which on only they talk: the follower ends
   with the leader's log, and the leader knows it, if and only if the leader's next index, or its own dummy if that is
   further, reaches beyond the follower's dummy.  It then takes at most three round trips more than there are distinct
   terms in the follower's log.
   */
  lemma RepairedExactly(n: nat, run: seq<State>, steps: seq<Step>, a: nat, v: nat, w: nat)
    requires IsRun(n, run, steps) && Point(n, run, a, v) && Point(n, run, a, w)
    requires At(run, a, v).role == Leader && At(run, a, w).currentTerm <= At(run, a, v).currentTerm
    ensures Pair(At(run, a, v), At(run, a, w), w)
    ensures var ld, fo := At(run, a, v), At(run, a, w);
      && (Reached(ld, fo, w) <==> exists k: nat :: DoneAfter(ld, fo, v, w, k))
      && (Reached(ld, fo, w) ==>
            exists k: nat :: DoneAfter(ld, fo, v, w, k) && k <= 3 + |TermsUpTo(fo.logs, LastIndex(fo.logs))|)
  {
    var ld, fo := At(run, a, v), At(run, a, w);
    ReachableSetup(n, run, steps, a, v, w);
    hide IsRun, Matching, Talk, Trips, Done, Shared, TermsUpTo;
    if Reached(ld, fo, w) {
      var k := RepairedIn(ld, fo, v, w);
      assert DoneAfter(ld, fo, v, w, k);
    } else {
      forall k: nat
        ensures !DoneAfter(ld, fo, v, w, k)
      {
        NeverDone(ld, fo, v, w, k);
      }
    }
  }

  ghost predicate DoneAfter(ld: Server, fo: Server, me: nat, peer: nat, k: nat)
    requires Talk(ld, fo, peer) && DummyIndex(fo.logs) <= fo.commitIndex
  {
    var (ld', fo') := Trips(ld, fo, me, peer, k); Done(ld', fo', peer)
  }

  lemma RepairedIn(ld: Server, fo: Server, me: nat, peer: nat) returns (k: nat)
    requires Pair(ld, fo, peer) && Reached(ld, fo, peer)
    ensures k <= 3 + |TermsUpTo(fo.logs, LastIndex(fo.logs))| && DoneAfter(ld, fo, me, peer, k)
  {
    hide Matching, Trips, Done, Shared, TermsUpTo, Budget;
    if !SendsEntries(ld, peer) {
      k := AfterSnapshot(ld, fo, me, peer);
    } else {
      BudgetBound(ld, fo, peer);
      k := Converges(ld, fo, me, peer);
    }
  }

  // ---------- Reachable states

  /** In every run, any leader and any server of no later term are such a pair. */
  lemma ReachableSetup(n: nat, run: seq<State>, steps: seq<Step>, k: nat, v: nat, w: nat)
    requires IsRun(n, run, steps) && Point(n, run, k, v) && Point(n, run, k, w)
    requires At(run, k, v).role == Leader && At(run, k, w).currentTerm <= At(run, k, v).currentTerm
    ensures var ld, fo := At(run, k, v), At(run, k, w);
      Pair(ld, fo, w) && (DummyIndex(fo.logs) < ld.nextIndex[w] ==> Setup(ld, fo, w))
  {
    hide IsRun, Explains, ProtocolInv, ServerOk, Matching, Shared;
    var ps := RunHistory(n, run, steps);
    PointOk(n, run, steps, ps, k, v);
    PointOk(n, run, steps, ps, k, w);
    PairShape(ps[k], v, At(run, k, v), w);
    ServerShape(ps[k], w, At(run, k, w));
    HeldMatching(ps[k], v, At(run, k, v), w, At(run, k, w));
    DummyShared(ps[k], v, At(run, k, v), w, At(run, k, w));
  }

  /** Both have committed what lies at the leader's dummy. */
  lemma DummyShared(p: Protocol, v: nat, ld: Server, w: nat, fo: Server)
    requires ProtocolInv(p) && ServerOk(p, v, ld) && ServerOk(p, w, fo) && LogShape(ld.logs) && LogShape(fo.logs)
    requires ld.role == Leader && fo.currentTerm <= ld.currentTerm && fo.commitIndex <= LastIndex(fo.logs)
    ensures Shared(ld, fo)
  {
    hide ProtocolInv, ServerOk, FullOf;
    LogOf(p, v, ld);
    LogOf(p, w, fo);
    LeaderCovers(p, v, ld, w, fo);
    var b := DummyIndex(ld.logs);
    if DummyIndex(fo.logs) <= b <= fo.commitIndex {
      assert Held(fo)[b] == Held(ld)[b];
      assert InLog(ld.logs, b) && InLog(fo.logs, b);
    }
  }

  lemma ServerShape(p: Protocol, v: nat, s: Server)
    requires ServerOk(p, v, s)
    ensures LogShape(s.logs) && DummyIndex(s.logs) <= s.commitIndex <= LastIndex(s.logs)
  {
  }

  lemma PairShape(p: Protocol, v: nat, s: Server, j: nat)
    requires ProtocolInv(p) && ServerOk(p, v, s) && s.role == Leader && j < |p.terms|
    ensures LogShape(s.logs) && DummyIndex(s.logs) <= s.commitIndex && s.currentTerm >= 1
    ensures j < |s.nextIndex| == |s.matchIndex| && s.nextIndex[j] <= LastIndex(s.logs) + 1
  {
    hide LogsGood, StandsGood, VotesGood, LeadersElected, AcksGood, AckersHold, VotersHeld, LeadersHold,
      CommitsConfirmed, GoodUpTo, CoveredLog, ApplyLink, VoteLink, CandidateLink, MatchOk;
    LeaderBounds(p, v, s, j);
  }

  /** Above its dummy every log is the one its server votes with, and these match, whatever was installed. */
  lemma HeldMatching(p: Protocol, v: nat, ld: Server, w: nat, fo: Server)
    requires ProtocolInv(p) && ServerOk(p, v, ld) && ServerOk(p, w, fo) && LogShape(ld.logs) && LogShape(fo.logs)
    requires ld.role == Leader && fo.currentTerm <= ld.currentTerm
    ensures Matching(ld.logs, fo.logs)
  {
    hide ProtocolInv, ServerOk, FullOf, GoodLog;
    LogOf(p, v, ld);
    LogOf(p, w, fo);
    LeaderCovers(p, v, ld, w, fo);
    LogIsGood(p, v);
    LogIsGood(p, w);
    GoodTerms(p.logs[w], p.lead);
    var x, y := p.logs[v], p.logs[w];
    var base := DummyIndex(fo.logs);
    forall i, j | 1 <= i <= j < |fo.logs|
      ensures fo.logs[i].term <= fo.logs[j].term
    {
      assert GetEntry(fo.logs, base + i) == y[base + i] && GetEntry(fo.logs, base + j) == y[base + j];
    }
    forall i: nat, k: nat | Base(ld.logs, fo.logs) < k <= i && InLog(ld.logs, i) && InLog(fo.logs, i)
        && GetEntry(ld.logs, i).term == GetEntry(fo.logs, i).term
      ensures GetEntry(ld.logs, k) == GetEntry(fo.logs, k)
    {
      GoodLogsMatch(x, y, p.lead, i);
      assert x[k] == y[k];
    }
  }

  lemma GoodTerms(w: Log, lead: map<nat, Log>)
    requires GoodLog(w, lead)
    ensures forall i, j :: 0 <= i <= j < |w| ==> w[i].term <= w[j].term
  {
  }

  /** What a server keeps, seen as part of what it holds and of what it votes with. */
  lemma LogOf(p: Protocol, v: nat, s: Server)
    requires ServerOk(p, v, s)
    ensures |s.logs| > 0 && v < |p.logs| && |Held(s)| == |p.logs[v]| == LastIndex(s.logs) + 1
    ensures forall i: nat :: InLog(s.logs, i) ==> i < |Held(s)| && GetEntry(s.logs, i).term == Held(s)[i].term
    ensures forall i: nat :: InLog(s.logs, i) && i > DummyIndex(s.logs) ==> GetEntry(s.logs, i) == p.logs[v][i]
  {
    hide ApplyLink, CoveredLog, VoteLink, CandidateLink, LeaderLink, FullOf;
    LocalFacts(s, |p.terms|);
  }

  /** A leader holds what a server of no later term has committed. */
  lemma LeaderCovers(p: Protocol, v: nat, ld: Server, w: nat, fo: Server)
    requires ProtocolInv(p) && ServerOk(p, v, ld) && ServerOk(p, w, fo) && ld.role == Leader
    requires fo.currentTerm <= ld.currentTerm
    ensures |fo.logs| > 0 && DummyIndex(fo.logs) <= fo.commitIndex && Agree(Held(fo), Held(ld), fo.commitIndex + 1)
  {
    hide ProtocolInv, CoveredLog, VoteLink, CandidateLink, ApplyLink, LogLink, MatchOk, FullOf;
    LocalFacts(fo, |p.terms|);
    CommittedInLead(p, FullOf(fo), fo.currentTerm, fo.commitIndex, ld.currentTerm);
  }
}
