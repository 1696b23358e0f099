/**
 The consensus argument on its own: what the cluster's history must look like
 for every committed entry to survive.  `Protocol` is the history of a run
 seen through its terms, logs, votes and acknowledgements; each action below is
 what one locked region of a server contributes to it.
 */
module Consensus {
  import opened RaftTypes
  import opened Quorums

  datatype Vote = Vote(candidate: nat, log: Log)

  /**
   - `terms[v]`, `logs[v]`: the current term and the log server `v` votes with
   - `lead[t]`, `leaderOf[t]`: the log and the identity of term `t`'s leader
   - `votes[(v, t)]`: whom `v` voted for in term `t`, and its log at that time
   - `stands[(c, t)]`: the log on which `c` stood for election in term `t`
   - `acks[(t, v)]`: up to where `v` has confirmed the log of term `t`'s leader
   - `commits`: the (term, index) pairs a leader of that term has committed
   - `whole`: no server has grafted a snapshot onto entries that do not belong to it
   */
  datatype Protocol = Protocol(
    terms: seq<nat>,
    logs: seq<Log>,
    lead: map<nat, Log>,
    leaderOf: map<nat, nat>,
    votes: map<(nat, nat), Vote>,
    stands: map<(nat, nat), Log>,
    acks: map<(nat, nat), nat>,
    commits: set<(nat, nat)>,
    whole: bool)

  // ---------- Predicates on logs and indices

  /** Every entry sits on the same prefix as in the log of the leader that created it. */
  ghost predicate GoodLog(w: Log, lead: map<nat, Log>) {
    && |w| >= 1
    && w[0] == Dummy
    && (forall i :: 0 <= i < |w| ==> w[i].index == i)
    && (forall i, j :: 0 <= i <= j < |w| ==> w[i].term <= w[j].term)
    && (forall i :: 1 <= i < |w| ==> w[i].term in lead && Agree(w, lead[w[i].term], i + 1))
  }

  predicate Acked(p: Protocol, t: nat, v: nat, i: nat) {
    (t, v) in p.acks && i <= p.acks[(t, v)]
  }

  /** Server `v` has confirmed index `i` of term `t`, or is still free to do so. */
  predicate MayAck(p: Protocol, t: nat, v: nat, i: nat) {
    v < |p.terms| && (Acked(p, t, v, i) || p.terms[v] <= t)
  }

  ghost predicate OpenQuorum(p: Protocol, q: set<nat>, t: nat, i: nat) {
    Quorum(|p.terms|, q) && forall v :: v in q ==> MayAck(p, t, v, i)
  }

  /** Index `i` of term `t` may still gather a majority of confirmations. */
  ghost predicate Choosable(p: Protocol, t: nat, i: nat) {
    exists q :: OpenQuorum(p, q, t, i)
  }

  ghost predicate AckQuorum(p: Protocol, q: set<nat>, t: nat, i: nat) {
    Quorum(|p.terms|, q) && forall v :: v in q ==> Acked(p, t, v, i)
  }

  ghost predicate Confirmed(p: Protocol, t: nat, i: nat) {
    exists q :: AckQuorum(p, q, t, i)
  }

  /** Index `i` of term `t`'s leader holds an entry of that very term. */
  predicate Own(p: Protocol, t: nat, i: nat) {
    t in p.lead && i < |p.lead[t]| && p.lead[t][i].term == t
  }

  // ---------- The invariant, one clause at a time

  /** A log of good shape whose entries are of term `t` or earlier. */
  ghost predicate GoodUpTo(w: Log, lead: map<nat, Log>, t: nat) {
    GoodLog(w, lead) && LastTerm(w) <= t
  }

  ghost predicate LogsGood(p: Protocol) {
    && |p.logs| == |p.terms|
    && (forall v :: 0 <= v < |p.logs| ==> GoodUpTo(p.logs[v], p.lead, p.terms[v]))
  }

  ghost predicate LeadsGood(p: Protocol) {
    && p.leaderOf.Keys == p.lead.Keys
    && (forall t :: t in p.lead ==> t >= 1 && GoodUpTo(p.lead[t], p.lead, t))
    && (forall t :: t in p.leaderOf ==> p.leaderOf[t] < |p.terms| && t <= p.terms[p.leaderOf[t]])
  }

  ghost predicate StandsGood(p: Protocol) {
    forall k :: k in p.stands ==>
      k.0 < |p.terms| && k.1 <= p.terms[k.0] && GoodUpTo(p.stands[k], p.lead, k.1)
  }

  /** The vote of server `k.0` in term `k.1` went to a candidate no less up-to-date. */
  ghost predicate GoodVote(p: Protocol, k: (nat, nat), vote: Vote) {
    && k.0 < |p.terms|
    && k.1 <= p.terms[k.0]
    && GoodLog(vote.log, p.lead)
    && (vote.candidate, k.1) in p.stands
    && |p.stands[(vote.candidate, k.1)]| > 0
    && UpToDate(p.stands[(vote.candidate, k.1)], vote.log)
  }

  ghost predicate VotesGood(p: Protocol) {
    forall k :: k in p.votes ==> GoodVote(p, k, p.votes[k])
  }

  predicate VotedFor(p: Protocol, v: nat, t: nat, c: nat) {
    (v, t) in p.votes && p.votes[(v, t)].candidate == c
  }

  ghost predicate VoteQuorum(p: Protocol, q: set<nat>, c: nat, t: nat) {
    Quorum(|p.terms|, q) && forall v :: v in q ==> VotedFor(p, v, t, c)
  }

  ghost predicate ElectedBy(p: Protocol, c: nat, t: nat) {
    exists q :: VoteQuorum(p, q, c, t)
  }

  ghost predicate LeadersElected(p: Protocol) {
    forall t :: t in p.lead && t in p.leaderOf ==> ElectedBy(p, p.leaderOf[t], t)
  }

  ghost predicate AcksGood(p: Protocol) {
    forall k :: k in p.acks ==>
      && k.0 in p.lead
      && k.1 < |p.terms|
      && k.1 < |p.logs|
      && k.0 <= p.terms[k.1]
      && p.acks[k] < |p.lead[k.0]|
      && (k.0 == p.terms[k.1] ==> Agree(p.logs[k.1], p.lead[k.0], p.acks[k] + 1))
  }

  /** Whoever confirmed an entry that may still be chosen keeps it. */
  ghost predicate AckersHold(p: Protocol) {
    forall t: nat, v: nat, i: nat :: Acked(p, t, v, i) && Own(p, t, i) && v < |p.logs| && Choosable(p, t, i)
      ==> Agree(p.logs[v], p.lead[t], i + 1)
  }

  /** ... and held it whenever it voted in a later term. */
  ghost predicate VotersHeld(p: Protocol) {
    forall t: nat, v: nat, i: nat, u: nat :: Acked(p, t, v, i) && Own(p, t, i) && t < u && (v, u) in p.votes
      && Choosable(p, t, i)
      ==> Agree(p.votes[(v, u)].log, p.lead[t], i + 1)
  }

  /** The log with which the leader of term `u` took office. */
  function First(p: Protocol, u: nat): Log {
    if u in p.leaderOf && (p.leaderOf[u], u) in p.stands then p.stands[(p.leaderOf[u], u)] else []
  }

  /** Every leader of a later term holds, from the start, every entry that may still be chosen. */
  ghost predicate LeadersHold(p: Protocol) {
    forall t: nat, u: nat, i: nat :: Own(p, t, i) && u in p.lead && t < u && Choosable(p, t, i)
      ==> Agree(First(p, u), p.lead[t], i + 1) && Agree(p.lead[u], p.lead[t], i + 1)
  }

  ghost predicate CommitsConfirmed(p: Protocol) {
    forall k :: k in p.commits ==> Own(p, k.0, k.1) && Confirmed(p, k.0, k.1)
  }

  ghost predicate ProtocolInv(p: Protocol) {
    && LogsGood(p)
    && LeadsGood(p)
    && StandsGood(p)
    && VotesGood(p)
    && LeadersElected(p)
    && AcksGood(p)
    && AckersHold(p)
    && VotersHeld(p)
    && LeadersHold(p)
    && CommitsConfirmed(p)
  }

  // ---------- Actions

  /** `v` sees a newer term. */
  function Observe(p: Protocol, v: nat, t: nat): Protocol
    requires v < |p.terms|
  {
    p.(terms := p.terms[v := t])
  }

  /** `v` stands for election in the next term and votes for itself. */
  function Stand(p: Protocol, v: nat): Protocol
    requires v < |p.terms| == |p.logs|
  {
    var t := p.terms[v] + 1;
    p.(terms := p.terms[v := t],
       stands := p.stands[(v, t) := p.logs[v]],
       votes := p.votes[(v, t) := Vote(v, p.logs[v])])
  }

  /** `v` votes for `c` in its current term. */
  function Cast(p: Protocol, v: nat, c: nat): Protocol
    requires v < |p.terms| == |p.logs|
  {
    p.(votes := p.votes[(v, p.terms[v]) := Vote(c, p.logs[v])])
  }

  /** `c` becomes the leader of its current term. */
  function Elect(p: Protocol, c: nat): Protocol
    requires c < |p.terms| == |p.logs|
    requires |p.logs[c]| > 0
  {
    var t := p.terms[c];
    p.(lead := p.lead[t := p.logs[c]],
       leaderOf := p.leaderOf[t := c],
       acks := p.acks[(t, c) := |p.logs[c]| - 1])
  }

  /** The leader `c` of term `t` appends an entry of its own term. */
  function Extend(p: Protocol, c: nat, e: Entry): Protocol
    requires c < |p.terms| == |p.logs|
  {
    var t := p.terms[c];
    p.(lead := p.lead[t := p.logs[c] + [e]],
       logs := p.logs[c := p.logs[c] + [e]],
       acks := p.acks[(t, c) := |p.logs[c]|])
  }

  /** `v` confirms its leader's log up to `m`. */
  function Confirm(p: Protocol, v: nat, m: nat): Protocol
    requires v < |p.terms|
  {
    p.(acks := p.acks[(p.terms[v], v) := m])
  }

  /** The leader of term `t` commits index `i`. */
  function Commit(p: Protocol, t: nat, i: nat): Protocol {
    p.(commits := p.commits + {(t, i)})
  }

  // ---------- General facts

  /** What every action preserves of the past. */
  ghost predicate Grows(p: Protocol, p': Protocol) {
    && |p'.terms| == |p.terms|
    && (forall v :: 0 <= v < |p.terms| ==> p.terms[v] <= p'.terms[v])
    && LeadGrows(p.lead, p'.lead)
    && (forall t :: t in p.leaderOf ==> t in p'.leaderOf && p'.leaderOf[t] == p.leaderOf[t])
    && (forall k :: k in p.votes ==> k in p'.votes && p'.votes[k] == p.votes[k])
    && (forall k :: k in p.stands ==> k in p'.stands && p'.stands[k] == p.stands[k])
    && (forall k :: k in p.acks ==> k in p'.acks && p.acks[k] <= p'.acks[k])
    && p.commits <= p'.commits
    && (p'.whole ==> p.whole)
  }

  ghost predicate LeadGrows(lead: map<nat, Log>, lead': map<nat, Log>) {
    forall t :: t in lead ==> t in lead' && Agree(lead'[t], lead[t], |lead[t]|)
  }

  /** No server regains the freedom to confirm. */
  ghost predicate Closes(p: Protocol, p': Protocol) {
    && |p'.terms| == |p.terms|
    && forall t: nat, v: nat, i: nat :: MayAck(p', t, v, i) ==> MayAck(p, t, v, i)
  }

  lemma ChoosableBack(p: Protocol, p': Protocol, t: nat, i: nat)
    requires Closes(p, p') && Choosable(p', t, i)
    ensures Choosable(p, t, i)
  {
    var q :| OpenQuorum(p', q, t, i);
    assert OpenQuorum(p, q, t, i);
  }

  lemma ConfirmedForth(p: Protocol, p': Protocol, t: nat, i: nat, j: nat)
    requires |p'.terms| == |p.terms|
    requires forall v :: Acked(p, t, v, i) ==> Acked(p', t, v, j)
    requires Confirmed(p, t, i)
    ensures Confirmed(p', t, j)
  {
    var q :| AckQuorum(p, q, t, i);
    assert AckQuorum(p', q, t, j);
  }

  lemma ConfirmedIsChoosable(p: Protocol, t: nat, i: nat)
    requires AcksGood(p) && Confirmed(p, t, i)
    ensures Choosable(p, t, i)
  {
    var q :| AckQuorum(p, q, t, i);
    assert OpenQuorum(p, q, t, i);
  }

  lemma GoodLogGrows(w: Log, lead: map<nat, Log>, lead': map<nat, Log>)
    requires GoodLog(w, lead) && LeadGrows(lead, lead')
    ensures GoodLog(w, lead')
  {
    forall i | 1 <= i < |w|
      ensures w[i].term in lead' && Agree(w, lead'[w[i].term], i + 1)
    {
      assert w[i].term in lead;
    }
  }

  lemma ElectedForth(p: Protocol, p': Protocol, c: nat, t: nat)
    requires |p'.terms| == |p.terms|
    requires forall v :: VotedFor(p, v, t, c) ==> VotedFor(p', v, t, c)
    requires ElectedBy(p, c, t)
    ensures ElectedBy(p', c, t)
  {
    var q :| VoteQuorum(p, q, c, t);
    assert VoteQuorum(p', q, c, t);
  }

  lemma GoodUpToGrows(w: Log, lead: map<nat, Log>, lead': map<nat, Log>, t: nat, t': nat)
    requires GoodUpTo(w, lead, t) && LeadGrows(lead, lead') && t <= t'
    ensures GoodUpTo(w, lead', t')
  {
    GoodLogGrows(w, lead, lead');
  }

  // ---------- Clauses that only the past decides stay true

  lemma LogsGrow(p: Protocol, p': Protocol)
    requires LogsGood(p) && Grows(p, p') && p'.logs == p.logs
    ensures LogsGood(p')
  {
    forall v | 0 <= v < |p'.logs|
      ensures GoodUpTo(p'.logs[v], p'.lead, p'.terms[v])
    {
      GoodUpToGrows(p.logs[v], p.lead, p'.lead, p.terms[v], p'.terms[v]);
    }
  }

  lemma LeadsGrow(p: Protocol, p': Protocol, u: nat)
    requires LeadsGood(p) && Grows(p, p')
    requires forall t :: t in p'.lead && t != u ==> t in p.lead && p'.lead[t] == p.lead[t]
    requires p'.leaderOf.Keys == p'.lead.Keys
    requires u in p'.lead ==>
      u >= 1 && GoodUpTo(p'.lead[u], p'.lead, u) && p'.leaderOf[u] < |p'.terms| && u <= p'.terms[p'.leaderOf[u]]
    ensures LeadsGood(p')
  {
    hide GoodUpTo;
    forall t | t in p'.lead && t != u
      ensures GoodUpTo(p'.lead[t], p'.lead, t)
    {
      GoodUpToGrows(p.lead[t], p.lead, p'.lead, t, t);
    }
  }

  lemma StandsGrow(p: Protocol, p': Protocol)
    requires StandsGood(p) && Grows(p, p')
    requires forall k :: k in p'.stands && k !in p.stands ==>
      k.0 < |p'.terms| && k.1 <= p'.terms[k.0] && GoodUpTo(p'.stands[k], p'.lead, k.1)
    ensures StandsGood(p')
  {
    forall k | k in p.stands
      ensures GoodUpTo(p'.stands[k], p'.lead, k.1)
    {
      GoodUpToGrows(p.stands[k], p.lead, p'.lead, k.1, k.1);
    }
  }

  lemma VotesGrow(p: Protocol, p': Protocol)
    requires VotesGood(p) && Grows(p, p')
    requires forall k :: k in p'.votes && k !in p.votes ==> GoodVote(p', k, p'.votes[k])
    ensures VotesGood(p')
  {
    forall k | k in p.votes
      ensures GoodVote(p', k, p'.votes[k])
    {
      assert GoodVote(p, k, p.votes[k]);
      GoodLogGrows(p.votes[k].log, p.lead, p'.lead);
    }
  }

  /** Past elections stay won. */
  lemma ElectionsGrow(p: Protocol, p': Protocol)
    requires LeadersElected(p) && LeadsGood(p) && Grows(p, p')
    requires forall t :: t in p'.lead && t !in p.lead && t in p'.leaderOf ==> ElectedBy(p', p'.leaderOf[t], t)
    ensures LeadersElected(p')
  {
    forall t | t in p.lead
      ensures t in p'.leaderOf && ElectedBy(p', p'.leaderOf[t], t)
    {
      ElectedForth(p, p', p.leaderOf[t], t);
    }
  }

  /** Past commits stay confirmed. */
  lemma CommitsGrow(p: Protocol, p': Protocol)
    requires CommitsConfirmed(p) && Grows(p, p') && p'.commits == p.commits
    ensures CommitsConfirmed(p')
  {
    forall k | k in p'.commits
      ensures Own(p', k.0, k.1) && Confirmed(p', k.0, k.1)
    {
      assert Own(p, k.0, k.1) && Confirmed(p, k.0, k.1);
      assert forall v :: Acked(p, k.0, v, k.1) ==> Acked(p', k.0, v, k.1);
      ConfirmedForth(p, p', k.0, k.1, k.1);
    }
  }

  // ---------- Actions that change terms and votes only

  /** Logs, leaders, confirmations and commits are untouched. */
  ghost predicate SameLogs(p: Protocol, p': Protocol) {
    && p'.logs == p.logs && p'.lead == p.lead && p'.leaderOf == p.leaderOf
    && p'.acks == p.acks
    && Grows(p, p')
    && Closes(p, p')
  }

  lemma AcksSame(p: Protocol, p': Protocol)
    requires AcksGood(p) && SameLogs(p, p')
    ensures AcksGood(p')
  {
  }

  lemma AckersSame(p: Protocol, p': Protocol)
    requires AckersHold(p) && SameLogs(p, p')
    ensures AckersHold(p')
  {
    forall t: nat, v: nat, i: nat | Acked(p', t, v, i) && Own(p', t, i) && v < |p'.logs| && Choosable(p', t, i)
      ensures Agree(p'.logs[v], p'.lead[t], i + 1)
    {
      ChoosableBack(p, p', t, i);
      assert Acked(p, t, v, i) && Own(p, t, i);
    }
  }

  lemma LeadersSame(p: Protocol, p': Protocol)
    requires LeadersHold(p) && SameLogs(p, p')
    ensures LeadersHold(p')
  {
    forall t: nat, u: nat, i: nat | Own(p', t, i) && u in p'.lead && t < u && Choosable(p', t, i)
      ensures Agree(First(p', u), p'.lead[t], i + 1) && Agree(p'.lead[u], p'.lead[t], i + 1)
    {
      ChoosableBack(p, p', t, i);
      assert Own(p, t, i);
    }
  }

  lemma VotersSame(p: Protocol, p': Protocol)
    requires VotersHeld(p) && AckersHold(p) && AcksGood(p) && SameLogs(p, p')
    requires forall k :: k in p'.votes && k !in p.votes ==> k.0 < |p.logs| && p'.votes[k].log == p.logs[k.0]
    ensures VotersHeld(p')
  {
    forall t: nat, v: nat, i: nat, u: nat | Acked(p', t, v, i) && Own(p', t, i) && t < u && (v, u) in p'.votes
      && Choosable(p', t, i)
      ensures Agree(p'.votes[(v, u)].log, p'.lead[t], i + 1)
    {
      ChoosableBack(p, p', t, i);
      assert Acked(p, t, v, i) && Own(p, t, i);
    }
  }

  lemma SameLogsKeep(p: Protocol, p': Protocol)
    requires ProtocolInv(p) && SameLogs(p, p')
    requires StandsGood(p') && VotesGood(p') && VotersHeld(p') && CommitsConfirmed(p')
    ensures ProtocolInv(p')
  {
    LogsGrow(p, p');
    LeadsGrow(p, p', 0);
    ElectionsGrow(p, p');
    AcksSame(p, p');
    AckersSame(p, p');
    LeadersSame(p, p');
  }

  lemma ObserveKeeps(p: Protocol, v: nat, t: nat)
    requires ProtocolInv(p)
    requires v < |p.terms| && p.terms[v] <= t
    ensures ProtocolInv(Observe(p, v, t)) && Grows(p, Observe(p, v, t))
  {
    var p' := Observe(p, v, t);
    assert SameLogs(p, p');
    StandsGrow(p, p');
    VotesGrow(p, p');
    VotersSame(p, p');
    CommitsGrow(p, p');
    SameLogsKeep(p, p');
  }

  lemma StandFresh(p: Protocol, v: nat)
    requires StandsGood(p) && VotesGood(p) && v < |p.terms| == |p.logs|
    ensures (v, p.terms[v] + 1) !in p.stands && (v, p.terms[v] + 1) !in p.votes
    ensures SameLogs(p, Stand(p, v))
  {
    hide GoodLog, GoodUpTo, UpToDate;
    var t := p.terms[v] + 1;
    assert (v, t) !in p.votes by {
      assert forall k :: k in p.votes ==> GoodVote(p, k, p.votes[k]);
    }
  }

  lemma StandGood(p: Protocol, v: nat)
    requires LogsGood(p) && StandsGood(p) && VotesGood(p) && v < |p.terms|
    requires SameLogs(p, Stand(p, v))
    ensures StandsGood(Stand(p, v)) && VotesGood(Stand(p, v))
  {
    var p' := Stand(p, v);
    GoodUpToGrows(p.logs[v], p.lead, p.lead, p.terms[v], p.terms[v] + 1);
    StandsGrow(p, p');
    VotesGrow(p, p');
  }

  lemma StandKeeps(p: Protocol, v: nat)
    requires ProtocolInv(p)
    requires v < |p.terms|
    ensures ProtocolInv(Stand(p, v)) && Grows(p, Stand(p, v))
  {
    StandFresh(p, v);
    StandGood(p, v);
    VotersSame(p, Stand(p, v));
    CommitsGrow(p, Stand(p, v));
    SameLogsKeep(p, Stand(p, v));
  }

  lemma CastGood(p: Protocol, v: nat, c: nat)
    requires LogsGood(p) && StandsGood(p) && VotesGood(p)
    requires v < |p.terms| && (v, p.terms[v]) !in p.votes
    requires (c, p.terms[v]) in p.stands && |p.stands[(c, p.terms[v])]| > 0 && |p.logs[v]| > 0
    requires UpToDate(p.stands[(c, p.terms[v])], p.logs[v])
    ensures SameLogs(p, Cast(p, v, c)) && StandsGood(Cast(p, v, c)) && VotesGood(Cast(p, v, c))
  {
    assert |p.terms| == |p.logs|;
    var p' := Cast(p, v, c);
    hide GoodUpTo, UpToDate, GoodVote, LogsGood, StandsGood, VotesGood, Grows, Closes;
    CastVote(p, v, c);
    CastSame(p, v, c);
    StandsGrow(p, p');
    VotesGrow(p, p');
  }

  lemma CastSame(p: Protocol, v: nat, c: nat)
    requires v < |p.terms| == |p.logs| && (v, p.terms[v]) !in p.votes
    ensures SameLogs(p, Cast(p, v, c))
  {
  }

  lemma CastVote(p: Protocol, v: nat, c: nat)
    requires LogsGood(p) && v < |p.terms| && v < |p.logs|
    requires (c, p.terms[v]) in p.stands && |p.stands[(c, p.terms[v])]| > 0 && |p.logs[v]| > 0
    requires UpToDate(p.stands[(c, p.terms[v])], p.logs[v])
    ensures var k := (v, p.terms[v]); GoodVote(Cast(p, v, c), k, Cast(p, v, c).votes[k])
  {
    hide GoodLog, UpToDate;
  }

  lemma CastKeeps(p: Protocol, v: nat, c: nat)
    requires ProtocolInv(p)
    requires v < |p.terms| && (v, p.terms[v]) !in p.votes
    requires (c, p.terms[v]) in p.stands && |p.stands[(c, p.terms[v])]| > 0 && |p.logs[v]| > 0
    requires UpToDate(p.stands[(c, p.terms[v])], p.logs[v])
    ensures ProtocolInv(Cast(p, v, c)) && Grows(p, Cast(p, v, c))
  {
    CastGood(p, v, c);
    VotersSame(p, Cast(p, v, c));
    CommitsGrow(p, Cast(p, v, c));
    SameLogsKeep(p, Cast(p, v, c));
  }

  // ---------- Winning an election

  /** A log at least as up-to-date as one holding a choosable entry holds it too. */
  lemma UpToDateHolds(p: Protocol, w: Log, seen: Log, t: nat, i: nat)
    requires LeadersHold(p)
    requires GoodLog(w, p.lead) && GoodLog(seen, p.lead) && UpToDate(w, seen)
    requires LastTerm(w) in p.lead ==> GoodLog(p.lead[LastTerm(w)], p.lead)
    requires t >= 1 && Own(p, t, i) && Choosable(p, t, i) && Agree(seen, p.lead[t], i + 1)
    ensures Agree(w, p.lead[t], i + 1)
  {
  }

  /**
   Section 5.4.3 of the Raft paper: the winner of an election holds every entry
   of an earlier term that may still be chosen.
   */
  lemma WinnerHolds(p: Protocol, c: nat, t: nat, i: nat)
    requires LogsGood(p) && LeadsGood(p) && VotesGood(p) && AcksGood(p) && VotersHeld(p) && LeadersHold(p)
    requires c < |p.terms| && (c, p.terms[c]) in p.stands && p.stands[(c, p.terms[c])] == p.logs[c]
    requires ElectedBy(p, c, p.terms[c])
    requires Own(p, t, i) && t < p.terms[c] && Choosable(p, t, i)
    ensures Agree(p.logs[c], p.lead[t], i + 1)
  {
    var v := VoterMayAck(p, c, t, i);
    var seen := p.votes[(v, p.terms[c])].log;
    assert GoodVote(p, (v, p.terms[c]), p.votes[(v, p.terms[c])]);
    assert Agree(seen, p.lead[t], i + 1);
    UpToDateHolds(p, p.logs[c], seen, t, i);
  }

  lemma VoterMayAck(p: Protocol, c: nat, t: nat, i: nat) returns (v: nat)
    requires VotesGood(p)
    requires c < |p.terms| && ElectedBy(p, c, p.terms[c]) && t < p.terms[c] && Choosable(p, t, i)
    ensures VotedFor(p, v, p.terms[c], c) && Acked(p, t, v, i)
  {
    var q :| OpenQuorum(p, q, t, i);
    var r :| VoteQuorum(p, r, c, p.terms[c]);
    v := QuorumsMeet(|p.terms|, q, r);
    assert VotedFor(p, v, p.terms[c], c) && MayAck(p, t, v, i);
    assert GoodVote(p, (v, p.terms[c]), p.votes[(v, p.terms[c])]);
  }

  /** Adding a leader or an entry of its own term leaves what is choosable agreed upon. */
  ghost predicate CanElect(p: Protocol, c: nat) {
    && c < |p.terms| == |p.logs|
    && p.terms[c] >= 1
    && p.terms[c] !in p.lead
    && (c, p.terms[c]) in p.stands
    && p.stands[(c, p.terms[c])] == p.logs[c]
    && |p.logs[c]| > 0
    && ElectedBy(p, c, p.terms[c])
  }

  lemma ElectGrows(p: Protocol, c: nat)
    requires AcksGood(p) && CanElect(p, c) && p.terms[c] !in p.leaderOf
    ensures Grows(p, Elect(p, c)) && Closes(p, Elect(p, c))
  {
  }

  lemma ElectLeads(p: Protocol, c: nat)
    requires LogsGood(p) && LeadsGood(p) && CanElect(p, c) && Grows(p, Elect(p, c))
    ensures LeadsGood(Elect(p, c))
  {
    hide GoodLog;
    var p' := Elect(p, c);
    GoodUpToGrows(p.logs[c], p.lead, p'.lead, p.terms[c], p.terms[c]);
    LeadsGrow(p, p', p.terms[c]);
  }

  lemma ElectElected(p: Protocol, c: nat)
    requires LeadersElected(p) && LeadsGood(p) && CanElect(p, c) && Grows(p, Elect(p, c))
    ensures LeadersElected(Elect(p, c))
  {
    ElectedForth(p, Elect(p, c), c, p.terms[c]);
    ElectionsGrow(p, Elect(p, c));
  }

  lemma FreshLeaderOwnsNothing(p: Protocol, c: nat, i: nat)
    requires LogsGood(p) && CanElect(p, c)
    ensures !Own(Elect(p, c), p.terms[c], i)
  {
    assert GoodUpTo(p.logs[c], p.lead, p.terms[c]);
  }

  /** What may be chosen after an election could be chosen before, in an older term. */
  lemma ElectBack(p: Protocol, c: nat, t: nat, i: nat)
    requires LogsGood(p) && CanElect(p, c) && Closes(p, Elect(p, c))
    requires Own(Elect(p, c), t, i) && Choosable(Elect(p, c), t, i)
    ensures t != p.terms[c] && Own(p, t, i) && Choosable(p, t, i)
  {
    FreshLeaderOwnsNothing(p, c, i);
    ChoosableBack(p, Elect(p, c), t, i);
  }

  lemma ElectAckers(p: Protocol, c: nat)
    requires LogsGood(p) && CanElect(p, c) && AckersHold(p) && Closes(p, Elect(p, c))
    ensures AckersHold(Elect(p, c))
  {
    var p' := Elect(p, c);
    forall t: nat, v: nat, i: nat | Acked(p', t, v, i) && Own(p', t, i) && v < |p'.logs| && Choosable(p', t, i)
      ensures Agree(p'.logs[v], p'.lead[t], i + 1)
    {
      ElectBack(p, c, t, i);
      assert Acked(p, t, v, i);
    }
  }

  lemma ElectVoters(p: Protocol, c: nat)
    requires LogsGood(p) && CanElect(p, c) && VotersHeld(p) && Closes(p, Elect(p, c))
    ensures VotersHeld(Elect(p, c))
  {
    var p' := Elect(p, c);
    forall t: nat, v: nat, i: nat, u: nat | Acked(p', t, v, i) && Own(p', t, i) && t < u && (v, u) in p'.votes
      && Choosable(p', t, i)
      ensures Agree(p'.votes[(v, u)].log, p'.lead[t], i + 1)
    {
      ElectBack(p, c, t, i);
      assert Acked(p, t, v, i);
    }
  }

  lemma ElectLeaders(p: Protocol, c: nat)
    requires LogsGood(p) && LeadsGood(p) && VotesGood(p) && AcksGood(p) && CanElect(p, c)
    requires VotersHeld(p) && LeadersHold(p) && Closes(p, Elect(p, c))
    ensures LeadersHold(Elect(p, c))
  {
    hide LogsGood, LeadsGood, VotesGood, AcksGood, VotersHeld, First, Closes, Choosable, ElectedBy;
    var p' := Elect(p, c);
    forall t: nat, u: nat, i: nat | Own(p', t, i) && u in p'.lead && t < u && Choosable(p', t, i)
      ensures Agree(First(p', u), p'.lead[t], i + 1) && Agree(p'.lead[u], p'.lead[t], i + 1)
    {
      ElectBack(p, c, t, i);
      FirstAfterElect(p, c, u);
      if u == p.terms[c] {
        WinnerHolds(p, c, t, i);
      }
    }
  }

  lemma FirstAfterElect(p: Protocol, c: nat, u: nat)
    requires CanElect(p, c)
    ensures First(Elect(p, c), u) == if u == p.terms[c] then p.logs[c] else First(p, u)
  {
  }

  lemma ElectAcks(p: Protocol, c: nat)
    requires AcksGood(p) && CanElect(p, c)
    ensures AcksGood(Elect(p, c))
  {
  }

  lemma ElectKeeps(p: Protocol, c: nat)
    requires ProtocolInv(p) && CanElect(p, c) && p.terms[c] !in p.leaderOf
    ensures ProtocolInv(Elect(p, c)) && Grows(p, Elect(p, c))
  {
    var p' := Elect(p, c);
    ElectGrows(p, c);
    LogsGrow(p, p');
    ElectLeads(p, c);
    ElectElected(p, c);
    ElectAckers(p, c);
    ElectVoters(p, c);
    ElectLeaders(p, c);
    ElectAcks(p, c);
    StandsGrow(p, p');
    VotesGrow(p, p');
    CommitsGrow(p, p');
  }

  // ---------- A leader appending an entry

  ghost predicate CanExtend(p: Protocol, c: nat, e: Entry) {
    && c < |p.terms| == |p.logs|
    && p.terms[c] in p.lead
    && p.logs[c] == p.lead[p.terms[c]]
    && |p.logs[c]| > 0
    && e.term == p.terms[c] && e.index == |p.logs[c]|
    && p.terms[c] in p.leaderOf && p.leaderOf[p.terms[c]] == c
  }

  lemma GoodLogExtends(w: Log, lead: map<nat, Log>, t: nat, e: Entry)
    requires GoodUpTo(w, lead, t) && t in lead && lead[t] == w && e.term == t && e.index == |w|
    ensures LeadGrows(lead, lead[t := w + [e]])
    ensures GoodUpTo(w + [e], lead[t := w + [e]], t)
  {
    var lead' := lead[t := w + [e]];
    assert LeadGrows(lead, lead');
    GoodLogGrows(w, lead, lead');
    var w' := w + [e];
    forall i | 1 <= i < |w'|
      ensures w'[i].term in lead' && Agree(w', lead'[w'[i].term], i + 1)
    {
      if i < |w| {
        assert w[i].term in lead' && Agree(w, lead'[w[i].term], i + 1);
      }
    }
  }

  lemma ExtendGrows(p: Protocol, c: nat, e: Entry)
    requires LogsGood(p) && AcksGood(p) && CanExtend(p, c, e)
    ensures Grows(p, Extend(p, c, e)) && Closes(p, Extend(p, c, e))
  {
    GoodLogExtends(p.logs[c], p.lead, p.terms[c], e);
  }

  lemma ExtendLogs(p: Protocol, c: nat, e: Entry)
    requires LogsGood(p) && CanExtend(p, c, e) && Grows(p, Extend(p, c, e))
    ensures LogsGood(Extend(p, c, e))
  {
    var p' := Extend(p, c, e);
    GoodLogExtends(p.logs[c], p.lead, p.terms[c], e);
    forall v | 0 <= v < |p'.logs|
      ensures GoodUpTo(p'.logs[v], p'.lead, p'.terms[v])
    {
      if v != c {
        GoodUpToGrows(p.logs[v], p.lead, p'.lead, p.terms[v], p.terms[v]);
      }
    }
  }

  lemma ExtendLeads(p: Protocol, c: nat, e: Entry)
    requires LeadsGood(p) && CanExtend(p, c, e) && Grows(p, Extend(p, c, e))
    ensures LeadsGood(Extend(p, c, e))
  {
    hide GoodLog;
    assert GoodUpTo(p.logs[c], p.lead, p.terms[c]);
    GoodLogExtends(p.logs[c], p.lead, p.terms[c], e);
    LeadsGrow(p, Extend(p, c, e), p.terms[c]);
  }

  lemma ExtendAcks(p: Protocol, c: nat, e: Entry)
    requires AcksGood(p) && CanExtend(p, c, e) && LogsGood(p)
    ensures AcksGood(Extend(p, c, e))
  {
    var p' := Extend(p, c, e);
    var t := p.terms[c];
    forall k | k in p'.acks
      ensures k.0 in p'.lead && k.1 < |p'.terms| && k.0 <= p'.terms[k.1] && p'.acks[k] < |p'.lead[k.0]|
      ensures k.0 == p'.terms[k.1] ==> Agree(p'.logs[k.1], p'.lead[k.0], p'.acks[k] + 1)
    {
      if k != (t, c) {
        assert k in p.acks;
      }
    }
  }

  /** An entry appended after a later leader was elected can no longer be chosen. */
  lemma LateEntryUnchoosable(p: Protocol, c: nat, e: Entry, u: nat)
    requires LeadsGood(p) && VotesGood(p) && AcksGood(p) && LeadersElected(p) && CanExtend(p, c, e)
    requires u in p.lead && p.terms[c] < u
    ensures !Choosable(Extend(p, c, e), p.terms[c], |p.logs[c]|)
  {
    var p' := Extend(p, c, e);
    var t, i := p.terms[c], |p.logs[c]|;
    assert ElectedBy(p, p.leaderOf[u], u);
    var r :| VoteQuorum(p, r, p.leaderOf[u], u);
    forall v | v in r
      ensures !MayAck(p', t, v, i)
    {
      assert VotedFor(p, v, u, p.leaderOf[u]);
      assert GoodVote(p, (v, u), p.votes[(v, u)]);
    }
    forall q | Quorum(|p'.terms|, q)
      ensures !OpenQuorum(p', q, t, i)
    {
      var v := QuorumsMeet(|p.terms|, q, r);
    }
  }

  lemma ExtendHolds(p: Protocol, c: nat, e: Entry)
    requires LeadsGood(p) && VotesGood(p) && AcksGood(p) && LeadersElected(p) && CanExtend(p, c, e)
    requires LeadersHold(p) && Closes(p, Extend(p, c, e))
    ensures LeadersHold(Extend(p, c, e))
  {
    var p' := Extend(p, c, e);
    forall t: nat, u: nat, i: nat | Own(p', t, i) && u in p'.lead && t < u && Choosable(p', t, i)
      ensures Agree(First(p', u), p'.lead[t], i + 1) && Agree(p'.lead[u], p'.lead[t], i + 1)
    {
      OldEntryHeld(p, c, e, t, u, i);
    }
  }

  lemma OldEntryHeld(p: Protocol, c: nat, e: Entry, t: nat, u: nat, i: nat)
    requires LeadsGood(p) && VotesGood(p) && AcksGood(p) && LeadersElected(p) && CanExtend(p, c, e)
    requires LeadersHold(p) && Closes(p, Extend(p, c, e))
    requires Own(Extend(p, c, e), t, i) && u in p.lead && t < u && Choosable(Extend(p, c, e), t, i)
    ensures Agree(First(Extend(p, c, e), u), Extend(p, c, e).lead[t], i + 1)
    ensures Agree(Extend(p, c, e).lead[u], Extend(p, c, e).lead[t], i + 1)
  {
    ChoosableBack(p, Extend(p, c, e), t, i);
    ExtendBack(p, c, e, t, u, i);
    AgreeLater(p, c, e, t, u, i);
  }

  lemma ExtendBack(p: Protocol, c: nat, e: Entry, t: nat, u: nat, i: nat)
    requires LeadsGood(p) && VotesGood(p) && AcksGood(p) && LeadersElected(p) && CanExtend(p, c, e)
    requires Own(Extend(p, c, e), t, i) && u in p.lead && t < u && Choosable(Extend(p, c, e), t, i)
    ensures Own(p, t, i)
  {
    if t == p.terms[c] && i == |p.logs[c]| {
      LateEntryUnchoosable(p, c, e, u);
    } else {
      OwnBack(p, c, e, t, i);
    }
  }

  lemma OwnBack(p: Protocol, c: nat, e: Entry, t: nat, i: nat)
    requires CanExtend(p, c, e) && Own(Extend(p, c, e), t, i)
    requires t != p.terms[c] || i != |p.logs[c]|
    ensures Own(p, t, i)
  {
  }

  lemma AgreeLater(p: Protocol, c: nat, e: Entry, t: nat, u: nat, i: nat)
    requires CanExtend(p, c, e) && LeadersHold(p)
    requires Own(p, t, i) && u in p.lead && t < u && Choosable(p, t, i)
    ensures Agree(First(Extend(p, c, e), u), Extend(p, c, e).lead[t], i + 1)
    ensures Agree(Extend(p, c, e).lead[u], Extend(p, c, e).lead[t], i + 1)
  {
    assert Agree(p.lead[u], p.lead[t], i + 1);
  }

  lemma ExtendAckers(p: Protocol, c: nat, e: Entry)
    requires LogsGood(p) && AcksGood(p) && CanExtend(p, c, e)
    requires AckersHold(p) && Closes(p, Extend(p, c, e))
    ensures AckersHold(Extend(p, c, e))
  {
    hide Choosable, Closes;
    var p' := Extend(p, c, e);
    forall t: nat, v: nat, i: nat | Acked(p', t, v, i) && Own(p', t, i) && v < |p'.logs| && Choosable(p', t, i)
      ensures Agree(p'.logs[v], p'.lead[t], i + 1)
    {
      if (t, v) != (p.terms[c], c) {
        ChoosableBack(p, p', t, i);
        assert Acked(p, t, v, i) && Own(p, t, i);
      }
    }
  }

  lemma ExtendVoters(p: Protocol, c: nat, e: Entry)
    requires AcksGood(p) && VotesGood(p) && CanExtend(p, c, e)
    requires VotersHeld(p) && Closes(p, Extend(p, c, e))
    ensures VotersHeld(Extend(p, c, e))
  {
    var p' := Extend(p, c, e);
    forall t: nat, v: nat, i: nat, u: nat | Acked(p', t, v, i) && Own(p', t, i) && t < u && (v, u) in p'.votes
      && Choosable(p', t, i)
      ensures Agree(p'.votes[(v, u)].log, p'.lead[t], i + 1)
    {
      assert GoodVote(p, (v, u), p.votes[(v, u)]);
      assert Acked(p, t, v, i) && Own(p, t, i);
      ChoosableBack(p, p', t, i);
    }
  }

  lemma ExtendKeeps(p: Protocol, c: nat, e: Entry)
    requires ProtocolInv(p) && CanExtend(p, c, e)
    ensures ProtocolInv(Extend(p, c, e)) && Grows(p, Extend(p, c, e))
  {
    var p' := Extend(p, c, e);
    ExtendGrows(p, c, e);
    ExtendLogs(p, c, e);
    ExtendLeads(p, c, e);
    ElectionsGrow(p, p');
    ExtendAcks(p, c, e);
    ExtendHolds(p, c, e);
    ExtendAckers(p, c, e);
    ExtendVoters(p, c, e);
    StandsGrow(p, p');
    VotesGrow(p, p');
    CommitsGrow(p, p');
  }

  // ---------- A follower taking over entries

  /** Server `v` gets log `w`; nothing else changes. */
  function SetLog(p: Protocol, v: nat, w: Log): Protocol
    requires v < |p.logs|
  {
    p.(logs := p.logs[v := w])
  }

  /** The log `w` has all that `v` has confirmed and must keep. */
  ghost predicate CanSetLog(p: Protocol, v: nat, w: Log) {
    && v < |p.logs| == |p.terms|
    && GoodUpTo(w, p.lead, p.terms[v])
    && (forall i: nat :: Acked(p, p.terms[v], v, i) && p.terms[v] in p.lead ==> Agree(w, p.lead[p.terms[v]], i + 1))
    && (forall t: nat, i: nat :: Acked(p, t, v, i) && Own(p, t, i) && Choosable(p, t, i) ==> Agree(w, p.lead[t], i + 1))
  }

  lemma SetLogGood(p: Protocol, v: nat, w: Log)
    requires LogsGood(p) && AcksGood(p) && CanSetLog(p, v, w)
    ensures LogsGood(SetLog(p, v, w)) && AcksGood(SetLog(p, v, w))
  {
    var p' := SetLog(p, v, w);
    forall k | k in p.acks && k.1 == v && k.0 == p.terms[v]
      ensures Agree(w, p.lead[k.0], p.acks[k] + 1)
    {
      assert Acked(p, p.terms[v], v, p.acks[k]);
    }
  }

  lemma SetLogAckers(p: Protocol, v: nat, w: Log)
    requires AckersHold(p) && CanSetLog(p, v, w)
    ensures AckersHold(SetLog(p, v, w))
  {
    var p' := SetLog(p, v, w);
    assert Closes(p, p');
    forall t: nat, x: nat, i: nat | Acked(p', t, x, i) && Own(p', t, i) && x < |p'.logs| && Choosable(p', t, i)
      ensures Agree(p'.logs[x], p'.lead[t], i + 1)
    {
      ChoosableBack(p, p', t, i);
      assert Acked(p, t, x, i) && Own(p, t, i);
    }
  }

  lemma SetLogVoters(p: Protocol, v: nat, w: Log)
    requires VotersHeld(p) && CanSetLog(p, v, w)
    ensures VotersHeld(SetLog(p, v, w))
  {
    var p' := SetLog(p, v, w);
    assert Closes(p, p');
    forall t: nat, x: nat, i: nat, u: nat | Acked(p', t, x, i) && Own(p', t, i) && t < u && (x, u) in p'.votes
      && Choosable(p', t, i)
      ensures Agree(p'.votes[(x, u)].log, p'.lead[t], i + 1)
    {
      ChoosableBack(p, p', t, i);
      assert Acked(p, t, x, i) && Own(p, t, i);
    }
  }

  lemma SetLogLeaders(p: Protocol, v: nat, w: Log)
    requires LeadersHold(p) && CanSetLog(p, v, w)
    ensures LeadersHold(SetLog(p, v, w))
  {
    var p' := SetLog(p, v, w);
    assert Closes(p, p');
    forall t: nat, u: nat, i: nat | Own(p', t, i) && u in p'.lead && t < u && Choosable(p', t, i)
      ensures Agree(First(p', u), p'.lead[t], i + 1) && Agree(p'.lead[u], p'.lead[t], i + 1)
    {
      ChoosableBack(p, p', t, i);
      assert Own(p, t, i);
    }
  }

  lemma SetLogKeeps(p: Protocol, v: nat, w: Log)
    requires ProtocolInv(p) && CanSetLog(p, v, w)
    ensures ProtocolInv(SetLog(p, v, w)) && Grows(p, SetLog(p, v, w))
  {
    var p' := SetLog(p, v, w);
    assert Grows(p, p');
    SetLogGood(p, v, w);
    SetLogAckers(p, v, w);
    SetLogVoters(p, v, w);
    SetLogLeaders(p, v, w);
    LeadsGrow(p, p', 0);
    StandsGrow(p, p');
    VotesGrow(p, p');
    ElectionsGrow(p, p');
    CommitsGrow(p, p');
  }

  lemma GoodLogPrefix(w: Log, lead: map<nat, Log>, t: nat, k: nat)
    requires GoodUpTo(w, lead, t) && 1 <= k <= |w|
    ensures GoodUpTo(w[..k], lead, t)
  {
    var w' := w[..k];
    forall i | 1 <= i < |w'|
      ensures w'[i].term in lead && Agree(w', lead[w'[i].term], i + 1)
    {
      assert w'[i] == w[i];
    }
  }

  /** Up to `m` the log `w` misses or contradicts something of `x`. */
  predicate Differs(w: Log, x: Log, m: nat) {
    exists j :: 0 <= j <= m && j < |x| && (j >= |w| || w[j] != x[j])
  }

  lemma AdoptedAgrees(w: Log, x: Log, y: Log, m: nat, i: nat)
    requires m < |x| && Differs(w, x, m) && Agree(w, y, i + 1) && Agree(x, y, i + 1)
    ensures Agree(x[..m + 1], y, i + 1)
  {
  }

  /**
   Taking over the leader's first `m + 1` entries, when the own log differs from them,
   loses nothing that was confirmed.
   */
  lemma CanAdopt(p: Protocol, v: nat, t: nat, m: nat)
    requires AcksGood(p) && AckersHold(p) && LeadersHold(p)
    requires v < |p.terms| == |p.logs| && p.terms[v] == t && t in p.lead && m < |p.lead[t]|
    requires GoodUpTo(p.lead[t], p.lead, t)
    requires Differs(p.logs[v], p.lead[t], m)
    ensures CanSetLog(p, v, p.lead[t][..m + 1])
  {
    var x := p.lead[t];
    GoodLogPrefix(x, p.lead, t, m + 1);
    forall i: nat | Acked(p, t, v, i)
      ensures Agree(x[..m + 1], x, i + 1)
    {
      AckedNow(p, v, i);
      AdoptedAgrees(p.logs[v], x, x, m, i);
    }
    forall s: nat, i: nat | Acked(p, s, v, i) && Own(p, s, i) && Choosable(p, s, i)
      ensures Agree(x[..m + 1], p.lead[s], i + 1)
    {
      LeaderHasAcked(p, v, s, i);
      AdoptedAgrees(p.logs[v], x, p.lead[s], m, i);
    }
  }

  lemma AckedNow(p: Protocol, v: nat, i: nat)
    requires AcksGood(p) && v < |p.terms| && Acked(p, p.terms[v], v, i)
    ensures v < |p.logs| && p.terms[v] in p.lead && Agree(p.logs[v], p.lead[p.terms[v]], i + 1)
  {
  }

  /** The current leader of `v`, if any, has what `v` confirmed and must keep. */
  lemma LeaderHasAcked(p: Protocol, v: nat, s: nat, i: nat)
    requires AcksGood(p) && AckersHold(p) && LeadersHold(p)
    requires v < |p.terms| && p.terms[v] in p.lead
    requires Acked(p, s, v, i) && Own(p, s, i) && Choosable(p, s, i)
    ensures v < |p.logs| && Agree(p.logs[v], p.lead[s], i + 1) && Agree(p.lead[p.terms[v]], p.lead[s], i + 1)
  {
    assert s <= p.terms[v];
  }

  /** A commit's prefix is shared by the leaders of all later terms. */
  lemma CommitHeld(p: Protocol, t: nat, i: nat, u: nat)
    requires AcksGood(p) && LeadersHold(p) && CommitsConfirmed(p)
    requires (t, i) in p.commits && t <= u && u in p.lead
    ensures Own(p, t, i) && Agree(p.lead[u], p.lead[t], i + 1)
  {
    ConfirmedIsChoosable(p, t, i);
  }

  /**
   Replacing a log no longer than `b + 1` by the first `b + 1` committed entries
   loses nothing that was confirmed.
   */
  lemma CanReset(p: Protocol, v: nat, t: nat, i: nat, b: nat)
    requires AcksGood(p) && AckersHold(p) && LeadersHold(p) && CommitsConfirmed(p)
    requires v < |p.terms| == |p.logs| && (t, i) in p.commits && b <= i && t <= p.terms[v] && |p.logs[v]| <= b + 1
    requires t in p.lead && i < |p.lead[t]| && GoodUpTo(p.lead[t], p.lead, t)
    ensures CanSetLog(p, v, p.lead[t][..b + 1])
  {
    GoodLogPrefix(p.lead[t], p.lead, t, b + 1);
    GoodUpToGrows(p.lead[t][..b + 1], p.lead, p.lead, t, p.terms[v]);
    forall s: nat, j: nat | Acked(p, s, v, j) && Own(p, s, j) && Choosable(p, s, j)
      ensures Agree(p.lead[t][..b + 1], p.lead[s], j + 1)
    {
      ResetKeeps(p, v, t, i, b, s, j);
    }
    forall j: nat | Acked(p, p.terms[v], v, j) && p.terms[v] in p.lead
      ensures Agree(p.lead[t][..b + 1], p.lead[p.terms[v]], j + 1)
    {
      AckedNow(p, v, j);
      CommitHeld(p, t, i, p.terms[v]);
    }
  }

  lemma ResetKeeps(p: Protocol, v: nat, t: nat, i: nat, b: nat, s: nat, j: nat)
    requires AcksGood(p) && AckersHold(p) && LeadersHold(p) && CommitsConfirmed(p)
    requires (t, i) in p.commits && b <= i && v < |p.logs| && |p.logs[v]| <= b + 1
    requires Acked(p, s, v, j) && Own(p, s, j) && Choosable(p, s, j) && t in p.lead && i < |p.lead[t]|
    ensures Agree(p.lead[t][..b + 1], p.lead[s], j + 1)
  {
    assert Agree(p.logs[v], p.lead[s], j + 1);
    if s < t {
      assert Agree(p.lead[t], p.lead[s], j + 1);
    } else {
      CommitHeld(p, t, i, s);
    }
  }

  // ---------- Confirming and committing

  /** `v` holds its leader's log up to `m` and has not said so yet. */
  ghost predicate CanConfirm(p: Protocol, v: nat, m: nat) {
    && v < |p.terms| == |p.logs|
    && p.terms[v] in p.lead
    && m < |p.lead[p.terms[v]]|
    && Agree(p.logs[v], p.lead[p.terms[v]], m + 1)
    && !Acked(p, p.terms[v], v, m)
  }

  lemma ConfirmGrows(p: Protocol, v: nat, m: nat)
    requires CanConfirm(p, v, m)
    ensures Grows(p, Confirm(p, v, m)) && Closes(p, Confirm(p, v, m))
  {
  }

  lemma ConfirmAcks(p: Protocol, v: nat, m: nat)
    requires AcksGood(p) && CanConfirm(p, v, m)
    ensures AcksGood(Confirm(p, v, m))
  {
  }

  lemma ConfirmAckers(p: Protocol, v: nat, m: nat)
    requires AckersHold(p) && CanConfirm(p, v, m) && Closes(p, Confirm(p, v, m))
    ensures AckersHold(Confirm(p, v, m))
  {
    var p' := Confirm(p, v, m);
    forall t: nat, x: nat, i: nat | Acked(p', t, x, i) && Own(p', t, i) && x < |p'.logs| && Choosable(p', t, i)
      ensures Agree(p'.logs[x], p'.lead[t], i + 1)
    {
      ChoosableBack(p, p', t, i);
      assert Own(p, t, i);
      if (t, x) != (p.terms[v], v) {
        assert Acked(p, t, x, i);
      }
    }
  }

  lemma ConfirmVoters(p: Protocol, v: nat, m: nat)
    requires VotersHeld(p) && VotesGood(p) && CanConfirm(p, v, m) && Closes(p, Confirm(p, v, m))
    ensures VotersHeld(Confirm(p, v, m))
  {
    var p' := Confirm(p, v, m);
    forall t: nat, x: nat, i: nat, u: nat | Acked(p', t, x, i) && Own(p', t, i) && t < u && (x, u) in p'.votes
      && Choosable(p', t, i)
      ensures Agree(p'.votes[(x, u)].log, p'.lead[t], i + 1)
    {
      ChoosableBack(p, p', t, i);
      assert GoodVote(p, (x, u), p.votes[(x, u)]);
      assert Acked(p, t, x, i) && Own(p, t, i);
    }
  }

  lemma ConfirmLeaders(p: Protocol, v: nat, m: nat)
    requires LeadersHold(p) && CanConfirm(p, v, m) && Closes(p, Confirm(p, v, m))
    ensures LeadersHold(Confirm(p, v, m))
  {
    var p' := Confirm(p, v, m);
    forall t: nat, u: nat, i: nat | Own(p', t, i) && u in p'.lead && t < u && Choosable(p', t, i)
      ensures Agree(First(p', u), p'.lead[t], i + 1) && Agree(p'.lead[u], p'.lead[t], i + 1)
    {
      ChoosableBack(p, p', t, i);
      assert Own(p, t, i);
    }
  }

  lemma ConfirmKeeps(p: Protocol, v: nat, m: nat)
    requires ProtocolInv(p) && CanConfirm(p, v, m)
    ensures ProtocolInv(Confirm(p, v, m)) && Grows(p, Confirm(p, v, m))
  {
    var p' := Confirm(p, v, m);
    ConfirmGrows(p, v, m);
    ConfirmAcks(p, v, m);
    ConfirmAckers(p, v, m);
    ConfirmVoters(p, v, m);
    ConfirmLeaders(p, v, m);
    LogsGrow(p, p');
    LeadsGrow(p, p', p.terms[v]);
    StandsGrow(p, p');
    VotesGrow(p, p');
    ElectionsGrow(p, p');
    CommitsGrow(p, p');
  }

  lemma CommitConfirmed(p: Protocol, t: nat, i: nat)
    requires CommitsConfirmed(p) && Own(p, t, i) && Confirmed(p, t, i)
    ensures CommitsConfirmed(Commit(p, t, i))
  {
    var p' := Commit(p, t, i);
    forall k | k in p'.commits
      ensures Own(p', k.0, k.1) && Confirmed(p', k.0, k.1)
    {
      ConfirmedForth(p, p', k.0, k.1, k.1);
    }
  }

  lemma CommitSame(p: Protocol, t: nat, i: nat)
    ensures SameLogs(p, Commit(p, t, i))
  {
  }

  lemma CommitKeeps(p: Protocol, t: nat, i: nat)
    requires ProtocolInv(p) && Own(p, t, i) && Confirmed(p, t, i)
    ensures ProtocolInv(Commit(p, t, i)) && Grows(p, Commit(p, t, i))
  {
    var p' := Commit(p, t, i);
    CommitSame(p, t, i);
    StandsGrow(p, p');
    VotesGrow(p, p');
    VotersSame(p, p');
    CommitConfirmed(p, t, i);
    SameLogsKeep(p, p');
  }
}
