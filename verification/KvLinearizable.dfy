/** Whatever the network, crashes and retries do, clients of the replicated service see a single map. */
module KvLinearizable {
  import opened RaftTypes
  import opened Cluster
  import opened RaftSafety
  import opened KvReplicas
  import opened KvClients
  import opened KvOrder
  import opened Timestamps
  import opened KvModel
  import KvService
  import Linearizability
  import Verdict

  // ---------- The longest log that any service reflects

  /** Every service reflects a prefix of `log`, which is itself reflected by one, or empty. */
  ghost predicate Longest(n: nat, w: World, log: Log) {
    && (log == [] || IsApplied(n, w, log))
    && (forall a: nat, v: nat :: Point(n, w.run, a, v) ==> At(w.run, a, v).service.applied <= log)
  }

  ghost predicate LongestTo(n: nat, w: World, log: Log, a: nat, v: nat) {
    && (log == [] || IsApplied(n, w, log))
    && (forall b: nat, u: nat :: Point(n, w.run, b, u) && (b < a || (b == a && u < v)) ==>
          At(w.run, b, u).service.applied <= log)
  }

  lemma Longer(n: nat, decode: Command -> KvService.Op, w: World, log: Log, a: nat, v: nat) returns (log': Log)
    requires Serves(n, decode, w.run, w.steps, w.services) && LongestTo(n, w, log, a, v) && Point(n, w.run, a, v)
    ensures LongestTo(n, w, log', a, v + 1)
  {
    assert IsRun(n, w.run, w.steps);
    hide IsRun, Serves;
    var mine := At(w.run, a, v).service.applied;
    log' := if mine <= log then log else mine;
    assert IsApplied(n, w, mine);
    assert mine <= log || log <= mine by {
      if log != [] {
        var b: nat, u: nat :| Point(n, w.run, b, u) && At(w.run, b, u).service.applied == log;
        ServicesAgree(n, w.run, w.steps, a, v, b, u);
      }
    }
  }

  lemma LongestLog(n: nat, decode: Command -> KvService.Op, w: World) returns (log: Log)
    requires Serves(n, decode, w.run, w.steps, w.services)
    ensures Longest(n, w, log)
  {
    hide Serves, IsApplied;
    log := [];
    var a: nat := 0;
    while a < |w.run|
      invariant a <= |w.run| && LongestTo(n, w, log, a, 0)
    {
      var v: nat := 0;
      while v < n && v < |w.run[a].servers|
        invariant v <= n && v <= |w.run[a].servers| && LongestTo(n, w, log, a, v)
      {
        log := Longer(n, decode, w, log, a, v);
        v := v + 1;
      }
      a := a + 1;
    }
  }

  // ---------- It explains what the clients were told

  lemma {:induction false} OpsPrefix(decode: Command -> KvService.Op, log: Log, k: nat)
    requires 1 <= k <= |log|
    ensures |Ops(decode, log)| == |log| - 1 && Ops(decode, log[..k]) == Ops(decode, log)[..k - 1]
    decreases |log|
  {
    OpsSize(decode, log);
    if k == |log| {
      assert log[..k] == log;
    } else {
      OpsPrefix(decode, log[..|log| - 1], k);
      assert log[..|log| - 1][..k] == log[..k];
    }
  }

  /** Command `q` of the log, counted from zero. */
  lemma OpIs(decode: Command -> KvService.Op, log: Log, q: nat)
    requires q < |Ops(decode, log)|
    ensures q + 1 < |log| && Ops(decode, log)[q] == decode(log[q + 1].command)
  {
    OpsSize(decode, log);
    OpsAt(decode, log, q + 1);
  }

  lemma AllIssued(n: nat, decode: Command -> KvService.Op, w: World, log: Log, q: nat)
    requires WorldOk(n, decode, w) && Longest(n, w, log) && q < |Ops(decode, log)|
    ensures IssuedBefore(w.invocations, RequestOf(Ops(decode, log)[q]), w.clock)
  {
    hide Serves, Registered, HandlersOk, SessionsOk, RepliesOk, OutcomesOk, Ops;
    OpIs(decode, log, q);
    var b: nat, u: nat :| Point(n, w.run, b, u) && At(w.run, b, u).service.applied == log;
    PrefixInvoked(n, decode, w, b, u);
    assert InvokedBefore(w, RequestOf(decode(log[q + 1].command)), w.clock);
  }

  lemma Explained(n: nat, decode: Command -> KvService.Op, w: World, log: Log, i: nat)
    requires WorldOk(n, decode, w) && Longest(n, w, log) && i < |w.invocations| && w.invocations[i].outcome.Done?
    ensures w.invocations[i].outcome.time < w.clock && Told(w.invocations, Ops(decode, log), w.invocations[i])
  {
    hide Serves, Registered, HandlersOk, SessionsOk, RepliesOk, Ops, KvService.Replay, Read;
    var x, ops := w.invocations[i], Ops(decode, log);
    assert DoneOk(n, decode, w, x);
    var prefix := x.outcome.prefix;
    assert prefix <= log && prefix == log[..|prefix|];
    var p :| 1 <= p < |prefix| && RequestOf(decode(prefix[p].command)) == x.request;
    OpsPrefix(decode, log, |prefix|);
    forall q | 0 <= q < Reach(x)
      ensures ops[q] == decode(prefix[q + 1].command)
    {
      OpIs(decode, log, q);
    }
    assert RequestOf(ops[..Reach(x)][p - 1]) == x.request;
    forall q | 0 <= q < Reach(x)
      ensures IssuedBefore(w.invocations, RequestOf(ops[q]), x.outcome.time)
    {
      assert InvokedBefore(w, RequestOf(decode(prefix[q + 1].command)), x.outcome.time);
    }
  }

  lemma WorldTells(n: nat, decode: Command -> KvService.Op, w: World, log: Log)
    requires WorldOk(n, decode, w) && Longest(n, w, log)
    ensures Story(w.invocations, Ops(decode, log), w.clock)
  {
    assert InTurn(w.invocations) && forall i :: 0 <= i < |w.invocations| ==> w.invocations[i].call < w.clock;
    hide WorldOk, Longest, Told, IssuedBefore, InTurn, Ops;
    forall q | 0 <= q < |Ops(decode, log)|
      ensures IssuedBefore(w.invocations, RequestOf(Ops(decode, log)[q]), w.clock)
    {
      AllIssued(n, decode, w, log, q);
    }
    forall i | 0 <= i < |w.invocations| && w.invocations[i].outcome.Done?
      ensures w.invocations[i].outcome.time < w.clock && Told(w.invocations, Ops(decode, log), w.invocations[i])
    {
      Explained(n, decode, w, log, i);
    }
  }

  // ---------- Clients see one map

  /** The history records what each client sent and got, and gives what is still pending some answer now. */
  ghost predicate Records(w: World, history: seq<KvOperation>) {
    && |history| == |w.invocations|
    && forall i :: 0 <= i < |history| ==>
         var x, h := w.invocations[i], history[i];
         && h.clientId == x.request.clientId && h.input == InputOf(x.request) && h.call == x.call
         && (x.outcome.Done? ==> h.output.value == x.outcome.value && h.ret == x.outcome.time)
         && (x.outcome.Pending? ==> h.ret == w.clock)
  }

  /**
   At any moment of any run, the operations of all clients have one order that a single map accepts and that keeps
   every operation after those that had returned before it was called.
   */
  lemma ClientsSeeOneMap(n: nat, decode: Command -> KvService.Op, ws: seq<World>, events: seq<Event>, k: nat)
    returns (history: seq<KvOperation>)
    requires IsWorldRun(n, decode, ws, events) && k < |ws|
    ensures Records(ws[k], history) && ValidTimes(history)
    ensures Linearizability.Linearizable(Map, Calls(history), Earlier(history))
  {
    var w := ws[k];
    WorldsOk(n, decode, ws, events, k);
    assert Serves(n, decode, w.run, w.steps, w.services);
    hide IsWorldRun, WorldOk, Story, Linearizability.Linearizable, Serves, ValidTimes;
    var log := LongestLog(n, decode, w);
    WorldTells(n, decode, w, log);
    StoryLinearizable(w.invocations, Ops(decode, log), w.clock);
    history := HistoryOf(w.invocations, Ops(decode, log), w.clock);
  }

  /** Once every operation has returned, the history the clients measured is itself linearizable. */
  lemma MeasuredLinearizable(n: nat, decode: Command -> KvService.Op, ws: seq<World>, events: seq<Event>, k: nat,
      history: seq<KvOperation>)
    requires IsWorldRun(n, decode, ws, events) && k < |ws| && Records(ws[k], history)
    requires forall i :: 0 <= i < |ws[k].invocations| ==> ws[k].invocations[i].outcome.Done?
    ensures ValidTimes(history) && Linearizability.Linearizable(Map, Calls(history), Earlier(history))
  {
    hide IsWorldRun, Linearizability.Linearizable, ValidTimes;
    var h := ClientsSeeOneMap(n, decode, ws, events, k);
    assert history == h;
  }

  /** The checker never calls such a history illegal. */
  lemma NeverIllegal(n: nat, decode: Command -> KvService.Op, ws: seq<World>, events: seq<Event>, k: nat,
      history: seq<KvOperation>, parts: seq<seq<KvOperation>>, keys: seq<string>, job: Verdict.Job,
      run: seq<Verdict.State>, acts: seq<Verdict.Action>, i: nat)
    requires IsWorldRun(n, decode, ws, events) && k < |ws| && Records(ws[k], history)
    requires forall j :: 0 <= j < |ws[k].invocations| ==> ws[k].invocations[j].outcome.Done?
    requires Partitioned(history, parts, keys) && Verdict.Judges(job, parts)
    requires Verdict.IsRun(job, run, acts) && i < |run| && run[i].phase == Verdict.Returned
    ensures Verdict.Verdict(run[i]) != Verdict.Illegal
  {
    hide IsWorldRun, Partitioned, Verdict.IsRun, Linearizability.Linearizable, ValidTimes, Records;
    MeasuredLinearizable(n, decode, ws, events, k, history);
    Verdict.KvVerdict(history, parts, keys, job, run, acts, i);
  }
}
