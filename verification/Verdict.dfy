/** How the answers for the parts of a history become one verdict, whatever the order they come in. */
module Verdict {
  import opened Linearizability
  import opened EntryList
  import opened SearchSpace
  import opened SearchCoverage
  import opened Timestamps
  import opened Checker
  import opened KvModel
  import FiniteSets
  import Locality

  // ---------- One part

  lemma SameOrderSamePartial<S, I, O>(m: Model<S, I, O>, ops: seq<Call<I, O>>, one: Before, two: Before, xs: seq<nat>)
    requires Partial(m, ops, one, xs) && forall a: nat, b: nat :: one(a, b) <==> two(a, b)
    ensures Partial(m, ops, two, xs)
  {
    forall k | 0 <= k < |xs|
      ensures xs[k] < |ops| && xs[k] !in xs[..k] && Minimal(two, |ops|, Ids(xs[..k]), xs[k])
    {
      assert Minimal(one, |ops|, Ids(xs[..k]), xs[k]);
    }
  }

  lemma SameOrderSameLongest<S, I, O>(m: Model<S, I, O>, ops: seq<Call<I, O>>, one: Before, two: Before,
      longest: Longest)
    requires LongestKept(m, ops, one, longest) && forall a: nat, b: nat :: one(a, b) <==> two(a, b)
    ensures LongestKept(m, ops, two, longest)
  {
    hide Partial;
    forall xs, x | Partial(m, ops, two, xs) && x in xs
      ensures x < |longest| && longest[x].Some? && |xs| <= |longest[x].value|
    {
      SameOrderSamePartial(m, ops, two, one, xs);
    }
  }

  /** Check one part: sort its entries by time, and search. `kill(k)` is what the `k`-th look at the kill flag sees. */
  method CheckPart<S(==, !new), I(!new), O(!new)>(model: Model<S, I, O>, part: seq<Operation<I, O>>,
      computePartial: bool, kill: nat -> bool)
    returns (ok: bool, longest: Longest, ghost looks: nat)
    requires ValidTimes(part)
    ensures Answers(Linearizable(model, Calls(part), Earlier(part)), Seen(kill, looks), ok)
    ensures |longest| == |part|
    ensures forall i :: 0 <= i < |part| && longest[i].Some? ==>
      i in longest[i].value && Partial(model, Calls(part), Earlier(part), longest[i].value)
    ensures ok || (computePartial && looks > 0 && !kill(looks - 1)) ==>
      LongestKept(model, Calls(part), Earlier(part), longest)
  {
    hide LongestKept, Paired, Linearizable, Partial, SortOf, Calls, Earlier, Ops, Precedes;
    var timed := MakeEntries(part);
    ghost var h := Placement(timed, part);
    PlacedByTime(timed, part);
    EventsMeanTimes(model, timed, part);
    ok, longest, looks := CheckSingle(model, Entries(timed), computePartial, kill, h);
    forall i | 0 <= i < |part| && longest[i].Some?
      ensures Partial(model, Calls(part), Earlier(part), longest[i].value)
    {
      SameOrderSamePartial(model, Calls(part), Precedes(h), Earlier(part), longest[i].value);
    }
    if ok || (computePartial && looks > 0 && !kill(looks - 1)) {
      SameOrderSameLongest(model, Calls(part), Precedes(h), Earlier(part), longest);
    }
  }

  // ---------- All parts, checked side by side

  datatype CheckResult = Unknown | Ok | Illegal

  /** `linear(i)`: part `i` is linearizable. */
  datatype Job = Job(parts: nat, linear: nat -> bool, computeInfo: bool, timeout: bool)

  datatype Answer = Answer(part: nat, ok: bool)

  datatype Phase = Collecting | Draining | Returned

  /**
   The collector and the searches.  `seen` holds what each search has seen of the kill flag so far; which part an
   answer is for is recorded, not looked at.
   */
  datatype State = State(
    kill: bool,
    seen: map<nat, seq<bool>>,
    finished: set<nat>,
    results: seq<Answer>,
    received: map<nat, bool>,
    count: nat,
    ok: bool,
    timedOut: bool,
    phase: Phase)

  datatype Action = Look(part: nat) | Finish(part: nat, answer: bool) | Receive | TimeOut | Drain | Return

  predicate Init(s: State) {
    s == State(false, map[], {}, [], map[], 0, true, false, Collecting)
  }

  function SeenBy(s: State, i: nat): seq<bool> {
    if i in s.seen then s.seen[i] else []
  }

  function Leave(job: Job): Phase {
    if job.computeInfo then Draining else Returned
  }

  function Take(s: State): State
    requires s.results != []
  {
    s.(results := s.results[1..], count := s.count + 1, received := s.received[s.results[0].part := s.results[0].ok])
  }

  predicate Next(job: Job, s: State, a: Action, s': State) {
    match a
    case Look(i) =>
      i < job.parts && i !in s.finished && s' == s.(seen := s.seen[i := SeenBy(s, i) + [s.kill]])
    case Finish(i, answer) =>
      && i < job.parts && i !in s.finished && Answers(job.linear(i), SeenBy(s, i), answer)
      && s' == s.(finished := s.finished + {i}, results := s.results + [Answer(i, answer)])
    case Receive =>
      && s.phase == Collecting && s.results != []
      && var t := Take(s).(ok := s.ok && s.results[0].ok);
         s' == if !t.ok && !job.computeInfo then t.(kill := true, phase := Leave(job))
               else if t.count >= job.parts then t.(phase := Leave(job))
               else t
    case TimeOut =>
      s.phase == Collecting && job.timeout && s' == s.(timedOut := true, kill := true, phase := Leave(job))
    case Drain =>
      s.phase == Draining && s.count < job.parts && s.results != [] && s' == Take(s)
    case Return =>
      s.phase == Draining && s.count >= job.parts && s' == s.(phase := Returned)
  }

  ghost predicate IsRun(job: Job, run: seq<State>, acts: seq<Action>) {
    && |run| == |acts| + 1
    && Init(run[0])
    && forall i :: 0 <= i < |acts| ==> Next(job, run[i], acts[i], run[i + 1])
  }

  function Verdict(s: State): CheckResult {
    if !s.ok then Illegal else if s.timedOut then Unknown else Ok
  }

  ghost predicate AllLinear(job: Job) {
    forall i: nat :: i < job.parts ==> job.linear(i)
  }

  // ---------- What every step keeps

  /** Each search answers once, and each answer is received at most once. */
  ghost predicate Once(job: Job, s: State) {
    && s.received.Keys <= s.finished && s.count == |s.received|
    && (forall i :: i in s.finished ==> i < job.parts)
    && (forall j :: 0 <= j < |s.results| ==> s.results[j].part in s.finished && s.results[j].part !in s.received)
    && (forall j, k :: 0 <= j < k < |s.results| ==> s.results[j].part != s.results[k].part)
  }

  /** Until the kill flag is set nobody has seen it set, and every answer is the truth. */
  ghost predicate Truthful(job: Job, s: State) {
    s.phase == Collecting ==>
      && (forall i, k :: i in s.seen && 0 <= k < |s.seen[i]| ==> !s.seen[i][k])
      && !s.kill && !s.timedOut
      && (forall j :: 0 <= j < |s.results| ==> (s.results[j].ok <==> job.linear(s.results[j].part)))
      && (forall i :: i in s.received ==> (s.received[i] <==> job.linear(i)))
      && (s.ok <==> forall i :: i in s.received ==> s.received[i])
  }

  ghost predicate Decided(job: Job, s: State) {
    && (!s.ok ==> !AllLinear(job))
    && (s.phase != Collecting && s.ok && !s.timedOut ==> AllLinear(job))
    && (s.timedOut ==> job.timeout)
    && (s.phase == Returned && job.computeInfo ==> s.count >= job.parts)
  }

  ghost predicate Inv(job: Job, s: State) {
    Once(job, s) && Truthful(job, s) && Decided(job, s)
  }

  /** As many answers as parts are the answers for all parts. */
  lemma AllReceived(job: Job, s: State)
    requires Once(job, s) && s.count >= job.parts
    ensures forall i: nat :: i < job.parts ==> i in s.received && i in s.finished
  {
    var all := FiniteSets.Below(job.parts);
    assert s.received.Keys <= all;
    assert all == s.received.Keys + (all - s.received.Keys);
  }

  lemma TakeOnce(job: Job, s: State)
    requires Once(job, s) && s.results != []
    ensures Once(job, Take(s))
  {
    var t := Take(s);
    assert t.received.Keys == s.received.Keys + {s.results[0].part};
    assert forall j :: 0 <= j < |t.results| ==> t.results[j] == s.results[j + 1];
  }

  lemma ReceiveKeeps(job: Job, s: State, s': State)
    requires Inv(job, s) && Next(job, s, Receive, s')
    ensures Inv(job, s')
  {
    TakeOnce(job, s);
    TakeTruthful(job, s);
    var t := Take(s).(ok := s.ok && s.results[0].ok);
    assert Once(job, t);
    if !t.ok {
      var i :| i in t.received && !t.received[i];
      assert i < job.parts && !job.linear(i);
    } else if t.count >= job.parts {
      AllReceived(job, t);
    }
  }

  lemma TakeTruthful(job: Job, s: State)
    requires Once(job, s) && Truthful(job, s) && s.phase == Collecting && s.results != []
    ensures Truthful(job, Take(s).(ok := s.ok && s.results[0].ok))
  {
    var first := s.results[0];
    var t := Take(s).(ok := s.ok && first.ok);
    assert forall j :: 0 <= j < |t.results| ==> t.results[j] == s.results[j + 1];
    assert first.part in t.received && t.received[first.part] == first.ok;
    assert forall i :: i in s.received ==> i in t.received && t.received[i] == s.received[i];
    assert forall i :: i in t.received ==> i == first.part || i in s.received;
  }

  lemma StepKeeps(job: Job, s: State, a: Action, s': State)
    requires Inv(job, s) && Next(job, s, a, s')
    ensures Inv(job, s')
  {
    match a {
      case Look(i) => LookKeeps(job, s, i, s');
      case Finish(i, answer) => FinishKeeps(job, s, i, answer, s');
      case Receive => ReceiveKeeps(job, s, s');
      case Drain => TakeOnce(job, s);
      case _ =>
    }
  }

  lemma LookKeeps(job: Job, s: State, i: nat, s': State)
    requires Inv(job, s) && Next(job, s, Look(i), s')
    ensures Inv(job, s')
  {
  }

  lemma FinishKeeps(job: Job, s: State, i: nat, answer: bool, s': State)
    requires Inv(job, s) && Next(job, s, Finish(i, answer), s')
    ensures Inv(job, s')
  {
  }

  lemma {:induction false} RunKeeps(job: Job, run: seq<State>, acts: seq<Action>, i: nat)
    requires IsRun(job, run, acts) && i < |run|
    ensures Inv(job, run[i])
  {
    if i > 0 {
      RunKeeps(job, run, acts, i - 1);
      StepKeeps(job, run[i - 1], acts[i - 1], run[i]);
    }
  }

  /** Whatever the order of answers and however a timeout falls, the verdict tells the truth. */
  lemma VerdictIsTrue(job: Job, run: seq<State>, acts: seq<Action>, i: nat)
    requires IsRun(job, run, acts) && i < |run| && run[i].phase == Returned
    ensures Verdict(run[i]) == Ok ==> AllLinear(job)
    ensures Verdict(run[i]) == Illegal ==> !AllLinear(job)
    ensures Verdict(run[i]) == Unknown ==> job.timeout
    ensures !job.timeout ==> (Verdict(run[i]) == Ok <==> AllLinear(job))
    ensures job.computeInfo ==> forall p: nat :: p < job.parts ==> p in run[i].finished
  {
    RunKeeps(job, run, acts, i);
    if job.computeInfo {
      AllReceived(job, run[i]);
    }
  }

  // ---------- Exactly which verdict

  /** The answers that the collector took with the first `i` actions, before it stopped collecting. */
  ghost function Taken(run: seq<State>, acts: seq<Action>, i: nat): set<Answer>
    requires i <= |acts| && i < |run|
  {
    if i == 0 then {}
    else
      var s := run[i - 1];
      Taken(run, acts, i - 1) + if acts[i - 1].Receive? && s.results != [] then {s.results[0]} else {}
  }

  ghost predicate TookFalse(run: seq<State>, acts: seq<Action>, i: nat)
    requires i <= |acts| && i < |run|
  {
    exists a :: a in Taken(run, acts, i) && !a.ok
  }

  /** What the collector remembers of the answers it took and of the timeout. */
  ghost predicate Remembers(job: Job, s: State, taken: set<Answer>, late: bool) {
    && (s.ok <==> forall a :: a in taken ==> a.ok)
    && (s.timedOut <==> late)
    && (forall a :: a in taken ==> a.part < job.parts && a.part in s.received && s.received[a.part] == a.ok)
    && (s.phase == Collecting || (s.ok && !s.timedOut) ==>
          forall p :: p in s.received ==> Answer(p, s.received[p]) in taken)
    && (s.phase == Collecting ==> !s.timedOut && (s.ok || job.computeInfo))
    && (s.phase != Collecting && s.ok && !s.timedOut ==> s.count >= job.parts)
    && (s.kill <==> s.timedOut || (!s.ok && !job.computeInfo))
  }

  lemma StepRemembers(job: Job, s: State, a: Action, s': State, taken: set<Answer>, late: bool)
    requires Next(job, s, a, s') && Once(job, s) && Remembers(job, s, taken, late)
    ensures Remembers(job, s', taken + (if a.Receive? && s.results != [] then {s.results[0]} else {}),
      late || a.TimeOut?)
  {
    hide Remembers, Once, Answers;
    if a.Receive? {
      ReceiveRemembers(job, s, s', taken, late);
    } else {
      assert taken + {} == taken;
      if a.Drain? {
        DrainRemembers(job, s, s', taken, late);
      } else {
        QuietRemembers(job, s, a, s', taken, late);
      }
    }
  }

  lemma QuietRemembers(job: Job, s: State, a: Action, s': State, taken: set<Answer>, late: bool)
    requires Next(job, s, a, s') && !a.Receive? && !a.Drain? && Once(job, s) && Remembers(job, s, taken, late)
    ensures Remembers(job, s', taken, late || a.TimeOut?)
  {
    hide Once, Answers;
  }

  lemma DrainRemembers(job: Job, s: State, s': State, taken: set<Answer>, late: bool)
    requires Next(job, s, Drain, s') && Once(job, s) && Remembers(job, s, taken, late)
    ensures Remembers(job, s', taken, late)
  {
    var first := s.results[0];
    assert s'.received == s.received[first.part := first.ok] && first.part !in s.received;
  }

  lemma ReceiveRemembers(job: Job, s: State, s': State, taken: set<Answer>, late: bool)
    requires Next(job, s, Receive, s') && Once(job, s) && Remembers(job, s, taken, late)
    ensures Remembers(job, s', taken + {s.results[0]}, late)
  {
    var first := s.results[0];
    var taken' := taken + {first};
    assert first == Answer(first.part, first.ok);
    assert s'.received == s.received[first.part := first.ok] && first.part !in s.received && first.part < job.parts;
    assert s'.ok == (s.ok && first.ok);
    forall a | a in taken'
      ensures a.part < job.parts && a.part in s'.received && s'.received[a.part] == a.ok
    {
    }
    forall p | p in s'.received
      ensures Answer(p, s'.received[p]) in taken'
    {
    }
  }

  lemma {:induction false} RunRemembers(job: Job, run: seq<State>, acts: seq<Action>, i: nat)
    requires IsRun(job, run, acts) && i < |run|
    ensures Remembers(job, run[i], Taken(run, acts, i), TimeOut in acts[..i])
  {
    hide IsRun, Remembers, Truthful, Decided, Next, Once;
    RunSizes(job, run, acts);
    if i == 0 {
      assert acts[..0] == [];
    } else {
      RunRemembers(job, run, acts, i - 1);
      RunKeeps(job, run, acts, i - 1);
      NextAt(job, run, acts, i - 1);
      assert acts[..i] == acts[..i - 1] + [acts[i - 1]];
      StepRemembers(job, run[i - 1], acts[i - 1], run[i], Taken(run, acts, i - 1), TimeOut in acts[..i - 1]);
    }
  }

  lemma RunSizes(job: Job, run: seq<State>, acts: seq<Action>)
    requires IsRun(job, run, acts)
    ensures |run| == |acts| + 1 && Remembers(job, run[0], {}, false)
  {
  }

  lemma NextAt(job: Job, run: seq<State>, acts: seq<Action>, i: nat)
    requires IsRun(job, run, acts) && i < |acts|
    ensures |run| == |acts| + 1 && Next(job, run[i], acts[i], run[i + 1])
  {
  }

  /**
   The verdict of a run that has returned, in terms of what happened: Illegal if and only if a false answer was taken,
   Unknown if and only if the time ran out and none was, and Ok if and only if true answers were taken for all parts
   and the time did not run out.  The searches were told to stop exactly if the time ran out, or a false answer was
   taken and nobody asked for more information.
   */
  lemma VerdictExactly(job: Job, run: seq<State>, acts: seq<Action>, i: nat)
    requires IsRun(job, run, acts) && i < |run| && run[i].phase == Returned
    ensures Verdict(run[i]) == Illegal <==> TookFalse(run, acts, i)
    ensures Verdict(run[i]) == Unknown <==> TimeOut in acts[..i] && !TookFalse(run, acts, i)
    ensures Verdict(run[i]) == Ok <==>
            TimeOut !in acts[..i] && forall p: nat :: p < job.parts ==> Answer(p, true) in Taken(run, acts, i)
    ensures run[i].kill <==> TimeOut in acts[..i] || (!job.computeInfo && TookFalse(run, acts, i))
  {
    RunRemembers(job, run, acts, i);
    RunKeeps(job, run, acts, i);
    hide IsRun, Taken, Once, Truthful, Decided, Remembers;
    VerdictOf(job, run[i], Taken(run, acts, i), TimeOut in acts[..i]);
  }

  lemma VerdictOf(job: Job, s: State, taken: set<Answer>, late: bool)
    requires Once(job, s) && Remembers(job, s, taken, late) && s.phase == Returned
    ensures Verdict(s) == Illegal <==> exists a :: a in taken && !a.ok
    ensures Verdict(s) == Unknown <==> late && forall a :: a in taken ==> a.ok
    ensures Verdict(s) == Ok <==> !late && forall p: nat :: p < job.parts ==> Answer(p, true) in taken
    ensures s.kill <==> late || (!job.computeInfo && exists a :: a in taken && !a.ok)
  {
    if s.ok && !s.timedOut {
      AllTaken(job, s, taken, late);
    } else if !s.ok {
      NotAllTrue(job, s, taken, late);
    }
  }

  lemma AllTaken(job: Job, s: State, taken: set<Answer>, late: bool)
    requires Once(job, s) && Remembers(job, s, taken, late) && s.phase == Returned && s.ok && !s.timedOut
    ensures forall p: nat :: p < job.parts ==> Answer(p, true) in taken
  {
    AllReceived(job, s);
    forall p: nat | p < job.parts
      ensures Answer(p, true) in taken
    {
      assert p in s.received;
      assert Answer(p, s.received[p]) in taken;
      assert Answer(p, s.received[p]).ok;
    }
  }

  lemma NotAllTrue(job: Job, s: State, taken: set<Answer>, late: bool)
    requires Remembers(job, s, taken, late) && !s.ok
    ensures exists p: nat :: p < job.parts && Answer(p, true) !in taken
  {
    var a :| a in taken && !a.ok;
    assert !s.received[a.part] && Answer(a.part, true).ok;
    assert Answer(a.part, true) !in taken;
  }

  /** The job is to check these parts of a key-value history. */
  ghost predicate Judges(job: Job, parts: seq<seq<KvOperation>>) {
    && job.parts == |parts|
    && forall p: nat :: p < |parts| ==>
         (job.linear(p) <==> Linearizable(Locality.OneKey(Kv), Calls(parts[p]), Earlier(parts[p])))
  }

  /** For a key-value history, the verdict on its parts is the verdict on the whole map. */
  lemma KvVerdict(history: seq<KvOperation>, parts: seq<seq<KvOperation>>, keys: seq<string>, job: Job, run: seq<State>,
      acts: seq<Action>, i: nat)
    requires ValidTimes(history) && Partitioned(history, parts, keys) && Judges(job, parts)
    requires IsRun(job, run, acts) && i < |run| && run[i].phase == Returned
    ensures Verdict(run[i]) == Ok ==> Linearizable(Locality.WholeMap(Kv), Calls(history), Earlier(history))
    ensures Verdict(run[i]) == Illegal ==> !Linearizable(Locality.WholeMap(Kv), Calls(history), Earlier(history))
    ensures Verdict(run[i]) == Unknown ==> job.timeout
  {
    hide Linearizable, Partitioned, ValidTimes, Inv, IsRun;
    PartsAnswer(history, parts, keys);
    VerdictIsTrue(job, run, acts, i);
  }
}
