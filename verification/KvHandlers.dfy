/**
 What the handlers of the key-value service do for a client.  At every moment of every run, a request that a client has
 issued can be taken up by any server that serves, and a command that a service receives ends the wait of its handler
 and of its client.
 */
module KvHandlers {
  import opened RaftTypes
  import opened Cluster
  import opened RaftSafety
  import opened RaftHandlers
  import opened KvReplicas
  import opened KvService
  import opened Sessions
  import opened KvClients

  /** The world after server `v` has started on a command. */
  function Proposed(decode: Command -> Op, w: World, v: nat, command: Command): World
    requires |w.run| > 0 && |w.services| > 0 && v < |Last(w).kvs|
    requires Ready(Now(w), ClientCommand(v, command)) && Safe(Now(w).servers[v], ClientCommand(v, command))
  {
    var st := ClientCommand(v, command);
    w.(run := w.run + [Next(Now(w), st)], steps := w.steps + [st],
       services := w.services + [KvReplicas.Follow(decode, Now(w), st, Last(w))], clock := w.clock + 1)
  }

  lemma ProposeMoves(n: nat, decode: Command -> Op, w: World, v: nat, command: Command)
    requires Serves(n, decode, w.run, w.steps, w.services) && Serving(w, v) && decode(command) in w.waiting[v]
    ensures Ready(Now(w), ClientCommand(v, command)) && Safe(Now(w).servers[v], ClientCommand(v, command))
    ensures Moves(decode, w, KvClients.Propose(v, command), Proposed(decode, w, v, command))
  {
    assert IsRun(n, w.run, w.steps);
    hide IsRun, Serves, Safe, Next;
    NoPanic(n, w.run, w.steps, ClientCommand(v, command));
  }

  /** What a leader appends for the handler. */
  lemma ProposeAppends(n: nat, decode: Command -> Op, w: World, v: nat, command: Command, w': World)
    requires Serves(n, decode, w.run, w.steps, w.services) && v < |Now(w).servers|
    requires Moves(decode, w, KvClients.Propose(v, command), w')
    ensures v < |Now(w').servers| && StartRule(Now(w).servers[v], command, Now(w').servers[v])
  {
    var st := ClientCommand(v, command);
    assert Runs(decode, w, st, w');
    hide StartRule, Moves;
    RunsServes(n, decode, w, st, w');
    assert IsRun(n, w'.run, w'.steps);
    StepsSize(n, decode, w);
    hide Serves, IsRun;
    var k := |w.run| - 1;
    assert w'.run[k] == Now(w) && w'.run[k + 1] == Now(w') && w'.steps[k] == st;
    CommandTaken(n, w'.run, w'.steps, k);
  }

  /** The reply to a request that was executed before. */
  function Again(w: World, v: nat, r: Request): Reply
    requires Serving(w, v)
  {
    Reply(r, Read(KvAt(w, v), r.key), PrefixAt(w, v))
  }

  /**
   A server that serves takes up any request a client has issued.  If the request was executed before, it is answered
   at once.  Otherwise a handler registers it under a serial number not used so far, and a leader appends the command
   that carries it behind its log.
   */
  lemma RequestTaken(n: nat, decode: Command -> Op, ws: seq<World>, events: seq<Event>, v: nat, op: Op,
      command: Command)
    returns (w1: World, w2: World)
    requires IsWorldRun(n, decode, ws, events) && decode(command) == op
    requires Serving(ws[|events|], v) && Requested(ws[|events|], RequestOf(op))
    requires forall o :: o in ws[|events|].used ==> o.serial != op.serial
    ensures var w := ws[|events|];
      if Dup(KvAt(w, v).latestTime, op.commandId, op.clientId) then
        Moves(decode, w, AnswerRepeated(v, RequestOf(op)), w1) && Again(w, v, RequestOf(op)) in w1.replies && w2 == w1
      else
        && Moves(decode, w, KvClients.Register(v, op), w1) && Moves(decode, w1, KvClients.Propose(v, command), w2)
        && |w2.run| > 0 && v < |Now(w2).servers| && StartRule(Now(w).servers[v], command, Now(w2).servers[v])
        && v < |w2.waiting| && op in w2.waiting[v]
  {
    var w := ws[|events|];
    WorldsOk(n, decode, ws, events, |events|);
    hide IsWorldRun, StartRule, WorldOk;
    if Dup(KvAt(w, v).latestTime, op.commandId, op.clientId) {
      w1 := w.(clock := w.clock + 1, replies := w.replies + {Again(w, v, RequestOf(op))});
      w2 := w1;
    } else {
      w1 := w.(clock := w.clock + 1, used := w.used + {op}, waiting := w.waiting[v := w.waiting[v] + {op}]);
      assert Moves(decode, w, KvClients.Register(v, op), w1);
      StepKeepsWorld(n, decode, w, KvClients.Register(v, op), w1);
      WorldServes(n, decode, w1);
      ProposeMoves(n, decode, w1, v, command);
      w2 := Proposed(decode, w1, v, command);
      ProposeAppends(n, decode, w1, v, command, w2);
    }
  }

  lemma WorldServes(n: nat, decode: Command -> Op, w: World)
    requires WorldOk(n, decode, w)
    ensures Serves(n, decode, w.run, w.steps, w.services)
  {
  }

  /**
   When a service receives the command a handler waits for, the handler can answer, and the client, if it still waits,
   can take the answer.  A read answers what the commands up to this one leave.
   */
  lemma ReceivedIsAnswered(n: nat, decode: Command -> Op, ws: seq<World>, events: seq<Event>, k: nat, op: Op, i: nat)
    returns (w1: World, w2: World)
    requires IsWorldRun(n, decode, ws, events) && k < |events| && events[k].Inside? && events[k].st.ServiceReceive?
    requires var w, v := ws[k], events[k].st.v;
      && |w.run| > 0 && v < |Now(w).servers| && v < |w.waiting| && op in w.waiting[v]
      && var channel := Now(w).servers[v].service.channel;
         |channel| > 0 && channel[0].CommandMsg? && decode(channel[0].entry.command) == op
    requires i < |ws[k].invocations| && ws[k].invocations[i].outcome.Pending?
    requires ws[k].invocations[i].request == RequestOf(op)
    ensures var w, v := ws[k + 1], events[k].st.v;
      && Serving(w, v) && Moves(decode, w, KvClients.Answer(v, op), w1)
      && i < |w2.invocations| && w2.invocations[i].outcome.Done?
      && var x := w2.invocations[i].outcome;
         && Moves(decode, w1, KvClients.Return(i, Reply(RequestOf(op), x.value, x.prefix)), w2)
         && x.prefix == PrefixAt(w, v) && Occurs(decode, x.prefix, RequestOf(op))
         && x.value == if op.task == GET then Read(KvOf(decode, x.prefix), op.key) else ""
  {
    var w, w', st := ws[k], ws[k + 1], events[k].st;
    var v := st.v;
    assert Moves(decode, w, events[k], w');
    WorldsOk(n, decode, ws, events, k);
    WorldsOk(n, decode, ws, events, k + 1);
    hide IsWorldRun, WorldOk, KvOf, Moves, Serving, Occurs;
    Wakes(n, decode, w, st, w', op);
    var reply: Reply;
    w1, reply := CanAnswer(decode, w', v, op);
    w2 := CanReturn(decode, w1, i, reply);
  }

  lemma CanAnswer(decode: Command -> Op, w: World, v: nat, op: Op) returns (w': World, reply: Reply)
    requires Serving(w, v) && op in w.woken[v]
    ensures Moves(decode, w, KvClients.Answer(v, op), w') && w'.invocations == w.invocations && reply in w'.replies
    ensures reply.request == RequestOf(op) && reply.prefix == PrefixAt(w, v)
    ensures reply.value == if op.task == GET then Read(KvAt(w, v), op.key) else ""
  {
    var value := if op.task == GET then Read(KvAt(w, v), op.key) else "";
    reply := Reply(RequestOf(op), value, PrefixAt(w, v));
    w' := w.(clock := w.clock + 1, replies := w.replies + {reply});
  }

  lemma CanReturn(decode: Command -> Op, w: World, i: nat, reply: Reply) returns (w': World)
    requires reply in w.replies
    requires i < |w.invocations| && w.invocations[i].request == reply.request && w.invocations[i].outcome.Pending?
    ensures Moves(decode, w, KvClients.Return(i, reply), w') && |w'.invocations| == |w.invocations|
    ensures w'.invocations[i].outcome == Done(w.clock, reply.value, reply.prefix)
  {
    w' := w.(clock := w.clock + 1,
             invocations := w.invocations[i :=
               w.invocations[i].(outcome := Done(w.clock, reply.value, reply.prefix))]);
  }

  lemma Wakes(n: nat, decode: Command -> Op, w: World, st: Step, w': World, op: Op)
    requires WorldOk(n, decode, w) && WorldOk(n, decode, w') && Moves(decode, w, Inside(st), w') && st.ServiceReceive?
    requires |w.run| > 0 && st.v < |Now(w).servers| && st.v < |w.waiting| && op in w.waiting[st.v]
    requires var channel := Now(w).servers[st.v].service.channel;
      |channel| > 0 && channel[0].CommandMsg? && decode(channel[0].entry.command) == op
    ensures Serving(w', st.v) && op in w'.woken[st.v] && w'.invocations == w.invocations
    ensures KvAt(w', st.v) == KvOf(decode, PrefixAt(w', st.v)) && Occurs(decode, PrefixAt(w', st.v), RequestOf(op))
  {
    InsideIs(decode, w, st, w');
    InsideFacts(decode, w, st, w');
    ReceiptNow(n, decode, w, st, w');
    SizeNow(n, decode, w');
    NowIs(n, decode, w', st.v);
    hide Moves, Serves, Registered, SessionsOk, RepliesOk, OutcomesOk, KvOf, HandlerOk, Runs, InOrder;
    var s, s' := Now(w).servers[st.v].service, Now(w').servers[st.v].service;
    EntryThere(s, s');
    assert Occurs(decode, s'.applied, RequestOf(op));
    assert Serving(w', st.v) by { assert |w'.services| == |w'.run|; }
    ServedNow(n, decode, w', st.v);
  }
}
