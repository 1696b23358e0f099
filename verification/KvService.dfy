/** The replicated key-value state machine: duplicate suppression, snapshots and replay. */
module KvService {
  import opened Sessions

  const GET := "Get"
  const PUT := "Put"
  const APPEND := "Append"

  /** A client operation as it is stored in the log; any other task leaves the storage alone. */
  datatype Op = Op(task: string, key: string, value: string, clientId: int, commandId: int, serial: int)

  /** The two maps that a snapshot saves. */
  datatype Kv = Kv(storage: map<string, string>, latestTime: map<int, int>)

  const Empty := Kv(map[], map[])

  /** Snapshot data: it decodes to exactly what was encoded. */
  datatype Data = NoData | Data(kv: Kv)

  function Install(kv: Kv, data: Data): Kv {
    if data.NoData? then kv else data.kv
  }

  /** The effect of an operation on the storage alone. */
  function Effect(storage: map<string, string>, op: Op): map<string, string> {
    if op.task == APPEND then storage[op.key := (if op.key in storage then storage[op.key] else "") + op.value]
    else if op.task == PUT then storage[op.key := op.value]
    else storage
  }

  /** One operation taken from the log. */
  function Apply(kv: Kv, op: Op): Kv {
    if Dup(kv.latestTime, op.commandId, op.clientId) then kv
    else Kv(Effect(kv.storage, op), kv.latestTime[op.clientId := op.commandId])
  }

  /** The state after the operations of a log, from nothing. */
  function Replay(ops: seq<Op>): Kv {
    if ops == [] then Empty else Apply(Replay(ops[..|ops| - 1]), ops[|ops| - 1])
  }

  /** Applying operations in place, as the service's apply loop does. */
  class KVServer {
    var storage: map<string, string>
    var latestTime: map<int, int>

    function State(): Kv
      reads this
    {
      Kv(storage, latestTime)
    }

    constructor (snapshot: Data)
      ensures State() == Install(Empty, snapshot)
    {
      storage, latestTime := map[], map[];
      new;
      InstallSnapshot(snapshot);
    }

    method ApplyCommand(op: Op)
      modifies this
      ensures State() == Apply(old(State()), op)
      ensures forall ops :: old(State()) == Replay(ops) ==> State() == Replay(ops + [op])
    {
      if !Dup(latestTime, op.commandId, op.clientId) {
        if op.task == APPEND {
          storage := storage[op.key := (if op.key in storage then storage[op.key] else "") + op.value];
        } else if op.task == PUT {
          storage := storage[op.key := op.value];
        }
        latestTime := latestTime[op.clientId := op.commandId];
      }
      forall ops | old(State()) == Replay(ops)
        ensures State() == Replay(ops + [op])
      {
        assert (ops + [op])[..|ops|] == ops;
      }
    }

    method InstallSnapshot(data: Data)
      modifies this
      ensures State() == Install(old(State()), data)
    {
      if data.NoData? {
        return;
      }
      storage, latestTime := data.kv.storage, data.kv.latestTime;
    }

    method SaveState() returns (data: Data)
      ensures forall kv :: Install(kv, data) == State()
    {
      data := Data(Kv(storage, latestTime));
    }
  }

  // ---------- When suppressing by the latest id means exactly once

  function StampOf(op: Op): Stamp {
    Stamp(op.clientId, op.commandId)
  }

  function Stamps(ops: seq<Op>): (r: seq<Stamp>)
    ensures |r| == |ops| && forall i :: 0 <= i < |ops| ==> r[i] == StampOf(ops[i])
  {
    seq(|ops|, i requires 0 <= i < |ops| => StampOf(ops[i]))
  }

  lemma {:induction false} ReplayLatest(ops: seq<Op>)
    ensures Replay(ops).latestTime == Latest(Stamps(ops))
  {
    if ops != [] {
      var k := |ops| - 1;
      ReplayLatest(ops[..k]);
      assert Stamps(ops)[..k] == Stamps(ops[..k]);
    }
  }

  /** The service ignores the command at position `k`. */
  predicate Ignored(ops: seq<Op>, k: nat)
    requires k < |ops|
  {
    Dup(Replay(ops[..k]).latestTime, ops[k].commandId, ops[k].clientId)
  }

  /** The recorded id of a client is its largest so far. */
  lemma LatestIsLargest(ops: seq<Op>, client: int, id: int)
    ensures Dup(Replay(ops).latestTime, id, client) <==>
            exists j :: 0 <= j < |ops| && ops[j].clientId == client && id <= ops[j].commandId
  {
    hide Replay, Latest;
    ReplayLatest(ops);
    Sessions.LatestIsLargest(Stamps(ops), client, id);
    assert forall j :: 0 <= j < |ops| ==> Stamps(ops)[j] == StampOf(ops[j]);
    if j :| 0 <= j < |ops| && ops[j].clientId == client && id <= ops[j].commandId {
      assert Stamps(ops)[j].clientId == client && id <= Stamps(ops)[j].commandId;
    }
  }

  /**
   The service ignores exactly the repetitions if and only if each client's commands first appear
   in the order of their ids.
   */
  lemma IgnoresExactlyRepetitions(ops: seq<Op>)
    ensures (forall k :: 0 <= k < |ops| ==> (Ignored(ops, k) <==> Repeated(Stamps(ops), k))) <==>
            InClientOrder(Stamps(ops))
  {
    hide Replay, Latest, InClientOrder, Repeated;
    Sessions.IgnoresExactlyRepetitions(Stamps(ops));
    forall k | 0 <= k < |ops|
      ensures Ignored(ops, k) <==> Sessions.Ignored(Stamps(ops), k)
    {
      ReplayLatest(ops[..k]);
      assert Stamps(ops)[..k] == Stamps(ops[..k]);
    }
  }

  /** Plain execution, without any suppression. */
  function Execute(ops: seq<Op>): map<string, string> {
    if ops == [] then map[] else Effect(Execute(ops[..|ops| - 1]), ops[|ops| - 1])
  }

  /** Each command takes effect exactly once, at its first occurrence, however often it was retried. */
  lemma {:induction false} ExactlyOnce(ops: seq<Op>)
    requires InClientOrder(Stamps(ops))
    ensures Replay(ops).storage == Execute(Firsts(ops, Stamps(ops)))
  {
    if ops != [] {
      hide InClientOrder, Repeated, Firsts, Execute, Effect, Latest, Stamps;
      var k := |ops| - 1;
      StampsPrefix(ops, k);
      InClientOrderPrefix(Stamps(ops), k);
      ExactlyOnce(ops[..k]);
      IgnoresExactlyRepetitions(ops);
      assert Ignored(ops, k) <==> Repeated(Stamps(ops), k);
      FirstsLast(ops, Stamps(ops));
      var f := Firsts(ops[..k], Stamps(ops)[..k]);
      ExecuteOneMore(f, ops[k]);
      assert f + [] == f;
    }
  }

  lemma StampsPrefix(ops: seq<Op>, k: nat)
    requires k <= |ops|
    ensures Stamps(ops)[..k] == Stamps(ops[..k])
  {
  }

  lemma ExecuteOneMore(ops: seq<Op>, op: Op)
    ensures Execute(ops + [op]) == Effect(Execute(ops), op)
  {
    assert (ops + [op])[..|ops|] == ops;
  }

  /** Without that order a command can be lost: the younger one makes the service ignore it for good. */
  lemma LostWithoutOrder()
    ensures var a, b := Op(PUT, "x", "1", 7, 0, 3), Op(PUT, "y", "2", 7, 1, 4);
      && !InClientOrder(Stamps([b, a])) && "x" !in Replay([b, a]).storage
      && "x" in Execute(Firsts([b, a], Stamps([b, a])))
  {
    var a, b := Op(PUT, "x", "1", 7, 0, 3), Op(PUT, "y", "2", 7, 1, 4);
    var ops, stamps := [b, a], Stamps([b, a]);
    assert ops[..1] == [b] && ops[..1][..0] == [];
    assert Replay([b]) == Apply(Empty, b) by { assert [b][..0] == []; }
    assert stamps[0] != stamps[1];
    hide Replay, Apply;
    NeitherRepeated(b, a);
    assert Execute([b, a]) == Effect(Execute([b]), a);
  }

  lemma NeitherRepeated(b: Op, a: Op)
    requires StampOf(b) != StampOf(a)
    ensures Firsts([b, a], Stamps([b, a])) == [b, a]
  {
    var ops, stamps := [b, a], Stamps([b, a]);
    assert ops[..1] == [b] && stamps[..1] == Stamps([b]);
    assert !Repeated(stamps, 1);
    assert !Repeated(Stamps([b]), 0);
    assert Firsts([b], Stamps([b])) == [b] by { assert [b][..0] == []; }
  }
}
