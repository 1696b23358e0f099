/** How a service recognises a command that a client sends again, by the latest id it has applied for the client. */
module Sessions {

  datatype Stamp = Stamp(clientId: int, commandId: int)

  /** The service has applied a command of the client at least as young. */
  predicate Dup(latestTime: map<int, int>, commandId: int, clientId: int) {
    clientId in latestTime && commandId <= latestTime[clientId]
  }

  /** The latest ids after a log of commands with these stamps. */
  function Latest(stamps: seq<Stamp>): map<int, int> {
    if stamps == [] then map[]
    else
      var latest, s := Latest(stamps[..|stamps| - 1]), stamps[|stamps| - 1];
      if Dup(latest, s.commandId, s.clientId) then latest else latest[s.clientId := s.commandId]
  }

  /** The command at position `k` already appeared before. */
  predicate Repeated(stamps: seq<Stamp>, k: nat)
    requires k < |stamps|
  {
    exists j :: 0 <= j < k && stamps[j] == stamps[k]
  }

  /** The service ignores the command at position `k`. */
  predicate Ignored(stamps: seq<Stamp>, k: nat)
    requires k < |stamps|
  {
    Dup(Latest(stamps[..k]), stamps[k].commandId, stamps[k].clientId)
  }

  predicate Younger(a: Stamp, b: Stamp) {
    a.clientId == b.clientId && a.commandId > b.commandId
  }

  /** A client's command never follows a younger one of the same client, unless as a retry. */
  predicate InClientOrder(stamps: seq<Stamp>) {
    forall j, k :: 0 <= j < k < |stamps| && Younger(stamps[j], stamps[k]) ==> Repeated(stamps, k)
  }

  /** The recorded id of a client is its largest so far. */
  lemma {:induction false} LatestIsLargest(stamps: seq<Stamp>, client: int, id: int)
    ensures Dup(Latest(stamps), id, client) <==>
            exists j :: 0 <= j < |stamps| && stamps[j].clientId == client && id <= stamps[j].commandId
  {
    if stamps != [] {
      var init, s := stamps[..|stamps| - 1], stamps[|stamps| - 1];
      LatestIsLargest(init, client, id);
      LatestIsLargest(init, s.clientId, s.commandId);
      assert forall j :: 0 <= j < |init| ==> init[j] == stamps[j];
    }
  }

  /** Exactly the repetitions are ignored if and only if each client's commands first appear in the order of ids. */
  lemma IgnoresExactlyRepetitions(stamps: seq<Stamp>)
    ensures (forall k :: 0 <= k < |stamps| ==> (Ignored(stamps, k) <==> Repeated(stamps, k))) <==>
            InClientOrder(stamps)
  {
    forall k | 0 <= k < |stamps|
      ensures Ignored(stamps, k) <==>
              exists j :: 0 <= j < k && stamps[j].clientId == stamps[k].clientId
                          && stamps[k].commandId <= stamps[j].commandId
    {
      var pre := stamps[..k];
      LatestIsLargest(pre, stamps[k].clientId, stamps[k].commandId);
      assert forall j :: 0 <= j < k ==> pre[j] == stamps[j];
    }
  }

  lemma InClientOrderPrefix(stamps: seq<Stamp>, k: nat)
    requires InClientOrder(stamps) && k <= |stamps|
    ensures InClientOrder(stamps[..k])
  {
    var pre := stamps[..k];
    forall i, j | 0 <= i < j < |pre| && Younger(pre[i], pre[j])
      ensures Repeated(pre, j)
    {
      assert Repeated(stamps, j);
      var l :| 0 <= l < j && stamps[l] == stamps[j];
      assert pre[l] == pre[j];
    }
  }

  /** The commands that are not repetitions, in order. */
  function Firsts<T>(ops: seq<T>, stamps: seq<Stamp>): seq<T>
    requires |ops| == |stamps|
  {
    if ops == [] then []
    else
      var k := |ops| - 1;
      Firsts(ops[..k], stamps[..k]) + (if Repeated(stamps, k) then [] else [ops[k]])
  }

  lemma FirstsLast<T>(ops: seq<T>, stamps: seq<Stamp>)
    requires |ops| == |stamps| > 0
    ensures var k := |ops| - 1;
      Firsts(ops, stamps) == Firsts(ops[..k], stamps[..k]) + (if Repeated(stamps, k) then [] else [ops[k]])
  {
  }
}
