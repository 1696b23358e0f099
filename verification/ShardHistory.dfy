/** The shard controller: a history of configurations driven by the commands of a log. */
module ShardHistory {
  import opened Rebalance
  import opened ShardConfig
  import opened Sessions

  /** One configuration as a value. */
  datatype Cfg = Cfg(num: nat, shards: seq<int>, groups: map<int, seq<string>>)

  datatype OpType = QUERY | JOIN | LEAVE | MOVE

  datatype Op = Op(kind: OpType, servers: map<int, seq<string>>, gids: seq<int>, shard: int, clientId: int,
      commandId: int)

  datatype Ctrl = Ctrl(configs: seq<Cfg>, latestTime: map<int, int>)

  /** Nobody joins the invalid group, and a move names a shard and a group. */
  predicate Proper(n: nat, op: Op) {
    && (op.kind.JOIN? ==> 0 !in op.servers)
    && (op.kind.MOVE? ==> 0 <= op.shard < n && |op.gids| > 0)
  }

  predicate AllProper(n: nat, ops: seq<Op>) {
    forall i :: 0 <= i < |ops| ==> Proper(n, ops[i])
  }

  function GidSet(gids: seq<int>): set<int> {
    set g | g in gids
  }

  /** The configuration a command makes of the latest one. */
  ghost function Successor(cfg: Cfg, op: Op): Cfg
    requires Proper(|cfg.shards|, op) && !op.kind.QUERY?
  {
    match op.kind
    case JOIN =>
      var groups := cfg.groups + op.servers;
      Cfg(cfg.num + 1, Reallocated(cfg.shards, groups.Keys), groups)
    case LEAVE =>
      var groups := cfg.groups - GidSet(op.gids);
      Cfg(cfg.num + 1, Reallocated(cfg.shards, groups.Keys), groups)
    case MOVE => Cfg(cfg.num + 1, cfg.shards[op.shard := op.gids[0]], cfg.groups)
  }

  ghost predicate Started(n: nat, c: Ctrl) {
    |c.configs| > 0 && forall i :: 0 <= i < |c.configs| ==> |c.configs[i].shards| == n
  }

  /** One command taken from the log. */
  ghost function Apply(n: nat, c: Ctrl, op: Op): (r: Ctrl)
    requires Started(n, c) && Proper(n, op)
    ensures Started(n, r)
  {
    if Dup(c.latestTime, op.commandId, op.clientId) then c
    else
      Ctrl(if op.kind.QUERY? then c.configs else c.configs + [Successor(c.configs[|c.configs| - 1], op)],
           c.latestTime[op.clientId := op.commandId])
  }

  ghost function Initial(n: nat): Ctrl {
    Ctrl([Cfg(0, seq(n, _ => 0), map[])], map[])
  }

  /** The controller after the commands of a log: a function of the log, so that replicas agree. */
  ghost function Replay(n: nat, ops: seq<Op>): (c: Ctrl)
    requires AllProper(n, ops)
    ensures Started(n, c)
  {
    if ops == [] then Initial(n) else Apply(n, Replay(n, ops[..|ops| - 1]), ops[|ops| - 1])
  }

  // ---------- What the history is like

  /** Configurations are numbered by their place, and no group is the invalid one. */
  ghost predicate WellNumbered(c: Ctrl) {
    forall i :: 0 <= i < |c.configs| ==> c.configs[i].num == i && 0 !in c.configs[i].groups
  }

  lemma {:induction false} NumberedHistory(n: nat, ops: seq<Op>)
    requires AllProper(n, ops)
    ensures WellNumbered(Replay(n, ops))
  {
    hide Reallocated;
    if ops != [] {
      NumberedHistory(n, ops[..|ops| - 1]);
    }
  }

  /** Configurations are never changed or taken back. */
  lemma {:induction false} HistoryGrows(n: nat, ops: seq<Op>, k: nat)
    requires k <= |ops| && AllProper(n, ops)
    ensures Replay(n, ops[..k]).configs <= Replay(n, ops).configs
  {
    hide Successor;
    if k < |ops| {
      var front := ops[..|ops| - 1];
      HistoryGrows(n, front, k);
      assert front[..k] == ops[..k];
    } else {
      assert ops[..k] == ops;
    }
  }

  /** The groups are even, and every shard belongs to one of them if there is any. */
  ghost predicate Settled(cfg: Cfg) {
    && IsEven(cfg.shards, cfg.groups.Keys)
    && forall s :: 0 <= s < |cfg.shards| ==>
      if cfg.groups == map[] then cfg.shards[s] == 0 else cfg.shards[s] in cfg.groups
  }

  /** A join or a leave settles the configuration, whatever moves came before. */
  lemma SuccessorSettled(cfg: Cfg, op: Op)
    requires Proper(|cfg.shards|, op) && (op.kind.JOIN? || op.kind.LEAVE?)
    ensures Settled(Successor(cfg, op))
  {
    hide Reallocated, IsEven;
    ReallocatedIsBalanced(cfg.shards, Successor(cfg, op).groups.Keys);
    assert Successor(cfg, op).groups == map[] <==> Successor(cfg, op).groups.Keys == {};
  }

  /** Without moves, every configuration that ever was is settled. */
  lemma {:induction false} AlwaysSettled(n: nat, ops: seq<Op>)
    requires forall i :: 0 <= i < |ops| ==> Proper(n, ops[i]) && !ops[i].kind.MOVE?
    ensures forall i :: 0 <= i < |Replay(n, ops).configs| ==> Settled(Replay(n, ops).configs[i])
  {
    hide Settled, Successor;
    if ops == [] {
      InitiallySettled(n);
    } else {
      var front, op := ops[..|ops| - 1], ops[|ops| - 1];
      AlwaysSettled(n, front);
      if !op.kind.QUERY? {
        var configs := Replay(n, front).configs;
        SuccessorSettled(configs[|configs| - 1], op);
      }
    }
  }

  lemma InitiallySettled(n: nat)
    ensures Settled(Initial(n).configs[0])
  {
  }

  /** A join after a settled configuration takes shards away only to give them to groups that are new. */
  lemma JoinSparesOldGroups(cfg: Cfg, op: Op, s: nat)
    requires Settled(cfg) && cfg.groups != map[] && op.kind.JOIN? && Proper(|cfg.shards|, op) && s < |cfg.shards|
    requires Successor(cfg, op).shards[s] != cfg.shards[s]
    ensures Successor(cfg, op).shards[s] in op.servers && Successor(cfg, op).shards[s] !in cfg.groups
  {
    hide Reallocated, IsEven;
    JoinMovesOnlyToNewGroups(cfg.shards, cfg.groups.Keys, (cfg.groups + op.servers).Keys, s);
  }

  /** A leave after a settled configuration moves no shard of a group that stays. */
  lemma LeaveSparesOthers(cfg: Cfg, op: Op, s: nat)
    requires Settled(cfg) && op.kind.LEAVE? && Proper(|cfg.shards|, op) && s < |cfg.shards|
    requires cfg.shards[s] in cfg.groups && cfg.shards[s] !in op.gids
    ensures Successor(cfg, op).shards[s] == cfg.shards[s]
  {
    hide Reallocated, IsEven;
    LeaveMovesOnlyOrphans(cfg.shards, cfg.groups.Keys, (cfg.groups - GidSet(op.gids)).Keys, s);
  }

  // ---------- Each command once

  function StampOf(op: Op): Stamp {
    Stamp(op.clientId, op.commandId)
  }

  function Stamps(ops: seq<Op>): (r: seq<Stamp>)
    ensures |r| == |ops| && forall i :: 0 <= i < |ops| ==> r[i] == StampOf(ops[i])
  {
    seq(|ops|, i requires 0 <= i < |ops| => StampOf(ops[i]))
  }

  lemma {:induction false} ReplayLatest(n: nat, ops: seq<Op>)
    requires AllProper(n, ops)
    ensures Replay(n, ops).latestTime == Latest(Stamps(ops))
  {
    hide Successor;
    if ops != [] {
      var k := |ops| - 1;
      ReplayLatest(n, ops[..k]);
      assert Stamps(ops)[..k] == Stamps(ops[..k]);
    }
  }

  /** The log has no command of the same client that is as young or younger. */
  predicate Fresh(ops: seq<Op>, op: Op) {
    forall j :: 0 <= j < |ops| && ops[j].clientId == op.clientId ==> ops[j].commandId < op.commandId
  }

  lemma DupExactly(n: nat, ops: seq<Op>, op: Op)
    requires AllProper(n, ops)
    ensures Dup(Replay(n, ops).latestTime, op.commandId, op.clientId) <==> !Fresh(ops, op)
  {
    hide Replay, Latest, AllProper;
    ReplayLatest(n, ops);
    LatestIsLargest(Stamps(ops), op.clientId, op.commandId);
    if j :| 0 <= j < |ops| && ops[j].clientId == op.clientId && op.commandId <= ops[j].commandId {
      assert Stamps(ops)[j].clientId == op.clientId && op.commandId <= Stamps(ops)[j].commandId;
    }
  }

  lemma ReplayOneMore(n: nat, ops: seq<Op>, op: Op)
    requires AllProper(n, ops) && Proper(n, op)
    ensures AllProper(n, ops + [op]) && Replay(n, ops + [op]) == Apply(n, Replay(n, ops), op)
  {
    assert (ops + [op])[..|ops|] == ops;
  }

  /** The controller ignores a command exactly when its client has had one at least as young. */
  lemma IgnoredExactly(n: nat, ops: seq<Op>, op: Op)
    requires AllProper(n, ops) && Proper(n, op)
    ensures AllProper(n, ops + [op])
    ensures Replay(n, ops + [op]) == Replay(n, ops) <==> !Fresh(ops, op)
  {
    hide Replay, Fresh, AllProper, Successor;
    ReplayOneMore(n, ops, op);
    DupExactly(n, ops, op);
    var c := Replay(n, ops);
    if !Dup(c.latestTime, op.commandId, op.clientId) {
      assert op.clientId in Apply(n, c, op).latestTime && Apply(n, c, op).latestTime[op.clientId] == op.commandId;
    }
  }

  /** Plain execution, without any suppression. */
  ghost function Execute(n: nat, ops: seq<Op>): (configs: seq<Cfg>)
    requires AllProper(n, ops)
    ensures |configs| == 1 + Changes(ops) && forall i :: 0 <= i < |configs| ==> |configs[i].shards| == n
  {
    if ops == [] then Initial(n).configs
    else
      var configs, op := Execute(n, ops[..|ops| - 1]), ops[|ops| - 1];
      if op.kind.QUERY? then configs else configs + [Successor(configs[|configs| - 1], op)]
  }

  /** How many commands are no queries. */
  function Changes(ops: seq<Op>): nat {
    if ops == [] then 0
    else Changes(ops[..|ops| - 1]) + if ops[|ops| - 1].kind.QUERY? then 0 else 1
  }

  lemma ExecuteOneMore(n: nat, ops: seq<Op>, op: Op)
    requires AllProper(n, ops) && Proper(n, op)
    ensures AllProper(n, ops + [op])
    ensures var configs := Execute(n, ops);
      Execute(n, ops + [op]) == if op.kind.QUERY? then configs else configs + [Successor(configs[|configs| - 1], op)]
  {
    hide Successor, Proper;
    assert (ops + [op])[..|ops|] == ops;
  }

  lemma {:induction false} FirstsProper(n: nat, ops: seq<Op>, stamps: seq<Stamp>)
    requires AllProper(n, ops) && |stamps| == |ops|
    ensures AllProper(n, Firsts(ops, stamps))
  {
    if ops != [] {
      FirstsProper(n, ops[..|ops| - 1], stamps[..|ops| - 1]);
    }
  }

  /** Each command takes effect exactly once, at its first occurrence, however often it was retried. */
  lemma {:induction false} ControllerExactlyOnce(n: nat, ops: seq<Op>)
    requires AllProper(n, ops) && InClientOrder(Stamps(ops))
    ensures AllProper(n, Firsts(ops, Stamps(ops)))
    ensures Replay(n, ops).configs == Execute(n, Firsts(ops, Stamps(ops)))
    ensures |Replay(n, ops).configs| == 1 + Changes(Firsts(ops, Stamps(ops)))
  {
    FirstsProper(n, ops, Stamps(ops));
    if ops != [] {
      var k := |ops| - 1;
      assert AllProper(n, ops[..k]) && Proper(n, ops[k]) && ops == ops[..k] + [ops[k]];
      assert Stamps(ops)[..k] == Stamps(ops[..k]);
      hide InClientOrder, Firsts, Execute, Successor, Latest, Stamps, AllProper, Replay, Fresh, Changes;
      InClientOrderPrefix(Stamps(ops), k);
      ControllerExactlyOnce(n, ops[..k]);
      FirstsLast(ops, Stamps(ops));
      FirstsProper(n, ops[..k], Stamps(ops[..k]));
      var f := Firsts(ops[..k], Stamps(ops[..k]));
      ExecuteOneMore(n, f, ops[k]);
      ReplayOneMore(n, ops[..k], ops[k]);
      DupIsRepeated(n, ops, k);
      assert f + [] == f;
    }
  }

  lemma DupIsRepeated(n: nat, ops: seq<Op>, k: nat)
    requires AllProper(n, ops) && InClientOrder(Stamps(ops)) && k < |ops|
    ensures AllProper(n, ops[..k])
    ensures Dup(Replay(n, ops[..k]).latestTime, ops[k].commandId, ops[k].clientId) <==> Repeated(Stamps(ops), k)
  {
    hide Replay, Latest, InClientOrder, Repeated;
    ReplayLatest(n, ops[..k]);
    assert Stamps(ops)[..k] == Stamps(ops[..k]);
    IgnoresExactlyRepetitions(Stamps(ops));
    assert Ignored(Stamps(ops), k) <==> Repeated(Stamps(ops), k);
  }

  // ---------- What each command does to the newest configuration

  ghost function Newest(n: nat, ops: seq<Op>): Cfg
    requires AllProper(n, ops)
  {
    var configs := Replay(n, ops).configs;
    configs[|configs| - 1]
  }

  /** A fresh command that is no query adds one configuration, with the next number. */
  lemma FreshAdds(n: nat, ops: seq<Op>, op: Op)
    requires AllProper(n, ops) && Proper(n, op) && Fresh(ops, op)
    ensures AllProper(n, ops + [op])
    ensures op.kind.QUERY? ==> Replay(n, ops + [op]).configs == Replay(n, ops).configs
    ensures !op.kind.QUERY? ==>
      && Replay(n, ops + [op]).configs == Replay(n, ops).configs + [Newest(n, ops + [op])]
      && |Newest(n, ops).shards| == n && Newest(n, ops + [op]) == Successor(Newest(n, ops), op)
      && Newest(n, ops + [op]).num == Newest(n, ops).num + 1
  {
    hide Fresh, AllProper, Reallocated;
    ReplayOneMore(n, ops, op);
    hide Replay;
    DupExactly(n, ops, op);
  }

  /** A move gives one shard to the group it names and changes nothing else. */
  lemma MoveMovesOne(n: nat, ops: seq<Op>, op: Op)
    requires AllProper(n, ops) && Proper(n, op) && Fresh(ops, op) && op.kind.MOVE?
    ensures AllProper(n, ops + [op])
    ensures Replay(n, ops + [op]).configs == Replay(n, ops).configs + [Newest(n, ops + [op])]
    ensures var before, after := Newest(n, ops), Newest(n, ops + [op]);
      && after.num == before.num + 1 && after.groups == before.groups
      && |after.shards| == |before.shards| == n && after.shards[op.shard] == op.gids[0]
      && forall s :: 0 <= s < n && s != op.shard ==> after.shards[s] == before.shards[s]
  {
    hide Fresh, AllProper, Reallocated, Replay, Newest;
    FreshAdds(n, ops, op);
  }

  /** A join adds the groups it names, with their servers, replaces the servers of those there already, and settles. */
  lemma JoinAddsGroups(n: nat, ops: seq<Op>, op: Op)
    requires AllProper(n, ops) && Proper(n, op) && Fresh(ops, op) && op.kind.JOIN?
    ensures AllProper(n, ops + [op])
    ensures Replay(n, ops + [op]).configs == Replay(n, ops).configs + [Newest(n, ops + [op])]
    ensures var before, after := Newest(n, ops), Newest(n, ops + [op]);
      && after.num == before.num + 1 && Settled(after)
      && (forall g :: g in after.groups <==> g in before.groups || g in op.servers)
      && (forall g :: g in after.groups ==>
            after.groups[g] == if g in op.servers then op.servers[g] else before.groups[g])
  {
    hide Fresh, AllProper, Reallocated, Replay, Newest, Settled;
    FreshAdds(n, ops, op);
    SuccessorSettled(Newest(n, ops), op);
  }

  /** A leave removes the groups it names, leaves the others with their servers, and settles. */
  lemma LeaveRemovesGroups(n: nat, ops: seq<Op>, op: Op)
    requires AllProper(n, ops) && Proper(n, op) && Fresh(ops, op) && op.kind.LEAVE?
    ensures AllProper(n, ops + [op])
    ensures Replay(n, ops + [op]).configs == Replay(n, ops).configs + [Newest(n, ops + [op])]
    ensures var before, after := Newest(n, ops), Newest(n, ops + [op]);
      && after.num == before.num + 1 && Settled(after)
      && (forall g :: g in after.groups <==> g in before.groups && g !in op.gids)
      && (forall g :: g in after.groups ==> after.groups[g] == before.groups[g])
  {
    hide Fresh, AllProper, Reallocated, Replay, Newest, Settled;
    FreshAdds(n, ops, op);
    SuccessorSettled(Newest(n, ops), op);
  }

  // ---------- The apply loop

  class ShardCtrler {
    var configs: seq<Config>
    var latestTime: map<int, int>

    ghost function Value(): Ctrl
      reads this, configs, set c | c in configs :: c.shards
    {
      Ctrl(
        seq(|configs|, i requires 0 <= i < |configs| reads this, configs, set c | c in configs :: c.shards =>
          View(configs[i])),
        latestTime)
    }

    constructor (n: nat)
      ensures Value() == Initial(n) && fresh(configs) && fresh(configs[0].shards)
    {
      var first := new Config(n);
      configs, latestTime := [first], map[];
      new;
      assert View(configs[0]) == Initial(n).configs[0];
    }

    /** Every configuration but a new one is left as it is. */
    method ApplyCommand(op: Op, ghost n: nat)
      requires Started(n, Value()) && WellNumbered(Value()) && Proper(n, op)
      modifies this
      ensures Value() == Apply(n, old(Value()), op)
    {
      hide Reallocated;
      if !Dup(latestTime, op.commandId, op.clientId) {
        if !op.kind.QUERY? {
          ghost var last := View(configs[|configs| - 1]);
          assert last == Value().configs[|configs| - 1];
          var cfg := NewConfig(configs[|configs| - 1], op);
          configs := configs + [cfg];
        }
        latestTime := latestTime[op.clientId := op.commandId];
      }
    }
  }

  method NewConfig(last: Config, op: Op) returns (cfg: Config)
    requires Proper(last.shards.Length, op) && 0 !in last.groups && !op.kind.QUERY?
    ensures View(cfg) == Successor(View(last), op) && fresh(cfg) && fresh(cfg.shards)
  {
    hide Reallocated;
    cfg := new Config.Copy(last);
    match op.kind {
      case JOIN =>
        AddGroups(cfg, op.servers);
        cfg.ReAllocGID();
      case LEAVE =>
        RemoveGroups(cfg, op.gids);
        cfg.ReAllocGID();
      case MOVE =>
        cfg.shards[op.shard] := op.gids[0];
    }
  }

  method AddGroups(cfg: Config, servers: map<int, seq<string>>)
    modifies cfg`groups
    ensures cfg.groups == old(cfg.groups) + servers
  {
    var rest := servers.Keys;
    while rest != {}
      invariant rest <= servers.Keys
      invariant cfg.groups == old(cfg.groups) + (map k | k in servers && k !in rest :: servers[k])
      decreases |rest|
    {
      EmptyOrNot(rest);
      var k :| k in rest;
      cfg.groups := cfg.groups[k := servers[k]];
      rest := rest - {k};
    }
    assert servers == map k | k in servers && k !in rest :: servers[k];
  }

  method RemoveGroups(cfg: Config, gids: seq<int>)
    modifies cfg`groups
    ensures cfg.groups == old(cfg.groups) - GidSet(gids)
  {
    for i := 0 to |gids|
      invariant cfg.groups == old(cfg.groups) - GidSet(gids[..i])
    {
      assert gids[..i + 1] == gids[..i] + [gids[i]];
      assert GidSet(gids[..i + 1]) == GidSet(gids[..i]) + {gids[i]};
      cfg.groups := cfg.groups - {gids[i]};
    }
    assert gids[..|gids|] == gids;
  }

  ghost function View(cfg: Config): Cfg
    reads cfg, cfg.shards
  {
    Cfg(cfg.num, cfg.shards[..], cfg.groups)
  }
}
