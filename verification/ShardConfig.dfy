/** A shard configuration and the in-place reallocation of its shards. */
module ShardConfig {
  import opened Rebalance
  import opened Sorting

  predicate Ascending(ks: seq<int>) {
    forall i, j :: 0 <= i < j < |ks| ==> ks[i] < ks[j]
  }

  /** The keys of a map, in ascending order whatever order the map yields them in. */
  method SortedKeys(g2s: map<int, seq<nat>>) returns (ks: seq<int>)
    ensures Ascending(ks) && forall g :: g in ks <==> g in g2s
  {
    var listed := Elements(g2s.Keys);
    ks := Sort((a: int, b: int) => a < b, listed);
    SortedDistinct(ks, listed);
  }

  /** `n` is the number of shards. */
  method GidWithMinimumShards(g2s: map<int, seq<nat>>, n: nat) returns (index: int)
    requires g2s.Keys != {} && 0 !in g2s && forall g :: g in g2s ==> |g2s[g]| <= n
    ensures index == MinGid(g2s)
  {
    var keys := SortedKeys(g2s);
    var min := n + 1;
    index := -1;
    for k := 0 to |keys|
      invariant k == 0 ==> min == n + 1
      invariant k > 0 ==> index in g2s && index in keys[..k] && |g2s[index]| == min
      invariant forall j :: 0 <= j < k ==> keys[j] in g2s && min <= |g2s[keys[j]]|
      invariant forall j :: 0 <= j < k && |g2s[keys[j]]| == min ==> index <= keys[j]
    {
      var gid := keys[k];
      assert gid in g2s;
      if gid != 0 && |g2s[gid]| < min {
        index, min := gid, |g2s[gid]|;
      }
    }
    assert MinGid(g2s) in keys;
    UniqueMin(g2s, keys, index);
  }

  lemma UniqueMin(g2s: map<int, seq<nat>>, keys: seq<int>, index: int)
    requires g2s.Keys != {} && forall g :: g in keys <==> g in g2s
    requires index in g2s && forall j :: 0 <= j < |keys| ==> keys[j] in g2s
    requires forall j :: 0 <= j < |keys| ==> |g2s[index]| <= |g2s[keys[j]]|
    requires forall j :: 0 <= j < |keys| && |g2s[keys[j]]| == |g2s[index]| ==> index <= keys[j]
    ensures index == MinGid(g2s)
  {
    var m := MinGid(g2s);
    assert m in keys;
  }

  method GidWithMaximumShards(g2s: map<int, seq<nat>>) returns (index: int)
    requires g2s.Keys != {}
    ensures index == MaxGid(g2s)
  {
    var keys := SortedKeys(g2s);
    var max := -1;
    index := -1;
    for k := 0 to |keys|
      invariant k == 0 ==> max == -1
      invariant k > 0 ==> index in g2s && index in keys[..k] && |g2s[index]| == max
      invariant forall j :: 0 <= j < k ==> keys[j] in g2s && max >= |g2s[keys[j]]|
      invariant forall j :: 0 <= j < k && |g2s[keys[j]]| == max ==> index <= keys[j]
    {
      var gid := keys[k];
      assert gid in g2s;
      if |g2s[gid]| > max {
        index, max := gid, |g2s[gid]|;
      }
    }
    var m := MaxGid(g2s);
    assert m in keys;
  }

  class Config {
    var num: nat
    const shards: array<int>
    var groups: map<int, seq<string>>

    constructor (n: nat)
      ensures num == 0 && shards.Length == n && groups == map[]
      ensures forall s :: 0 <= s < n ==> shards[s] == 0
      ensures fresh(shards)
    {
      num := 0;
      shards := new int[n](_ => 0);
      groups := map[];
    }

    /** The copy that the next configuration starts from. */
    constructor Copy(cfg: Config)
      ensures num == cfg.num + 1 && shards[..] == cfg.shards[..] && groups == cfg.groups
      ensures fresh(shards)
    {
      num := cfg.num + 1;
      shards := new int[cfg.shards.Length];
      groups := cfg.groups;
      new;
      for i := 0 to cfg.shards.Length
        modifies shards
        invariant forall j :: 0 <= j < i ==> shards[j] == cfg.shards[j]
      {
        shards[i] := cfg.shards[i];
      }
    }

    /** The shards of the groups that are still there. */
    method CollectSurvivors() returns (g2s: map<int, seq<nat>>)
      requires 0 !in groups
      ensures Alloc(shards[..], g2s) == Survivors(shards[..], groups.Keys)
    {
      g2s := map g | g in groups :: [];
      for s := 0 to shards.Length
        invariant g2s.Keys == groups.Keys
        invariant forall g :: g in groups ==> g2s[g] == Positions(shards[..s], g)
      {
        var g := shards[s];
        assert shards[..s + 1][..s] == shards[..s];
        if g != 0 && g in g2s {
          g2s := g2s[g := g2s[g] + [s]];
        }
      }
      assert shards[..shards.Length] == shards[..];
    }

    /** For leave: orphaned shards go to the emptiest group. */
    method PlaceOrphans(g2s0: map<int, seq<nat>>) returns (g2s: map<int, seq<nat>>)
      requires groups != map[] && 0 !in groups && Alloc(shards[..], g2s0) == Survivors(shards[..], groups.Keys)
      modifies shards
      ensures Alloc(shards[..], g2s) == Place(Survivors(old(shards[..]), groups.Keys), 0)
      ensures Fair(old(shards[..]), Alloc(shards[..], g2s)) && Complete(Alloc(shards[..], g2s))
      ensures g2s.Keys == groups.Keys
      ensures forall j :: 0 <= j < shards.Length ==> shards[j] in groups
    {
      hide Fair, Complete, Orphaned, Survivors;
      ghost var was := shards[..];
      ghost var a0 := Survivors(was, groups.Keys);
      g2s := g2s0;
      NoneOrphanedYet(was, groups.Keys);
      SurvivorsListed(was, groups.Keys);
      for i := 0 to shards.Length
        invariant g2s.Keys == groups.Keys
        invariant Place(Alloc(shards[..], g2s), i) == Place(a0, 0)
        invariant Orphaned(was, Alloc(shards[..], g2s), i)
      {
        ghost var a := Alloc(shards[..], g2s);
        OrphanStep(was, a, i);
        if shards[i] !in groups {
          var gid := GidWithMinimumShards(g2s, shards.Length);
          shards[i] := gid;
          g2s := g2s[gid := g2s[gid] + [i]];
          assert Alloc(shards[..], g2s) == Assign(a, i, gid);
        }
      }
      OrphansPlaced(was, Alloc(shards[..], g2s));
    }

    /** For join: the fullest group gives to the emptiest until they are within one of each other. */
    method EvenOut(g2s0: map<int, seq<nat>>, ghost was: seq<int>) returns (g2s: map<int, seq<nat>>, ghost own: seq<int>)
      requires g2s0.Keys != {} && 0 !in g2s0 && Fair(was, Alloc(shards[..], g2s0)) && Complete(Alloc(shards[..], g2s0))
      requires Listed(Alloc(shards[..], g2s0))
      ensures Alloc(own, g2s) == Even(Alloc(shards[..], g2s0), shards.Length)
      ensures Listed(Alloc(own, g2s)) && Complete(Alloc(own, g2s)) && g2s.Keys == g2s0.Keys && |own| == shards.Length
    {
      hide Fair, Complete, Balanced, Listed, Even, Moves;
      g2s, own := g2s0, shards[..];
      ghost var k := shards.Length;
      FairSize(was, Alloc(own, g2s));
      while true
        invariant g2s.Keys == g2s0.Keys && |own| == |was| == shards.Length
        invariant Fair(was, Alloc(own, g2s)) && Complete(Alloc(own, g2s)) && Listed(Alloc(own, g2s))
        invariant Moves(was, own, Alloc(own, g2s).g2s.Keys) + k >= |own|
        invariant Even(Alloc(own, g2s), k) == Even(Alloc(shards[..], g2s0), shards.Length)
        decreases k
      {
        ghost var a := Alloc(own, g2s);
        SizesBounded(was, a);
        var source := GidWithMaximumShards(g2s);
        var target := GidWithMinimumShards(g2s, shards.Length);
        EvenStep(was, a, k);
        if source != 0 && |g2s[source]| - |g2s[target]| <= 1 {
          break;
        }
        own := own[g2s[source][0] := target];
        g2s := g2s[target := g2s[target] + [g2s[source][0]]][source := g2s[source][1..]];
        assert Alloc(own, g2s) == Move(a);
        k := k - 1;
      }
    }

    /** Write the groups' lists back, in whatever order the map yields its keys. */
    method WriteBack(g2s: map<int, seq<nat>>, ghost own: seq<int>)
      requires |own| == shards.Length && Listed(Alloc(own, g2s)) && Complete(Alloc(own, g2s))
      requires forall s :: 0 <= s < |own| ==> own[s] in g2s
      modifies shards
      ensures shards[..] == own
    {
      var rest := g2s.Keys;
      while rest != {}
        invariant rest <= g2s.Keys
        invariant forall s :: 0 <= s < |own| && own[s] !in rest ==> shards[s] == own[s]
        decreases |rest|
      {
        EmptyOrNot(rest);
        var gid :| gid in rest;
        rest := rest - {gid};
        for j := 0 to |g2s[gid]|
          invariant forall s :: 0 <= s < |own| && own[s] !in rest && own[s] != gid ==> shards[s] == own[s]
          invariant forall i :: 0 <= i < j ==> shards[g2s[gid][i]] == gid
        {
          shards[g2s[gid][j]] := gid;
        }
      }
    }

    /** Without any group, every shard belongs to the invalid group. */
    method Unassign()
      modifies shards
      ensures shards[..] == seq(shards.Length, _ => 0)
    {
      for i := 0 to shards.Length
        invariant forall j :: 0 <= j < i ==> shards[j] == 0
      {
        shards[i] := 0;
      }
    }

    /** The result does not depend on the order in which maps are iterated. */
    method ReAllocGID()
      requires 0 !in groups
      modifies shards
      ensures shards[..] == Reallocated(old(shards[..]), groups.Keys)
    {
      hide Fair, Complete, Listed, Survivors, Place, Even, Sized;
      ghost var was := shards[..];
      if |groups| == 0 {
        assert groups.Keys == {};
        Unassign();
        return;
      }
      var g2s := CollectSurvivors();
      g2s := PlaceOrphans(g2s);
      ghost var placed := Alloc(shards[..], g2s);
      FairSize(was, placed);
      ghost var own;
      g2s, own := EvenOut(g2s, was);
      EvenKeepsGroups(was, placed, shards.Length);
      WriteBack(g2s, own);
    }
  }

  lemma NoneOrphanedYet(was: seq<int>, keys: set<int>)
    ensures Orphaned(was, Survivors(was, keys), 0)
  {
    SurvivorsFair(was, keys);
    SurvivorsComplete(was, keys);
    forall g | g in keys
      ensures Lost(was, was, g) == 0
    {
      NothingChanged(was, g);
    }
  }

  lemma OrphanStep(was: seq<int>, a: Alloc, i: nat)
    requires Orphaned(was, a, i) && i < |a.own| && a.g2s.Keys != {}
    ensures forall g :: g in a.g2s ==> |a.g2s[g]| <= |a.own|
    ensures Orphaned(was, if a.own[i] in a.g2s then a else Assign(a, i, MinGid(a.g2s)), i + 1)
  {
    hide Fair, Complete;
    SizesBounded(was, a);
    if a.own[i] !in a.g2s {
      AssignFair(was, a, i);
      AssignComplete(a, i, MinGid(a.g2s));
    }
  }

  lemma OrphansPlaced(was: seq<int>, a: Alloc)
    requires Orphaned(was, a, |a.own|)
    ensures Fair(was, a) && Complete(a) && forall j :: 0 <= j < |a.own| ==> a.own[j] in a.g2s
  {
  }

  /** The state of the leave loop before shard `i`. */
  ghost predicate Orphaned(was: seq<int>, a: Alloc, i: nat) {
    && Fair(was, a)
    && Complete(a)
    && i <= |a.own| == |was|
    && (forall g :: g in a.g2s ==> Lost(was, a.own, g) == 0)
    && (forall j :: 0 <= j < i ==> a.own[j] in a.g2s)
    && (forall j :: i <= j < |a.own| ==> a.own[j] == was[j])
  }

  lemma SizesBounded(was: seq<int>, a: Alloc)
    requires Fair(was, a)
    ensures forall g :: g in a.g2s ==> |a.g2s[g]| <= |a.own|
  {
    forall g | g in a.g2s
      ensures |a.g2s[g]| <= |a.own|
    {
      CountBound(a.own, g);
    }
  }

  /** One turn of the join loop. */
  lemma EvenStep(was: seq<int>, a: Alloc, k: nat)
    requires a.g2s.Keys != {} && Fair(was, a) && Complete(a) && Listed(a) && |was| == |a.own|
    requires Moves(was, a.own, a.g2s.Keys) + k >= |a.own|
    ensures var source, target := MaxGid(a.g2s), MinGid(a.g2s);
      if |a.g2s[source]| - |a.g2s[target]| <= 1 then Even(a, k) == a
      else
        && |a.g2s[source]| > 0 && a.g2s[source][0] < |a.own|
        && !Balanced(a.g2s)
        && Fair(was, Move(a)) && Complete(Move(a)) && Listed(Move(a))
        && k > 0
        && Moves(was, Move(a).own, a.g2s.Keys) + (k - 1) >= |a.own|
        && Even(a, k) == Even(Move(a), k - 1)
  {
    hide Fair, Complete, Listed;
    BalancedAtEnds(a.g2s);
    if !Balanced(a.g2s) {
      MoveSource(was, a);
      MoveFair(was, a);
      MoveMoves(was, a);
      MoveListed(a);
      MoveComplete(a);
    }
  }

  lemma BalancedAtEnds(g2s: map<int, seq<nat>>)
    requires g2s.Keys != {}
    ensures Balanced(g2s) <==> |g2s[MaxGid(g2s)]| - |g2s[MinGid(g2s)]| <= 1
  {
  }

  lemma {:induction false} EvenKeepsGroups(was: seq<int>, a: Alloc, k: nat)
    requires Fair(was, a) && a.g2s.Keys != {} && Listed(a)
    requires forall s :: 0 <= s < |a.own| ==> a.own[s] in a.g2s
    ensures forall s :: 0 <= s < |a.own| ==> Even(a, k).own[s] in a.g2s
    decreases k
  {
    hide Fair, Balanced;
    if k > 0 && !Balanced(a.g2s) {
      MoveFair(was, a);
      MoveListed(a);
      EvenKeepsGroups(was, Move(a), k - 1);
    }
  }
}
