/** How the shard controller spreads shards over replica groups. */
module Rebalance {
  import opened Sorting

  /**
   A shard assignment under reconstruction: the owner of each shard, and each group's shards in the
   order in which they would be given away.
   */
  datatype Alloc = Alloc(own: seq<int>, g2s: map<int, seq<nat>>)

  // ---------- Choosing a group

  /** The group with the fewest shards, the smallest id among equals. */
  predicate IsMinGid(g2s: map<int, seq<nat>>, g: int) {
    && g in g2s
    && (forall h :: h in g2s ==> |g2s[g]| <= |g2s[h]|)
    && (forall h :: h in g2s && |g2s[h]| == |g2s[g]| ==> g <= h)
  }

  /** The group with the most shards, the smallest id among equals. */
  predicate IsMaxGid(g2s: map<int, seq<nat>>, g: int) {
    && g in g2s
    && (forall h :: h in g2s ==> |g2s[h]| <= |g2s[g]|)
    && (forall h :: h in g2s && |g2s[h]| == |g2s[g]| ==> g <= h)
  }

  lemma Pick(keys: set<int>) returns (x: int)
    requires keys != {}
    ensures x in keys
  {
    EmptyOrNot(keys);
    x :| x in keys;
  }

  lemma EmptyOrNot(keys: set<int>)
    ensures keys == {} || exists x :: x in keys
  {
    if forall x :: x !in keys {
      assert keys == {};
    }
  }

  lemma {:induction false} MinGidExists(g2s: map<int, seq<nat>>)
    requires g2s.Keys != {}
    ensures exists g :: IsMinGid(g2s, g)
    decreases |g2s|
  {
    var x := Pick(g2s.Keys);
    var rest := g2s - {x};
    assert forall h :: h in g2s ==> h == x || h in rest.Keys;
    if rest.Keys == {} {
      assert IsMinGid(g2s, x);
    } else {
      assert |rest| < |g2s| by { assert g2s.Keys == rest.Keys + {x}; }
      MinGidExists(rest);
      var g :| IsMinGid(rest, g);
      var r := if |g2s[x]| < |g2s[g]| || (|g2s[x]| == |g2s[g]| && x < g) then x else g;
      assert IsMinGid(g2s, r);
    }
  }

  lemma {:induction false} MaxGidExists(g2s: map<int, seq<nat>>)
    requires g2s.Keys != {}
    ensures exists g :: IsMaxGid(g2s, g)
    decreases |g2s|
  {
    var x := Pick(g2s.Keys);
    var rest := g2s - {x};
    assert forall h :: h in g2s ==> h == x || h in rest.Keys;
    if rest.Keys == {} {
      assert IsMaxGid(g2s, x);
    } else {
      assert |rest| < |g2s| by { assert g2s.Keys == rest.Keys + {x}; }
      MaxGidExists(rest);
      var g :| IsMaxGid(rest, g);
      var r := if |g2s[x]| > |g2s[g]| || (|g2s[x]| == |g2s[g]| && x < g) then x else g;
      assert IsMaxGid(g2s, r);
    }
  }

  ghost function MinGid(g2s: map<int, seq<nat>>): (r: int)
    requires g2s.Keys != {}
    ensures IsMinGid(g2s, r)
  {
    MinGidExists(g2s);
    var g :| IsMinGid(g2s, g);
    g
  }

  ghost function MaxGid(g2s: map<int, seq<nat>>): (r: int)
    requires g2s.Keys != {}
    ensures IsMaxGid(g2s, r)
  {
    MaxGidExists(g2s);
    var g :| IsMaxGid(g2s, g);
    g
  }

  // ---------- The allocation as a function of the old assignment and the set of groups

  /** The shards owned by `g`, in ascending order. */
  function Positions(own: seq<int>, g: int): seq<nat> {
    if own == [] then []
    else
      var k := |own| - 1;
      Positions(own[..k], g) + (if own[k] == g then [k] else [])
  }

  /** Give shard `i` to group `g`. */
  function Assign(a: Alloc, i: nat, g: int): Alloc
    requires i < |a.own| && g in a.g2s
  {
    Alloc(a.own[i := g], a.g2s[g := a.g2s[g] + [i]])
  }

  /** Shards of departed groups go, in order, to the group that then has the fewest. */
  ghost function Place(a: Alloc, i: nat): (r: Alloc)
    requires i <= |a.own| && a.g2s.Keys != {}
    ensures r.g2s.Keys == a.g2s.Keys && |r.own| == |a.own|
    decreases |a.own| - i
  {
    if i == |a.own| then a
    else if a.own[i] in a.g2s then Place(a, i + 1)
    else Place(Assign(a, i, MinGid(a.g2s)), i + 1)
  }

  ghost predicate Balanced(g2s: map<int, seq<nat>>) {
    forall g, h :: g in g2s && h in g2s ==> |g2s[g]| <= |g2s[h]| + 1
  }

  /** The first shard of the fullest group goes to the emptiest one. */
  ghost function Move(a: Alloc): (r: Alloc)
    requires a.g2s.Keys != {} && !Balanced(a.g2s)
    requires Listed(a)
    ensures r.g2s.Keys == a.g2s.Keys && |r.own| == |a.own|
  {
    var source, target := MaxGid(a.g2s), MinGid(a.g2s);
    var s := a.g2s[source][0];
    Alloc(a.own[s := target],
          a.g2s[target := a.g2s[target] + [s]][source := a.g2s[source][1..]])
  }

  /** The lists hold exactly the shards their group owns, without repetition. */
  ghost predicate Listed(a: Alloc) {
    && (forall g, j :: g in a.g2s && 0 <= j < |a.g2s[g]| ==> a.g2s[g][j] < |a.own| && a.own[a.g2s[g][j]] == g)
    && (forall g, i, j :: g in a.g2s && 0 <= i < j < |a.g2s[g]| ==> a.g2s[g][i] != a.g2s[g][j])
  }

  lemma MoveListed(a: Alloc)
    requires a.g2s.Keys != {} && !Balanced(a.g2s) && Listed(a)
    ensures Listed(Move(a))
  {
    hide MaxGid, MinGid;
    var source, target := MaxGid(a.g2s), MinGid(a.g2s);
    assert source != target;
    var s := a.g2s[source][0];
    assert s !in a.g2s[target];
    assert forall g, j :: g in a.g2s && 0 <= j < |a.g2s[g]| && g != source ==> a.g2s[g][j] != s;
  }

  /** At most `k` moves, stopping once balanced. */
  ghost function Even(a: Alloc, k: nat): (r: Alloc)
    requires a.g2s.Keys != {} && Listed(a)
    ensures r.g2s.Keys == a.g2s.Keys && |r.own| == |a.own| && Listed(r)
    decreases k
  {
    if k == 0 || Balanced(a.g2s) then a
    else
      MoveListed(a);
      Even(Move(a), k - 1)
  }

  /** What every allocation starts from. */
  ghost function Survivors(own: seq<int>, keys: set<int>): Alloc {
    Alloc(own, map g | g in keys :: Positions(own, g))
  }

  /** The new assignment. */
  ghost function Reallocated(own: seq<int>, keys: set<int>): (r: seq<int>)
    ensures |r| == |own|
  {
    if keys == {} then seq(|own|, _ => 0)
    else
      SurvivorsListed(own, keys);
      PlaceListed(Survivors(own, keys), 0);
      Even(Place(Survivors(own, keys), 0), |own|).own
  }

  lemma {:induction false} PositionsListed(own: seq<int>, g: int)
    ensures forall j :: 0 <= j < |Positions(own, g)| ==> Positions(own, g)[j] < |own| && own[Positions(own, g)[j]] == g
    ensures forall i, j :: 0 <= i < j < |Positions(own, g)| ==> Positions(own, g)[i] < Positions(own, g)[j]
  {
    if own != [] {
      PositionsListed(own[..|own| - 1], g);
    }
  }

  lemma SurvivorsListed(own: seq<int>, keys: set<int>)
    ensures Listed(Survivors(own, keys)) && Survivors(own, keys).g2s.Keys == keys
  {
    forall g | g in keys
      ensures forall j :: 0 <= j < |Positions(own, g)| ==>
        Positions(own, g)[j] < |own| && own[Positions(own, g)[j]] == g
      ensures forall i, j :: 0 <= i < j < |Positions(own, g)| ==> Positions(own, g)[i] < Positions(own, g)[j]
    {
      PositionsListed(own, g);
    }
  }

  lemma AssignListed(a: Alloc, i: nat, g: int)
    requires Listed(a) && i < |a.own| && a.own[i] !in a.g2s && g in a.g2s
    ensures Listed(Assign(a, i, g))
  {
    assert forall h, j :: h in a.g2s && 0 <= j < |a.g2s[h]| ==> a.g2s[h][j] != i;
  }

  lemma {:induction false} PlaceListed(a: Alloc, i: nat)
    requires Listed(a) && i <= |a.own| && a.g2s.Keys != {}
    ensures Listed(Place(a, i))
    decreases |a.own| - i
  {
    if i < |a.own| {
      if a.own[i] in a.g2s {
        PlaceListed(a, i + 1);
      } else {
        AssignListed(a, i, MinGid(a.g2s));
        PlaceListed(Assign(a, i, MinGid(a.g2s)), i + 1);
      }
    }
  }

  // ---------- Counting

  function Count(own: seq<int>, g: int): nat {
    if own == [] then 0 else Count(own[..|own| - 1], g) + (if own[|own| - 1] == g then 1 else 0)
  }

  /** How many shards `g` gave up between two assignments. */
  function Lost(was: seq<int>, own: seq<int>, g: int): nat
    requires |was| == |own|
  {
    if own == [] then 0
    else
      var k := |own| - 1;
      Lost(was[..k], own[..k], g) + (if was[k] == g && own[k] != g then 1 else 0)
  }

  /** How many shards `g` received between two assignments. */
  function Gained(was: seq<int>, own: seq<int>, g: int): nat
    requires |was| == |own|
  {
    Lost(own, was, g)
  }

  /** How many shards whose owner still exists changed hands. */
  function Moves(was: seq<int>, own: seq<int>, keys: set<int>): (r: nat)
    requires |was| == |own|
    ensures r <= |own|
  {
    if own == [] then 0
    else
      var k := |own| - 1;
      Moves(was[..k], own[..k], keys) + (if was[k] in keys && own[k] != was[k] then 1 else 0)
  }

  lemma {:induction false} CountsAdd(was: seq<int>, own: seq<int>, g: int)
    requires |was| == |own|
    ensures Count(was, g) + Gained(was, own, g) == Count(own, g) + Lost(was, own, g)
  {
    if own != [] {
      CountsAdd(was[..|own| - 1], own[..|own| - 1], g);
    }
  }

  lemma {:induction false} ReassignCount(own: seq<int>, s: nat, h: int, g: int)
    requires s < |own|
    ensures Count(own[s := h], g) + (if own[s] == g then 1 else 0) == Count(own, g) + (if h == g then 1 else 0)
  {
    var k := |own| - 1;
    if s < k {
      ReassignCount(own[..k], s, h, g);
      assert own[s := h][..k] == own[..k][s := h];
    } else {
      assert own[s := h][..k] == own[..k];
    }
  }

  /** Changing the owner of one shard changes the counts of that shard only. */
  lemma {:induction false} ReassignLost(was: seq<int>, own: seq<int>, s: nat, h: int, g: int)
    requires |was| == |own| && s < |own|
    ensures Lost(was, own[s := h], g) + (if was[s] == g && own[s] != g then 1 else 0) ==
            Lost(was, own, g) + (if was[s] == g && h != g then 1 else 0)
    ensures Lost(own[s := h], was, g) + (if own[s] == g && was[s] != g then 1 else 0) ==
            Lost(own, was, g) + (if h == g && was[s] != g then 1 else 0)
  {
    var k := |own| - 1;
    if s < k {
      ReassignLost(was[..k], own[..k], s, h, g);
      assert own[s := h][..k] == own[..k][s := h];
    } else {
      assert own[s := h][..k] == own[..k];
    }
  }

  lemma {:induction false} ReassignMoves(was: seq<int>, own: seq<int>, s: nat, h: int, keys: set<int>)
    requires |was| == |own| && s < |own|
    ensures Moves(was, own[s := h], keys) + (if was[s] in keys && own[s] != was[s] then 1 else 0) ==
            Moves(was, own, keys) + (if was[s] in keys && h != was[s] then 1 else 0)
  {
    var k := |own| - 1;
    if s < k {
      ReassignMoves(was[..k], own[..k], s, h, keys);
      assert own[s := h][..k] == own[..k][s := h];
    } else {
      assert own[s := h][..k] == own[..k];
    }
  }

  /** A shard of a group that lost (gained) nothing was there before (is there now). */
  lemma {:induction false} NothingLost(was: seq<int>, own: seq<int>, g: int, s: nat)
    requires |was| == |own| && s < |own| && Lost(was, own, g) == 0 && was[s] == g
    ensures own[s] == g
  {
    var k := |own| - 1;
    if s < k {
      NothingLost(was[..k], own[..k], g, s);
    }
  }

  lemma {:induction false} NothingChanged(own: seq<int>, g: int)
    ensures Lost(own, own, g) == 0
  {
    if own != [] {
      NothingChanged(own[..|own| - 1], g);
    }
  }

  lemma {:induction false} PositionsSize(own: seq<int>, g: int)
    ensures |Positions(own, g)| == Count(own, g)
  {
    if own != [] {
      PositionsSize(own[..|own| - 1], g);
    }
  }

  // ---------- The invariant of the whole allocation

  ghost predicate Sized(a: Alloc) {
    forall g :: g in a.g2s ==> |a.g2s[g]| == Count(a.own, g)
  }

  /**
   Whoever received a shard is within one of the emptiest group, whoever gave one up is within one of the
   fullest, no receiver is larger than a giver, and nobody is both.
   */
  ghost predicate Fair(was: seq<int>, a: Alloc) {
    && |was| == |a.own|
    && Listed(a)
    && Sized(a)
    && (forall g :: g in a.g2s ==> Lost(was, a.own, g) == 0 || Gained(was, a.own, g) == 0)
    && (forall g, h :: g in a.g2s && h in a.g2s && Gained(was, a.own, g) > 0 ==> |a.g2s[g]| <= |a.g2s[h]| + 1)
    && (forall g, h :: g in a.g2s && h in a.g2s && Lost(was, a.own, g) > 0 ==> |a.g2s[h]| <= |a.g2s[g]| + 1)
    && (forall g, h :: g in a.g2s && h in a.g2s && Lost(was, a.own, g) > 0 && Gained(was, a.own, h) > 0 ==>
          |a.g2s[h]| <= |a.g2s[g]|)
  }

  lemma SurvivorsFair(own: seq<int>, keys: set<int>)
    ensures Fair(own, Survivors(own, keys))
  {
    SurvivorsListed(own, keys);
    forall g | g in keys
      ensures Lost(own, own, g) == 0 && |Positions(own, g)| == Count(own, g)
    {
      NothingChanged(own, g);
      PositionsSize(own, g);
    }
  }

  lemma AssignSized(a: Alloc, i: nat, g: int)
    requires Sized(a) && i < |a.own| && a.own[i] !in a.g2s && g in a.g2s
    ensures Sized(Assign(a, i, g))
  {
    forall h | h in a.g2s
      ensures |Assign(a, i, g).g2s[h]| == Count(Assign(a, i, g).own, h)
    {
      ReassignCount(a.own, i, g, h);
    }
  }

  lemma AssignFair(was: seq<int>, a: Alloc, i: nat)
    requires Fair(was, a) && a.g2s.Keys != {} && i < |a.own| && a.own[i] !in a.g2s && was[i] == a.own[i]
    requires forall g :: g in a.g2s ==> Lost(was, a.own, g) == 0
    ensures Fair(was, Assign(a, i, MinGid(a.g2s)))
    ensures forall g :: g in a.g2s ==> Lost(was, Assign(a, i, MinGid(a.g2s)).own, g) == 0
  {
    var t := MinGid(a.g2s);
    AssignListed(a, i, t);
    AssignSized(a, i, t);
    forall g | g in a.g2s
      ensures Lost(was, a.own[i := t], g) == 0
      ensures Gained(was, a.own[i := t], g) == Gained(was, a.own, g) + if g == t then 1 else 0
    {
      ReassignLost(was, a.own, i, t, g);
    }
  }

  lemma {:induction false} PlaceFair(was: seq<int>, a: Alloc, i: nat)
    requires Fair(was, a) && a.g2s.Keys != {} && i <= |a.own|
    requires forall g :: g in a.g2s ==> Lost(was, a.own, g) == 0
    requires forall j :: 0 <= j < i ==> a.own[j] in a.g2s
    requires forall j :: i <= j < |a.own| ==> a.own[j] == was[j]
    ensures Fair(was, Place(a, i))
    ensures forall j :: 0 <= j < |a.own| ==> Place(a, i).own[j] in a.g2s
    decreases |a.own| - i
  {
    hide Fair, MinGid, Lost;
    FairSize(was, a);
    if i < |a.own| {
      if a.own[i] in a.g2s {
        PlaceFair(was, a, i + 1);
      } else {
        AssignFair(was, a, i);
        PlaceFair(was, Assign(a, i, MinGid(a.g2s)), i + 1);
      }
    }
  }

  lemma FairSize(was: seq<int>, a: Alloc)
    requires Fair(was, a)
    ensures |was| == |a.own| && Listed(a) && Sized(a)
  {
  }

  /** The shard taken from the fullest group has been there from the start, and its new home never gave one up. */
  lemma MoveSource(was: seq<int>, a: Alloc)
    requires Fair(was, a) && a.g2s.Keys != {} && !Balanced(a.g2s)
    ensures var source, target := MaxGid(a.g2s), MinGid(a.g2s);
      && source != target && |a.g2s[source]| >= |a.g2s[target]| + 2 && a.g2s[source][0] < |a.own|
      && Gained(was, a.own, source) == 0 && Lost(was, a.own, target) == 0
      && a.own[a.g2s[source][0]] == source && was[a.g2s[source][0]] == source
  {
    var source := MaxGid(a.g2s);
    NothingLost(a.own, was, source, a.g2s[source][0]);
  }

  lemma MoveCounts(was: seq<int>, a: Alloc, g: int)
    requires Fair(was, a) && a.g2s.Keys != {} && !Balanced(a.g2s) && g in a.g2s
    ensures var source, target := MaxGid(a.g2s), MinGid(a.g2s);
      && Lost(was, Move(a).own, g) == Lost(was, a.own, g) + (if g == source then 1 else 0)
      && Gained(was, Move(a).own, g) == Gained(was, a.own, g) + (if g == target then 1 else 0)
      && |Move(a).g2s[g]| == |a.g2s[g]| + (if g == target then 1 else 0) - (if g == source then 1 else 0)
      && |Move(a).g2s[g]| == Count(Move(a).own, g)
  {
    hide Fair;
    MoveSource(was, a);
    FairSize(was, a);
    var s := a.g2s[MaxGid(a.g2s)][0];
    ReassignLost(was, a.own, s, MinGid(a.g2s), g);
    ReassignCount(a.own, s, MinGid(a.g2s), g);
  }

  lemma MoveFair(was: seq<int>, a: Alloc)
    requires Fair(was, a) && a.g2s.Keys != {} && !Balanced(a.g2s)
    ensures Fair(was, Move(a))
  {
    hide Listed, Move, Sized, Lost, Gained, Count, MaxGid, MinGid;
    FairSize(was, a);
    MoveListed(a);
    MoveSource(was, a);
    forall g | g in a.g2s
      ensures Lost(was, Move(a).own, g) == Lost(was, a.own, g) + (if g == MaxGid(a.g2s) then 1 else 0)
      ensures Gained(was, Move(a).own, g) == Gained(was, a.own, g) + (if g == MinGid(a.g2s) then 1 else 0)
      ensures |Move(a).g2s[g]| ==
        |a.g2s[g]| + (if g == MinGid(a.g2s) then 1 else 0) - (if g == MaxGid(a.g2s) then 1 else 0)
      ensures |Move(a).g2s[g]| == Count(Move(a).own, g)
    {
      MoveCounts(was, a, g);
    }
    assert Sized(Move(a)) by { SizedIs(Move(a)); }
  }

  lemma SizedIs(a: Alloc)
    requires forall g :: g in a.g2s ==> |a.g2s[g]| == Count(a.own, g)
    ensures Sized(a)
  {
  }

  /** Every move is a new one: there cannot be more of them than shards. */
  lemma MoveMoves(was: seq<int>, a: Alloc)
    requires Fair(was, a) && a.g2s.Keys != {} && !Balanced(a.g2s)
    ensures Moves(was, Move(a).own, a.g2s.Keys) == Moves(was, a.own, a.g2s.Keys) + 1
  {
    hide Fair;
    MoveSource(was, a);
    FairSize(was, a);
    ReassignMoves(was, a.own, a.g2s[MaxGid(a.g2s)][0], MinGid(a.g2s), a.g2s.Keys);
  }

  /** As many moves as there are shards suffice to even out the groups. */
  lemma {:induction false} EvenFair(was: seq<int>, a: Alloc, k: nat)
    requires Fair(was, a) && a.g2s.Keys != {} && Listed(a)
    requires Moves(was, a.own, a.g2s.Keys) + k >= |a.own|
    requires forall j :: 0 <= j < |a.own| ==> a.own[j] in a.g2s
    ensures Fair(was, Even(a, k)) && Balanced(Even(a, k).g2s)
    ensures forall j :: 0 <= j < |a.own| ==> Even(a, k).own[j] in a.g2s
    decreases k
  {
    hide Fair, Balanced, Listed, Moves;
    FairSize(was, a);
    if !Balanced(a.g2s) {
      MoveFair(was, a);
      MoveMoves(was, a);
      MoveListed(a);
      EvenFair(was, Move(a), k - 1);
    }
  }

  /** The result comes from a fair allocation that is balanced. */
  lemma ReallocatedFair(own: seq<int>, keys: set<int>) returns (a: Alloc)
    requires keys != {}
    ensures a.own == Reallocated(own, keys) && a.g2s.Keys == keys
    ensures Fair(own, a) && Balanced(a.g2s)
    ensures forall j :: 0 <= j < |own| ==> a.own[j] in keys
  {
    hide Fair, Balanced, Listed;
    SurvivorsListed(own, keys);
    SurvivorsFair(own, keys);
    var a0 := Survivors(own, keys);
    forall g | g in keys
      ensures Lost(own, own, g) == 0
    {
      NothingChanged(own, g);
    }
    PlaceListed(a0, 0);
    PlaceFair(own, a0, 0);
    EvenFair(own, Place(a0, 0), |own|);
    a := Even(Place(a0, 0), |own|);
  }

  // ---------- What is promised about the result

  /** Group sizes differ by at most one. */
  ghost predicate IsEven(own: seq<int>, keys: set<int>) {
    forall g, h :: g in keys && h in keys ==> Count(own, g) <= Count(own, h) + 1
  }

  /** Every shard belongs to an existing group and the groups are even; with no group, to none. */
  lemma ReallocatedIsBalanced(own: seq<int>, keys: set<int>)
    ensures keys == {} ==> forall s :: 0 <= s < |own| ==> Reallocated(own, keys)[s] == 0
    ensures keys != {} ==> forall s :: 0 <= s < |own| ==> Reallocated(own, keys)[s] in keys
    ensures IsEven(Reallocated(own, keys), keys)
  {
    if keys != {} {
      var a := ReallocatedFair(own, keys);
    }
  }

  /** No group both receives and gives up a shard. */
  lemma NoGroupGivesAndTakes(own: seq<int>, keys: set<int>, g: int)
    requires g in keys
    ensures Lost(own, Reallocated(own, keys), g) == 0 || Gained(own, Reallocated(own, keys), g) == 0
  {
    var a := ReallocatedFair(own, keys);
  }

  lemma {:induction false} LostAt(was: seq<int>, own: seq<int>, s: nat)
    requires |was| == |own| && s < |own| && was[s] != own[s]
    ensures Lost(was, own, was[s]) > 0 && Gained(was, own, own[s]) > 0
  {
    var k := |own| - 1;
    if s < k {
      LostAt(was[..k], own[..k], s);
    }
  }

  /** A shard of an existing group moves only to a group that had at least two shards fewer. */
  lemma MovesDownhill(own: seq<int>, keys: set<int>, s: nat)
    requires s < |own| && own[s] in keys && Reallocated(own, keys)[s] != own[s]
    ensures Reallocated(own, keys)[s] in keys
    ensures Count(own, Reallocated(own, keys)[s]) + 2 <= Count(own, own[s])
  {
    var a := ReallocatedFair(own, keys);
    var g, h := own[s], a.own[s];
    LostAt(own, a.own, s);
    CountsAdd(own, a.own, g);
    CountsAdd(own, a.own, h);
  }

  /** Joining groups to an even configuration moves shards to the new groups only. */
  lemma JoinMovesOnlyToNewGroups(own: seq<int>, before: set<int>, keys: set<int>, s: nat)
    requires before <= keys && IsEven(own, before) && (forall j :: 0 <= j < |own| ==> own[j] in before)
    requires s < |own| && Reallocated(own, keys)[s] != own[s]
    ensures Reallocated(own, keys)[s] in keys - before
  {
    MovesDownhill(own, keys, s);
  }

  /** Leaving an even configuration moves the shards of the groups that left only. */
  lemma LeaveMovesOnlyOrphans(own: seq<int>, before: set<int>, keys: set<int>, s: nat)
    requires keys <= before && IsEven(own, before)
    requires s < |own| && own[s] in keys
    ensures Reallocated(own, keys)[s] == own[s]
  {
    if Reallocated(own, keys)[s] != own[s] {
      MovesDownhill(own, keys, s);
    }
  }

  // ---------- No balanced assignment moves fewer shards

  function Sum(a: seq<int>): int {
    if a == [] then 0 else Sum(a[..|a| - 1]) + a[|a| - 1]
  }

  lemma {:induction false} SumBump(a: seq<int>, j: nat)
    requires j < |a|
    ensures Sum(a[j := a[j] + 1]) == Sum(a) + 1
  {
    var k := |a| - 1;
    if j < k {
      SumBump(a[..k], j);
      assert a[j := a[j] + 1][..k] == a[..k][j := a[j] + 1];
    } else {
      assert a[j := a[j] + 1][..k] == a[..k];
    }
  }

  lemma {:induction false} SumLe(a: seq<int>, b: seq<int>)
    requires |a| == |b| && forall i :: 0 <= i < |a| ==> a[i] <= b[i]
    ensures Sum(a) <= Sum(b)
    ensures (exists i :: 0 <= i < |a| && a[i] < b[i]) ==> Sum(a) < Sum(b)
  {
    if a != [] {
      SumLe(a[..|a| - 1], b[..|a| - 1]);
    }
  }

  lemma {:induction false} SumAdd(a: seq<int>, b: seq<int>, c: seq<int>)
    requires |a| == |b| == |c| && forall i :: 0 <= i < |a| ==> c[i] == a[i] + b[i]
    ensures Sum(c) == Sum(a) + Sum(b)
  {
    if a != [] {
      SumAdd(a[..|a| - 1], b[..|a| - 1], c[..|a| - 1]);
    }
  }

  lemma {:induction false} Enumerate(keys: set<int>) returns (ks: seq<int>)
    ensures Distinct(ks) && forall g :: g in ks <==> g in keys
    decreases |keys|
  {
    if keys == {} {
      ks := [];
    } else {
      var x := Pick(keys);
      ks := Enumerate(keys - {x});
      ks := ks + [x];
    }
  }

  function Counts(own: seq<int>, ks: seq<int>): (r: seq<int>)
    ensures |r| == |ks| && forall i :: 0 <= i < |ks| ==> r[i] == Count(own, ks[i])
  {
    seq(|ks|, i requires 0 <= i < |ks| => Count(own, ks[i]))
  }

  function Losses(was: seq<int>, own: seq<int>, ks: seq<int>): (r: seq<int>)
    requires |was| == |own|
    ensures |r| == |ks| && forall i :: 0 <= i < |ks| ==> r[i] == Lost(was, own, ks[i])
  {
    seq(|ks|, i requires 0 <= i < |ks| => Lost(was, own, ks[i]))
  }

  lemma {:induction false} AllZero(a: seq<int>)
    requires forall i :: 0 <= i < |a| ==> a[i] == 0
    ensures Sum(a) == 0
  {
    if a != [] {
      AllZero(a[..|a| - 1]);
    }
  }

  lemma {:induction false} SumOfCounts(own: seq<int>, ks: seq<int>)
    requires Distinct(ks) && forall s :: 0 <= s < |own| ==> own[s] in ks
    ensures Sum(Counts(own, ks)) == |own|
  {
    if own == [] {
      AllZero(Counts(own, ks));
    } else {
      var k := |own| - 1;
      SumOfCounts(own[..k], ks);
      var j :| 0 <= j < |ks| && ks[j] == own[k];
      var less := Counts(own[..k], ks);
      SumBump(less, j);
      assert Counts(own, ks) == less[j := less[j] + 1];
    }
  }

  lemma {:induction false} SumOfLosses(was: seq<int>, own: seq<int>, ks: seq<int>, keys: set<int>)
    requires |was| == |own| && Distinct(ks) && forall g :: g in ks <==> g in keys
    ensures Sum(Losses(was, own, ks)) == Moves(was, own, keys)
  {
    if own == [] {
      AllZero(Losses(was, own, ks));
    } else {
      var k := |own| - 1;
      SumOfLosses(was[..k], own[..k], ks, keys);
      var less := Losses(was[..k], own[..k], ks);
      if was[k] in keys && own[k] != was[k] {
        var j :| 0 <= j < |ks| && ks[j] == was[k];
        SumBump(less, j);
        assert Losses(was, own, ks) == less[j := less[j] + 1];
      } else {
        assert Losses(was, own, ks) == less;
      }
    }
  }

  predicate Level(d: seq<int>) {
    forall i, j :: 0 <= i < |d| && 0 <= j < |d| ==> d[i] <= d[j] + 1
  }

  /** Level sequences of the same sum have the same minimum. */
  lemma SameFloor(d: seq<int>, f: seq<int>, m: nat)
    requires |d| == |f| && Level(d) && Level(f) && Sum(d) == Sum(f)
    requires m < |d| && forall i :: 0 <= i < |d| ==> d[m] <= d[i]
    ensures forall i :: 0 <= i < |f| ==> d[m] <= f[i] <= d[m] + 1
  {
    if i :| 0 <= i < |f| && f[i] < d[m] {
      assert forall j :: 0 <= j < |f| ==> f[j] <= d[j];
      SumLe(f, d);
      assert false;
    }
    if i :| 0 <= i < |f| && f[i] > d[m] + 1 {
      assert forall j :: 0 <= j < |f| ==> d[j] <= f[j];
      SumLe(d, f);
      assert false;
    }
  }

  function Over(x: int, y: int): int {
    if x > y then x - y else 0
  }

  /** The part of each count that exceeds a common level. */
  function Excess(c: seq<int>, q: int): (r: seq<int>)
    ensures |r| == |c| && forall i :: 0 <= i < |c| ==> r[i] == Over(c[i], q)
  {
    seq(|c|, i requires 0 <= i < |c| => Over(c[i], q))
  }

  function Above(d: seq<int>, q: int): (r: seq<int>)
    ensures |r| == |d| && forall i :: 0 <= i < |d| ==> r[i] == d[i] - q
  {
    seq(|d|, i requires 0 <= i < |d| => d[i] - q)
  }

  lemma SumAbove(d: seq<int>, f: seq<int>, q: int)
    requires |d| == |f| && Sum(d) == Sum(f)
    ensures Sum(Above(d, q)) == Sum(Above(f, q))
  {
    SumShift(d, q);
    SumShift(f, q);
  }

  lemma {:induction false} SumShift(d: seq<int>, q: int)
    ensures Sum(Above(d, q)) == Sum(d) - |d| * q
  {
    if d != [] {
      SumShift(d[..|d| - 1], q);
      assert Above(d, q)[..|d| - 1] == Above(d[..|d| - 1], q);
    }
  }

  /**
   `c` are the counts before, `d` level counts after in which no group that grew is larger than one that
   shrank, `f` any other level counts: `d` costs no more than `f`.
   */
  lemma LevelCostsLeast(c: seq<int>, d: seq<int>, f: seq<int>, ld: seq<int>, lf: seq<int>)
    requires |c| == |d| == |f| == |ld| == |lf| > 0
    requires Level(d) && Level(f) && Sum(d) == Sum(f)
    requires forall i, j :: 0 <= i < |c| && 0 <= j < |c| && d[i] < c[i] && d[j] > c[j] ==> d[j] <= d[i]
    requires forall i :: 0 <= i < |c| ==> ld[i] == Over(c[i], d[i]) && lf[i] >= Over(c[i], f[i])
    ensures Sum(ld) <= Sum(lf)
  {
    var m := Lowest(d);
    var q := d[m];
    SameFloor(d, f, m);
    if exists i :: 0 <= i < |c| && d[i] < c[i] && d[i] == q {
      FloorCosts(c, d, f, ld, lf, q);
    } else {
      SumLe(ld, lf);
    }
  }

  lemma {:induction false} FloorCosts(c: seq<int>, d: seq<int>, f: seq<int>, ld: seq<int>, lf: seq<int>, q: int)
    requires |c| == |d| == |f| == |ld| == |lf| && Sum(d) == Sum(f)
    requires forall i :: 0 <= i < |c| ==> ld[i] + (d[i] - q) == Over(c[i], q) <= lf[i] + (f[i] - q)
    ensures Sum(ld) <= Sum(lf)
  {
    hide Over, Sum, Above, Excess, Added;
    var e, bound := Excess(c, q), Added(lf, Above(f, q));
    SumAdd(ld, Above(d, q), e);
    SumAdd(lf, Above(f, q), bound);
    SumLe(e, bound);
    SumAbove(d, f, q);
  }

  function Added(a: seq<int>, b: seq<int>): (r: seq<int>)
    requires |a| == |b|
    ensures |r| == |a| && forall i :: 0 <= i < |a| ==> r[i] == a[i] + b[i]
  {
    seq(|a|, i requires 0 <= i < |a| => a[i] + b[i])
  }

  lemma {:induction false} Lowest(d: seq<int>) returns (m: nat)
    requires |d| > 0
    ensures m < |d| && forall i :: 0 <= i < |d| ==> d[m] <= d[i]
  {
    if |d| == 1 {
      m := 0;
    } else {
      m := Lowest(d[..|d| - 1]);
      if d[|d| - 1] < d[m] {
        m := |d| - 1;
      }
    }
  }

  /**
   Among all even assignments to the same groups, the new one moves the fewest shards whose owner still
   exists.
   */
  lemma MovesFewest(own: seq<int>, keys: set<int>, other: seq<int>)
    requires |other| == |own| && IsEven(other, keys) && forall s :: 0 <= s < |other| ==> other[s] in keys
    ensures Moves(own, Reallocated(own, keys), keys) <= Moves(own, other, keys)
  {
    if keys == {} {
      NoneToMove(own, Reallocated(own, keys));
    } else {
      var ks := Enumerate(keys);
      SumOfLosses(own, other, ks, keys);
      SumOfLosses(own, Reallocated(own, keys), ks, keys);
      var a := ReallocatedFair(own, keys);
      assert |ks| > 0 by { var x := Pick(keys); assert x in ks; }
      SumOfCounts(other, ks);
      SumOfCounts(a.own, ks);
      FairIsCheap(own, a, other, ks);
    }
  }

  lemma {:induction false} NoneToMove(was: seq<int>, own: seq<int>)
    requires |was| == |own|
    ensures Moves(was, own, {}) == 0
  {
    if own != [] {
      NoneToMove(was[..|own| - 1], own[..|own| - 1]);
    }
  }

  lemma FairIsCheap(was: seq<int>, a: Alloc, other: seq<int>, ks: seq<int>)
    requires Fair(was, a) && Balanced(a.g2s) && |other| == |was| && |ks| > 0
    requires forall g :: g in ks <==> g in a.g2s
    requires IsEven(other, a.g2s.Keys)
    requires Sum(Counts(a.own, ks)) == Sum(Counts(other, ks))
    ensures Sum(Losses(was, a.own, ks)) <= Sum(Losses(was, other, ks))
  {
    var c, d, f := Counts(was, ks), Counts(a.own, ks), Counts(other, ks);
    forall i | 0 <= i < |ks|
      ensures |a.g2s[ks[i]]| == d[i]
      ensures Lost(was, a.own, ks[i]) == Over(c[i], d[i]) && Lost(was, other, ks[i]) >= Over(c[i], f[i])
      ensures d[i] > c[i] ==> Gained(was, a.own, ks[i]) > 0
    {
      assert ks[i] in a.g2s;
      CountsAdd(was, a.own, ks[i]);
      CountsAdd(was, other, ks[i]);
    }
    assert Level(f) by {
      forall i, j | 0 <= i < |f| && 0 <= j < |f|
        ensures f[i] <= f[j] + 1
      {
        assert ks[i] in a.g2s.Keys && ks[j] in a.g2s.Keys;
      }
    }
    forall i, j | 0 <= i < |c| && 0 <= j < |c|
      ensures d[i] <= d[j] + 1
      ensures d[i] < c[i] && d[j] > c[j] ==> d[j] <= d[i]
    {
      assert ks[i] in a.g2s && ks[j] in a.g2s;
    }
    LevelCostsLeast(c, d, f, Losses(was, a.own, ks), Losses(was, other, ks));
  }

  // ---------- The lists leave no shard out

  ghost predicate Complete(a: Alloc) {
    forall s :: 0 <= s < |a.own| && a.own[s] in a.g2s ==> s in a.g2s[a.own[s]]
  }

  lemma {:induction false} PositionsComplete(own: seq<int>, g: int, s: nat)
    requires s < |own| && own[s] == g
    ensures s in Positions(own, g)
  {
    var k := |own| - 1;
    if s < k {
      PositionsComplete(own[..k], g, s);
    }
  }

  lemma SurvivorsComplete(own: seq<int>, keys: set<int>)
    ensures Complete(Survivors(own, keys))
  {
    forall s | 0 <= s < |own| && own[s] in keys
      ensures s in Positions(own, own[s])
    {
      PositionsComplete(own, own[s], s);
    }
  }

  lemma AssignComplete(a: Alloc, i: nat, g: int)
    requires Complete(a) && i < |a.own| && a.own[i] !in a.g2s && g in a.g2s
    ensures Complete(Assign(a, i, g))
  {
  }

  lemma MoveComplete(a: Alloc)
    requires Complete(a) && Listed(a) && a.g2s.Keys != {} && !Balanced(a.g2s)
    ensures Complete(Move(a))
  {
    var source := MaxGid(a.g2s);
    var l := a.g2s[source];
    assert forall s :: s in l ==> s == l[0] || s in l[1..];
  }

  // ---------- Which shards a group gives up

  /**
   In each list the shards that were there from the start come first, in ascending order, and whoever has given up a
   shard has given up all its smaller ones.
   */
  ghost predicate InTurn(was: seq<int>, a: Alloc) {
    && |was| == |a.own| && Complete(a)
    && (forall g, i, j :: g in a.g2s && 0 <= i < j < |a.g2s[g]| && a.g2s[g][j] < |was| && was[a.g2s[g][j]] == g ==>
          a.g2s[g][i] < a.g2s[g][j])
    && (forall s, t :: 0 <= s < t < |was| && was[s] == was[t] && was[t] in a.g2s && a.own[t] != was[t] ==>
          a.own[s] != was[s])
  }

  lemma SurvivorsInTurn(own: seq<int>, keys: set<int>)
    ensures InTurn(own, Survivors(own, keys))
  {
    SurvivorsComplete(own, keys);
    forall g | g in keys
      ensures forall i, j :: 0 <= i < j < |Positions(own, g)| ==> Positions(own, g)[i] < Positions(own, g)[j]
    {
      PositionsListed(own, g);
    }
  }

  lemma {:induction false} PlaceInTurn(was: seq<int>, a: Alloc, i: nat)
    requires InTurn(was, a) && a.g2s.Keys != {} && i <= |a.own|
    requires forall j :: i <= j < |a.own| ==> a.own[j] == was[j]
    requires forall j :: 0 <= j < |was| && was[j] in a.g2s ==> a.own[j] == was[j]
    ensures InTurn(was, Place(a, i))
    decreases |a.own| - i
  {
    hide InTurn, MinGid;
    InTurnSize(was, a);
    if i < |a.own| {
      if a.own[i] in a.g2s {
        PlaceInTurn(was, a, i + 1);
      } else {
        AssignInTurn(was, a, i, MinGid(a.g2s));
        PlaceInTurn(was, Assign(a, i, MinGid(a.g2s)), i + 1);
      }
    }
  }

  lemma InTurnSize(was: seq<int>, a: Alloc)
    requires InTurn(was, a)
    ensures |was| == |a.own|
  {
  }

  lemma AssignInTurn(was: seq<int>, a: Alloc, i: nat, g: int)
    requires InTurn(was, a) && i < |a.own| && a.own[i] == was[i] && a.own[i] !in a.g2s && g in a.g2s
    ensures InTurn(was, Assign(a, i, g))
  {
    AssignComplete(a, i, g);
    hide Complete;
  }

  lemma FirstIsSmallest(was: seq<int>, a: Alloc, s: nat)
    requires InTurn(was, a) && s < |was| && was[s] == a.own[s] && a.own[s] in a.g2s
    ensures |a.g2s[a.own[s]]| > 0 && a.g2s[a.own[s]][0] <= s
  {
    var l := a.g2s[a.own[s]];
    var j :| 0 <= j < |l| && l[j] == s;
  }

  lemma MoveInTurn(was: seq<int>, a: Alloc)
    requires Fair(was, a) && InTurn(was, a) && a.g2s.Keys != {} && !Balanced(a.g2s)
    ensures Listed(a) && InTurn(was, Move(a))
  {
    hide Fair, Balanced, MaxGid, MinGid, Listed, Move, Complete;
    FairSize(was, a);
    MoveComplete(a);
    MoveGives(was, a);
    MoveOrders(was, a);
  }

  lemma MoveGives(was: seq<int>, a: Alloc)
    requires Fair(was, a) && InTurn(was, a) && a.g2s.Keys != {} && !Balanced(a.g2s) && Listed(a)
    ensures forall s, t :: 0 <= s < t < |was| && was[s] == was[t] && was[t] in a.g2s && Move(a).own[t] != was[t] ==>
      Move(a).own[s] != was[s]
  {
    hide Fair, Balanced, MaxGid, MinGid, Listed;
    MoveSource(was, a);
    var source, l := MaxGid(a.g2s), a.g2s[MaxGid(a.g2s)];
    forall s | 0 <= s < |was| && was[s] == a.own[s] == source
      ensures l[0] <= s
    {
      FirstIsSmallest(was, a, s);
    }
  }

  lemma MoveOrders(was: seq<int>, a: Alloc)
    requires Fair(was, a) && InTurn(was, a) && a.g2s.Keys != {} && !Balanced(a.g2s) && Listed(a)
    ensures var b := Move(a);
      forall g, i, j :: g in b.g2s && 0 <= i < j < |b.g2s[g]| && b.g2s[g][j] < |was| && was[b.g2s[g][j]] == g ==>
        b.g2s[g][i] < b.g2s[g][j]
  {
    hide Fair, Balanced, MaxGid, MinGid, Listed, Complete;
    MoveSource(was, a);
    var l := a.g2s[MaxGid(a.g2s)];
    assert forall j :: 0 <= j < |l| - 1 ==> l[1..][j] == l[j + 1];
  }

  lemma {:induction false} EvenInTurn(was: seq<int>, a: Alloc, k: nat)
    requires Fair(was, a) && InTurn(was, a) && a.g2s.Keys != {} && Listed(a)
    ensures InTurn(was, Even(a, k))
    decreases k
  {
    hide Fair, Balanced, InTurn, Listed, Move;
    if k > 0 && !Balanced(a.g2s) {
      MoveFair(was, a);
      MoveInTurn(was, a);
      MoveListed(a);
      EvenInTurn(was, Move(a), k - 1);
    }
  }

  /** A group that gives up shards gives up those with the smallest numbers. */
  lemma GivesSmallestFirst(own: seq<int>, keys: set<int>, s: nat, t: nat)
    requires s < t < |own| && own[s] == own[t] && own[t] in keys && Reallocated(own, keys)[t] != own[t]
    ensures Reallocated(own, keys)[s] != own[s]
  {
    var a0 := Survivors(own, keys);
    SurvivorsListed(own, keys);
    SurvivorsFair(own, keys);
    SurvivorsInTurn(own, keys);
    forall g | g in keys
      ensures Lost(own, own, g) == 0
    {
      NothingChanged(own, g);
    }
    hide Fair, Listed, Even, Place;
    PlaceListed(a0, 0);
    PlaceFair(own, a0, 0);
    PlaceInTurn(own, a0, 0);
    EvenInTurn(own, Place(a0, 0), |own|);
  }

  lemma {:induction false} CountBound(own: seq<int>, g: int)
    ensures Count(own, g) <= |own|
  {
    if own != [] {
      CountBound(own[..|own| - 1], g);
    }
  }
}
