/** Tier orders: a ranking of the raw values as a sequence of tiers.

    Tier 0 ranks lowest. The rank ("height") of a value is the index of the
    first tier that contains it. The built-in games are described by their
    groupings of display values, each group expanded to the raw values that
    xemmify into it. */
module Orders {
  import opened Transform

  type Order = seq<set<int>>

  /** A lookup either succeeds or reports the value no tier contains
      (calculator.js throws, calc.py raises). */
  datatype Result<T> = Ok(value: T) | NotRanked(missing: int)

  /** First-match search from tier `i` on. */
  function HeightFrom(order: Order, value: int, i: nat): (r: Result<nat>)
    requires i <= |order|
    ensures r.Ok? ==> i <= r.value < |order| && value in order[r.value]
    ensures r.Ok? ==> forall j :: i <= j < r.value ==> value !in order[j]
    ensures r.NotRanked? ==> r.missing == value && forall j :: i <= j < |order| ==> value !in order[j]
    decreases |order| - i
  {
    if i == |order| then NotRanked(value)
    else if value in order[i] then Ok(i)
    else HeightFrom(order, value, i + 1)
  }

  /** The rank of `value`: the least index of a tier holding it. */
  function GetHeight(order: Order, value: int): (r: Result<nat>)
    ensures r.Ok? ==> r.value < |order| && value in order[r.value]
    ensures r.Ok? ==> forall j :: 0 <= j < r.value ==> value !in order[j]
    ensures r.NotRanked? <==> forall j :: 0 <= j < |order| ==> value !in order[j]
    ensures r.NotRanked? ==> r.missing == value
  {
    HeightFrom(order, value, 0)
  }

  /** Every value in [0, n) has a rank. */
  ghost predicate RankedBelow(order: Order, n: int)
  {
    forall v :: 0 <= v < n ==> GetHeight(order, v).Ok?
  }

  /** Each value of [0, bound) lies in exactly one tier and no tier holds
      anything else. */
  ghost predicate IsPartition(order: Order, bound: int)
  {
    && (forall i, x :: 0 <= i < |order| && x in order[i] ==> 0 <= x < bound)
    && (forall x :: 0 <= x < bound ==> InSomeTier(order, x))
    && (forall i, j, x :: 0 <= i < j < |order| && x in order[i] ==> x !in order[j])
  }

  ghost predicate InSomeTier(order: Order, x: int)
  {
    exists i :: 0 <= i < |order| && x in order[i]
  }

  /** In a partition the rank of a value is the one tier that holds it. */
  lemma PartitionHeight(order: Order, bound: int, value: int, i: int)
    requires IsPartition(order, bound)
    requires 0 <= i < |order| && value in order[i]
    ensures GetHeight(order, value) == Ok(i)
  {
  }

  lemma PartitionRanksAll(order: Order, bound: int)
    requires IsPartition(order, bound)
    ensures RankedBelow(order, bound)
  {
    forall v | 0 <= v < bound
      ensures GetHeight(order, v).Ok?
    {
      assert InSomeTier(order, v);
      var i :| 0 <= i < |order| && v in order[i];
      PartitionHeight(order, bound, v, i);
    }
  }

  /** The host order of a game: the player order below one empty tier
      (calculator.js builds a new array, calc.py inserts in place). */
  function Hostify(order: Order): Order
  {
    [{}] + order
  }

  /** Hostifying raises every rank by one and ranks nothing new. */
  lemma HostifyHeight(order: Order, value: int)
    ensures GetHeight(Hostify(order), value) ==
      match GetHeight(order, value)
      case Ok(h) => Ok(h + 1)
      case NotRanked(v) => NotRanked(v)
  {
    assert value !in Hostify(order)[0];
    HeightFromShift(order, value, 0);
  }

  /** The search in the hostified order from tier i + 1 is the search in
      the original order from tier i. */
  lemma {:induction false} HeightFromShift(order: Order, value: int, i: nat)
    requires i <= |order|
    ensures HeightFrom(Hostify(order), value, i + 1) ==
      match HeightFrom(order, value, i)
      case Ok(h) => Ok(h + 1)
      case NotRanked(v) => NotRanked(v)
    decreases |order| - i
  {
    if i < |order| {
      assert Hostify(order)[i + 1] == order[i];
      HeightFromShift(order, value, i + 1);
    }
  }

  lemma HostifyPartition(order: Order, bound: int)
    requires IsPartition(order, bound)
    ensures IsPartition(Hostify(order), bound)
  {
    var host := Hostify(order);
    assert forall j :: 0 <= j < |order| ==> host[j + 1] == order[j];
    forall x | 0 <= x < bound
      ensures InSomeTier(host, x)
    {
      assert InSomeTier(order, x);
      var i :| 0 <= i < |order| && x in order[i];
      assert x in host[i + 1];
    }
  }

  // ---------------------------------------------------------------------
  // Display groupings of the built-in games

  /** The tiers named by groups of display values, each expanded to the raw
      values of [0, bound) that xemmify into the group. */
  function Expand(groups: seq<seq<int>>, bound: int, base: int): (order: Order)
    requires base >= 1
    ensures |order| == |groups|
    ensures forall i, x :: 0 <= i < |groups| ==>
      (x in order[i] <==> 0 <= x < bound && Xemmify(x, base) in groups[i])
  {
    seq(|groups|, i requires 0 <= i < |groups| => XemmifyPreimageOf(groups[i], bound, base))
  }

  /** Each display value of [0, base) is in exactly one group. */
  ghost predicate GroupsPartitionDigits(groups: seq<seq<int>>, base: int)
  {
    && (forall d :: 0 <= d < base ==> InSomeGroup(groups, d))
    && (forall i, j, d :: 0 <= i < j < |groups| && d in groups[i] ==> d !in groups[j])
  }

  ghost predicate InSomeGroup(groups: seq<seq<int>>, d: int)
  {
    exists i :: 0 <= i < |groups| && d in groups[i]
  }

  /** Groups that partition the display values expand to a partition of the
      raw values, whatever the bound. */
  lemma {:induction false} ExpandPartition(groups: seq<seq<int>>, bound: int, base: int)
    requires base >= 1
    requires GroupsPartitionDigits(groups, base)
    ensures IsPartition(Expand(groups, bound, base), bound)
  {
    var order := Expand(groups, bound, base);
    forall x | 0 <= x < bound
      ensures InSomeTier(order, x)
    {
      var d := Xemmify(x, base);
      assert InSomeGroup(groups, d);
      var i :| 0 <= i < |groups| && d in groups[i];
      assert x in order[i];
    }
  }

  lemma HostifyExpand(groups: seq<seq<int>>, bound: int, base: int)
    requires base >= 1
    ensures Hostify(Expand(groups, bound, base)) == Expand([[]] + groups, bound, base)
  {
    var a := Hostify(Expand(groups, bound, base));
    var b := Expand([[]] + groups, bound, base);
    forall i | 0 <= i < |a|
      ensures a[i] == b[i]
    {
      if i > 0 {
        assert ([[]] + groups)[i] == groups[i - 1];
      }
    }
  }

  /** Reme: display values 1, 2, …, base-1 and then 0, one per tier. */
  function RemePlayerGroups(base: int): (groups: seq<seq<int>>)
    requires base >= 1
  {
    seq(base - 1, i => [i + 1]) + [[0]]
  }

  const JemePlayerGroups: seq<seq<int>> := [[2, 3, 4, 5], [6], [7], [8], [9], [0, 1]]
  const LemePlayerGroups: seq<seq<int>> := [[2, 9], [3], [4], [5], [6], [7], [8], [1, 0]]
  const LemeHostGroups: seq<seq<int>> := [[], [2], [3], [4], [5], [6], [7], [8, 9], [1, 0]]

  /** Groups are disjoint when each display value determines the one group
      that may hold it. */
  lemma DisjointByTier(groups: seq<seq<int>>, tier: int -> int)
    requires forall i, d :: 0 <= i < |groups| && d in groups[i] ==> tier(d) == i
    ensures forall i, j, d :: 0 <= i < j < |groups| && d in groups[i] ==> d !in groups[j]
  {
    forall i, j, d | 0 <= i < j < |groups| && d in groups[i]
      ensures d !in groups[j]
    {
      assert tier(d) == i;
    }
  }

  lemma {:induction false} RemeGroupsPartition(base: int)
    requires base >= 1
    ensures GroupsPartitionDigits(RemePlayerGroups(base), base)
    ensures GroupsPartitionDigits([[]] + RemePlayerGroups(base), base)
  {
    var g := RemePlayerGroups(base);
    assert forall i :: 0 <= i < base - 1 ==> g[i] == [i + 1];
    assert g[base - 1] == [0];
    forall d | 0 <= d < base
      ensures InSomeGroup(g, d)
    {
      if d == 0 {
        assert d in g[base - 1];
      } else {
        assert d in g[d - 1];
      }
    }
    DisjointByTier(g, d => if d == 0 then base - 1 else d - 1);
    HostGroupsPartition(g, base);
  }

  lemma {:induction false} HostGroupsPartition(groups: seq<seq<int>>, base: int)
    requires GroupsPartitionDigits(groups, base)
    ensures GroupsPartitionDigits([[]] + groups, base)
  {
    var h := [[]] + groups;
    assert forall i :: 0 <= i < |groups| ==> h[i + 1] == groups[i];
    forall d | 0 <= d < base
      ensures InSomeGroup(h, d)
    {
      assert InSomeGroup(groups, d);
      var i :| 0 <= i < |groups| && d in groups[i];
      assert d in h[i + 1];
    }
  }

  lemma {:induction false} JemeGroupsPartition()
    ensures GroupsPartitionDigits(JemePlayerGroups, BASE)
    ensures GroupsPartitionDigits([[]] + JemePlayerGroups, BASE)
  {
    var g := JemePlayerGroups;
    forall d | 0 <= d < BASE
      ensures InSomeGroup(g, d)
    {
      if 2 <= d <= 5 { assert d in g[0]; }
      else if d <= 1 { assert d in g[5]; }
      else { assert d in g[d - 5]; }
    }
    var tier := d => if 2 <= d <= 5 then 0 else if d <= 1 then 5 else d - 5;
    forall i, d | 0 <= i < |g| && d in g[i]
      ensures tier(d) == i
    {
      if 1 <= i <= 4 { assert g[i] == [i + 5]; }
    }
    DisjointByTier(g, tier);
    HostGroupsPartition(g, BASE);
  }

  lemma {:induction false} LemeGroupsPartition()
    ensures GroupsPartitionDigits(LemePlayerGroups, BASE)
    ensures GroupsPartitionDigits(LemeHostGroups, BASE)
  {
    var g := LemePlayerGroups;
    forall d | 0 <= d < BASE
      ensures InSomeGroup(g, d)
    {
      if d == 2 || d == 9 { assert d in g[0]; }
      else if d <= 1 { assert d in g[7]; }
      else { assert d in g[d - 2]; }
    }
    var tier := d => if d == 2 || d == 9 then 0 else if d <= 1 then 7 else d - 2;
    forall i, d | 0 <= i < |g| && d in g[i]
      ensures tier(d) == i
    {
      if 1 <= i <= 6 { assert g[i] == [i + 2]; }
    }
    DisjointByTier(g, tier);
    var h := LemeHostGroups;
    forall d | 0 <= d < BASE
      ensures InSomeGroup(h, d)
    {
      if d == 8 || d == 9 { assert d in h[7]; }
      else if d <= 1 { assert d in h[8]; }
      else { assert d in h[d - 1]; }
    }
    var hostTier := d => if d == 8 || d == 9 then 7 else if d <= 1 then 8 else d - 1;
    forall i, d | 0 <= i < |h| && d in h[i]
      ensures hostTier(d) == i
    {
      if 1 <= i <= 6 { assert h[i] == [i + 1]; }
    }
    DisjointByTier(h, hostTier);
  }

  // ---------------------------------------------------------------------
  // Builders (calculator.js pushes each tier onto a fresh array)

  method MakeRemePlayerOrder(bound: int, base: int) returns (order: Order)
    requires base >= 1
    ensures order == Expand(RemePlayerGroups(base), bound, base)
    ensures |order| == base
  {
    order := [];
    for i := 1 to base
      invariant |order| == i - 1
      invariant forall k :: 0 <= k < i - 1 ==> order[k] == XemmifyPreimage(k + 1, bound, base)
    {
      var tier := InverseXemmify(i, bound, base);
      order := order + [tier];
    }
    var zero := InverseXemmify(0, bound, base);
    order := order + [zero];
    ExpandSingletons(order, RemePlayerGroups(base), bound, base);
  }

  /** Tiers built one display value at a time agree with the groupings. */
  lemma ExpandSingletons(order: Order, groups: seq<seq<int>>, bound: int, base: int)
    requires base >= 1
    requires |order| == |groups|
    requires forall k :: 0 <= k < |groups| ==> |groups[k]| == 1 && order[k] == XemmifyPreimage(groups[k][0], bound, base)
    ensures order == Expand(groups, bound, base)
  {
    var e := Expand(groups, bound, base);
    forall k | 0 <= k < |groups|
      ensures order[k] == e[k]
    {
      assert groups[k] == [groups[k][0]];
    }
  }

  method MakeRemeHostOrder(bound: int, base: int) returns (order: Order)
    requires base >= 1
    ensures order == Expand([[]] + RemePlayerGroups(base), bound, base)
    ensures order == Hostify(Expand(RemePlayerGroups(base), bound, base))
  {
    var player := MakeRemePlayerOrder(bound, base);
    order := Hostify(player);
    HostifyExpand(RemePlayerGroups(base), bound, base);
  }

  method MakeJemePlayerOrder(bound: int) returns (order: Order)
    ensures order == Expand(JemePlayerGroups, bound, BASE)
  {
    order := [];
    var low := InverseXemmifyMulti([2, 3, 4, 5], bound, BASE);
    order := order + [low];
    for i := 6 to 10
      invariant |order| == i - 5
      invariant order[0] == XemmifyPreimageOf(JemePlayerGroups[0], bound, BASE)
      invariant forall k :: 1 <= k < i - 5 ==> order[k] == XemmifyPreimage(k + 5, bound, BASE)
    {
      var tier := InverseXemmify(i, bound, BASE);
      order := order + [tier];
    }
    var high := InverseXemmifyMulti([0, 1], bound, BASE);
    order := order + [high];
    var e := Expand(JemePlayerGroups, bound, BASE);
    forall k | 1 <= k < 5
      ensures order[k] == e[k]
    {
      assert JemePlayerGroups[k] == [k + 5];
    }
  }

  method MakeJemeHostOrder(bound: int) returns (order: Order)
    ensures order == Expand([[]] + JemePlayerGroups, bound, BASE)
    ensures order == Hostify(Expand(JemePlayerGroups, bound, BASE))
  {
    var player := MakeJemePlayerOrder(bound);
    order := Hostify(player);
    HostifyExpand(JemePlayerGroups, bound, BASE);
  }

  method MakeLemePlayerOrder(bound: int) returns (order: Order)
    ensures order == Expand(LemePlayerGroups, bound, BASE)
  {
    order := [];
    var low := InverseXemmifyMulti([2, 9], bound, BASE);
    order := order + [low];
    for i := 3 to 9
      invariant |order| == i - 2
      invariant order[0] == XemmifyPreimageOf(LemePlayerGroups[0], bound, BASE)
      invariant forall k :: 1 <= k < i - 2 ==> order[k] == XemmifyPreimage(k + 2, bound, BASE)
    {
      var tier := InverseXemmify(i, bound, BASE);
      order := order + [tier];
    }
    var high := InverseXemmifyMulti([1, 0], bound, BASE);
    order := order + [high];
    var e := Expand(LemePlayerGroups, bound, BASE);
    forall k | 1 <= k < 7
      ensures order[k] == e[k]
    {
      assert LemePlayerGroups[k] == [k + 2];
    }
  }

  method MakeLemeHostOrder(bound: int) returns (order: Order)
    ensures order == Expand(LemeHostGroups, bound, BASE)
  {
    order := [{}];
    for i := 2 to 8
      invariant |order| == i - 1
      invariant order[0] == {}
      invariant forall k :: 1 <= k < i - 1 ==> order[k] == XemmifyPreimage(k + 1, bound, BASE)
    {
      var tier := InverseXemmify(i, bound, BASE);
      order := order + [tier];
    }
    var upper := InverseXemmifyMulti([8, 9], bound, BASE);
    order := order + [upper];
    var top := InverseXemmifyMulti([1, 0], bound, BASE);
    order := order + [top];
    var e := Expand(LemeHostGroups, bound, BASE);
    forall k | 0 <= k < 7
      ensures order[k] == e[k]
    {
      if k > 0 {
        assert LemeHostGroups[k] == [k + 1];
      }
    }
  }

  /** Every built-in order partitions [0, bound) for any bound: each raw
      value has exactly one rank. */
  lemma BuiltInOrdersPartition(bound: int)
    ensures IsPartition(Expand(RemePlayerGroups(BASE), bound, BASE), bound)
    ensures IsPartition(Expand([[]] + RemePlayerGroups(BASE), bound, BASE), bound)
    ensures IsPartition(Expand(JemePlayerGroups, bound, BASE), bound)
    ensures IsPartition(Expand([[]] + JemePlayerGroups, bound, BASE), bound)
    ensures IsPartition(Expand(LemePlayerGroups, bound, BASE), bound)
    ensures IsPartition(Expand(LemeHostGroups, bound, BASE), bound)
  {
    RemeGroupsPartition(BASE);
    JemeGroupsPartition();
    LemeGroupsPartition();
    ExpandPartition(RemePlayerGroups(BASE), bound, BASE);
    ExpandPartition([[]] + RemePlayerGroups(BASE), bound, BASE);
    ExpandPartition(JemePlayerGroups, bound, BASE);
    ExpandPartition([[]] + JemePlayerGroups, bound, BASE);
    ExpandPartition(LemePlayerGroups, bound, BASE);
    ExpandPartition(LemeHostGroups, bound, BASE);
  }
}
