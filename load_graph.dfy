/**
  The carried-parts graph of a figure as plain values, and what the load
  traversal of Assets/Scripts/RagdollSet.cs is meant to compute on it: the
  recursive load equation, the set of parts a root reaches, and the order
  in which the parts are calculated.
 */
module LoadGraph {
  import opened Wrappers
  import opened UnityMath
  import opened Muscles

  /** The authored load data of one part: its body's mass, its factors and its carried entries (arena indices). */
  datatype PartSpec = PartSpec(mass: real, influence: real, leverage: real, torqueK: real, carried: seq<Option<int>>)

  /** Every non-null carried entry names a part of the graph. */
  ghost predicate WellFormed(g: seq<PartSpec>)
  {
    forall i, j :: 0 <= i < |g| && 0 <= j < |g[i].carried| && g[i].carried[j].Some? ==>
      0 <= g[i].carried[j].value < |g|
  }

  /** `rank` strictly decreases from a part to each part it carries: the graph has no cycle. */
  ghost predicate RankedBy(g: seq<PartSpec>, rank: seq<nat>)
  {
    && WellFormed(g)
    && |rank| == |g|
    && forall i, j :: 0 <= i < |g| && 0 <= j < |g[i].carried| && g[i].carried[j].Some? ==>
         rank[g[i].carried[j].value] < rank[i]
  }

  /** The load equation: own mass plus the influence factor times the totals of the carried parts. */
  ghost function Total(g: seq<PartSpec>, rank: seq<nat>, i: int): real
    requires RankedBy(g, rank) && 0 <= i < |g|
    decreases rank[i], 1, 0
  {
    g[i].mass + g[i].influence * ChildTotals(g, rank, i, |g[i].carried|)
  }

  /** The sum of the totals of the first `k` carried entries of part `i`, null entries left out. */
  ghost function ChildTotals(g: seq<PartSpec>, rank: seq<nat>, i: int, k: nat): real
    requires RankedBy(g, rank) && 0 <= i < |g| && k <= |g[i].carried|
    decreases rank[i], 0, k
  {
    if k == 0 then 0.0
    else
      ChildTotals(g, rank, i, k - 1) +
      match g[i].carried[k - 1]
      case None => 0.0
      case Some(c) => Total(g, rank, c)
  }

  /** The torque factor the load equation's total gives part `i`. */
  ghost function Factor(g: seq<PartSpec>, rank: seq<nat>, i: int): real
    requires RankedBy(g, rank) && 0 <= i < |g|
  {
    LoadFactor(g[i].torqueK, Total(g, rank, i), g[i].leverage, g[i].mass)
  }

  /** Part `i` and every part reachable from it through non-null carried entries. */
  ghost function Reach(g: seq<PartSpec>, rank: seq<nat>, i: int): set<int>
    requires RankedBy(g, rank) && 0 <= i < |g|
    decreases rank[i], 1, 0
  {
    {i} + ReachChildren(g, rank, i, |g[i].carried|)
  }

  ghost function ReachChildren(g: seq<PartSpec>, rank: seq<nat>, i: int, k: nat): set<int>
    requires RankedBy(g, rank) && 0 <= i < |g| && k <= |g[i].carried|
    decreases rank[i], 0, k
  {
    if k == 0 then {}
    else
      ReachChildren(g, rank, i, k - 1) +
      match g[i].carried[k - 1]
      case None => {}
      case Some(c) => Reach(g, rank, c)
  }

  /** The parts reachable from a root entry; a null root reaches nothing. */
  ghost function ReachFrom(g: seq<PartSpec>, rank: seq<nat>, root: Option<int>): set<int>
    requires RankedBy(g, rank) && (root.Some? ==> 0 <= root.value < |g|)
  {
    match root
    case None => {}
    case Some(r) => Reach(g, rank, r)
  }

  /** The parts reachable from any of the roots. */
  ghost function ReachRoots(g: seq<PartSpec>, rank: seq<nat>, roots: seq<Option<int>>): set<int>
    requires RankedBy(g, rank)
    requires forall k :: 0 <= k < |roots| && roots[k].Some? ==> 0 <= roots[k].value < |g|
    decreases |roots|
  {
    if roots == [] then {}
    else ReachRoots(g, rank, roots[..|roots| - 1]) + ReachFrom(g, rank, roots[|roots| - 1])
  }

  /** Every carried entry of a part in `s` names a part in `s`. */
  ghost predicate Closed(g: seq<PartSpec>, s: set<int>)
  {
    forall i, j :: i in s && 0 <= i < |g| && 0 <= j < |g[i].carried| && g[i].carried[j].Some? ==>
      g[i].carried[j].value in s
  }

  /** No part occurs twice. */
  ghost predicate Distinct(order: seq<int>)
  {
    forall a, b :: 0 <= a < b < |order| ==> order[a] != order[b]
  }

  /** Each part occurs after every part it carries. */
  ghost predicate PostOrder(g: seq<PartSpec>, order: seq<int>)
  {
    forall k, j :: 0 <= k < |order| && 0 <= order[k] < |g| && 0 <= j < |g[order[k]].carried| && g[order[k]].carried[j].Some? ==>
      g[order[k]].carried[j].value in order[..k]
  }

  /** Everything reached lies in the graph and has a rank no higher than where the walk started. */
  lemma {:induction false} ReachBelow(g: seq<PartSpec>, rank: seq<nat>, i: int, x: int)
    requires RankedBy(g, rank) && 0 <= i < |g|
    requires x in Reach(g, rank, i)
    ensures 0 <= x < |g| && rank[x] <= rank[i]
    decreases rank[i], 1, 0
  {
    if x != i {
      ReachChildrenBelow(g, rank, i, |g[i].carried|, x);
    }
  }

  lemma {:induction false} ReachChildrenBelow(g: seq<PartSpec>, rank: seq<nat>, i: int, k: nat, x: int)
    requires RankedBy(g, rank) && 0 <= i < |g| && k <= |g[i].carried|
    requires x in ReachChildren(g, rank, i, k)
    ensures 0 <= x < |g| && rank[x] < rank[i]
    decreases rank[i], 0, k
  {
    if x in ReachChildren(g, rank, i, k - 1) {
      ReachChildrenBelow(g, rank, i, k - 1, x);
    } else {
      var c := g[i].carried[k - 1].value;
      ReachBelow(g, rank, c, x);
    }
  }

  /** One more carried entry adds what that entry reaches. */
  lemma ReachChildrenSnoc(g: seq<PartSpec>, rank: seq<nat>, i: int, k: nat)
    requires RankedBy(g, rank) && 0 <= i < |g| && k < |g[i].carried|
    ensures ReachChildren(g, rank, i, k + 1) == ReachChildren(g, rank, i, k) + ReachFrom(g, rank, g[i].carried[k])
  {
  }

  /** Every non-null carried entry among the first `k` is reached. */
  lemma {:induction false} ChildrenReached(g: seq<PartSpec>, rank: seq<nat>, i: int, k: nat, j: nat)
    requires RankedBy(g, rank) && 0 <= i < |g| && j < k <= |g[i].carried|
    requires g[i].carried[j].Some?
    ensures g[i].carried[j].value in ReachChildren(g, rank, i, k)
    decreases k
  {
    if j < k - 1 {
      ChildrenReached(g, rank, i, k - 1, j);
    }
  }

  /** A closed set that holds a part holds everything the part reaches. */
  lemma {:induction false} ReachWithinClosed(g: seq<PartSpec>, rank: seq<nat>, s: set<int>, i: int)
    requires RankedBy(g, rank) && 0 <= i < |g| && Closed(g, s) && i in s
    ensures Reach(g, rank, i) <= s
    decreases rank[i], 1, 0
  {
    ReachChildrenWithinClosed(g, rank, s, i, |g[i].carried|);
  }

  lemma {:induction false} ReachChildrenWithinClosed(g: seq<PartSpec>, rank: seq<nat>, s: set<int>, i: int, k: nat)
    requires RankedBy(g, rank) && 0 <= i < |g| && k <= |g[i].carried| && Closed(g, s) && i in s
    ensures ReachChildren(g, rank, i, k) <= s
    decreases rank[i], 0, k
  {
    if k > 0 {
      ReachChildrenWithinClosed(g, rank, s, i, k - 1);
      match g[i].carried[k - 1]
      case None =>
      case Some(c) => ReachWithinClosed(g, rank, s, c);
    }
  }

  /** The reached set is itself closed. */
  lemma {:induction false} ReachClosed(g: seq<PartSpec>, rank: seq<nat>, i: int)
    requires RankedBy(g, rank) && 0 <= i < |g|
    ensures Closed(g, Reach(g, rank, i))
    decreases rank[i], 1, 0
  {
    var r := Reach(g, rank, i);
    forall x, j | x in r && 0 <= x < |g| && 0 <= j < |g[x].carried| && g[x].carried[j].Some?
      ensures g[x].carried[j].value in r
    {
      if x == i {
        ChildrenReached(g, rank, i, |g[i].carried|, j);
      } else {
        var k := ReachChildrenWitness(g, rank, i, |g[i].carried|, x);
        var c := g[i].carried[k].value;
        ReachClosed(g, rank, c);
        ReachChildrenMonotone(g, rank, i, k + 1, |g[i].carried|);
      }
    }
  }

  /** A part reached through the first `k` entries is reached through one particular entry. */
  lemma {:induction false} ReachChildrenWitness(g: seq<PartSpec>, rank: seq<nat>, i: int, k: nat, x: int) returns (w: nat)
    requires RankedBy(g, rank) && 0 <= i < |g| && k <= |g[i].carried|
    requires x in ReachChildren(g, rank, i, k)
    ensures w < k && g[i].carried[w].Some? && x in Reach(g, rank, g[i].carried[w].value)
    ensures Reach(g, rank, g[i].carried[w].value) <= ReachChildren(g, rank, i, w + 1)
    decreases k
  {
    if x in ReachChildren(g, rank, i, k - 1) {
      w := ReachChildrenWitness(g, rank, i, k - 1, x);
    } else {
      w := k - 1;
    }
  }

  lemma {:induction false} ReachChildrenMonotone(g: seq<PartSpec>, rank: seq<nat>, i: int, k: nat, n: nat)
    requires RankedBy(g, rank) && 0 <= i < |g| && k <= n <= |g[i].carried|
    ensures ReachChildren(g, rank, i, k) <= ReachChildren(g, rank, i, n)
    decreases n
  {
    if k < n {
      ReachChildrenMonotone(g, rank, i, k, n - 1);
    }
  }

  /** What `CalculateTotalLoadAndFactor` reads from the carried entries once each carried part holds its own total. */
  ghost function SpecLoads(g: seq<PartSpec>, rank: seq<nat>, i: int): (loads: seq<CarriedLoad>)
    requires RankedBy(g, rank) && 0 <= i < |g|
    ensures |loads| == |g[i].carried|
    ensures NoSelfCarry(loads)
  {
    seq(|g[i].carried|, j requires 0 <= j < |g[i].carried| =>
      match g[i].carried[j]
      case None => Absent
      case Some(c) => Part(Total(g, rank, c)))
  }

  lemma {:induction false} CarriedSumIsChildTotals(g: seq<PartSpec>, rank: seq<nat>, i: int, k: nat)
    requires RankedBy(g, rank) && 0 <= i < |g| && k <= |g[i].carried|
    ensures CarriedSum(SpecLoads(g, rank, i)[..k]) == ChildTotals(g, rank, i, k)
    decreases k
  {
    if k > 0 {
      var loads := SpecLoads(g, rank, i);
      assert loads[..k][..k - 1] == loads[..k - 1];
      CarriedSumIsChildTotals(g, rank, i, k - 1);
    }
  }

  /**
    One calculation of part `i`, run after every carried part holds the total of
    the load equation, yields the load equation's total for `i` as well.
   */
  lemma TotalIsAccumulate(g: seq<PartSpec>, rank: seq<nat>, i: int)
    requires RankedBy(g, rank) && 0 <= i < |g|
    ensures Accumulate(g[i].mass, g[i].influence, SpecLoads(g, rank, i)) == Total(g, rank, i)
  {
    var loads := SpecLoads(g, rank, i);
    AccumulateIsWeightedSum(g[i].mass, g[i].influence, loads);
    CarriedSumIsChildTotals(g, rank, i, |loads|);
    assert loads[..|loads|] == loads;
  }

  /** With non-negative masses and influence factors every total is at least the part's own mass. */
  lemma {:induction false} TotalAtLeastMass(g: seq<PartSpec>, rank: seq<nat>, i: int)
    requires RankedBy(g, rank) && 0 <= i < |g|
    requires forall p :: 0 <= p < |g| ==> g[p].mass >= 0.0 && g[p].influence >= 0.0
    ensures Total(g, rank, i) >= g[i].mass
    ensures ChildTotals(g, rank, i, |g[i].carried|) >= 0.0
    decreases rank[i], 1
  {
    ChildTotalsNonNegative(g, rank, i, |g[i].carried|);
    MulNonNegative(g[i].influence, ChildTotals(g, rank, i, |g[i].carried|));
  }

  lemma {:induction false} ChildTotalsNonNegative(g: seq<PartSpec>, rank: seq<nat>, i: int, k: nat)
    requires RankedBy(g, rank) && 0 <= i < |g| && k <= |g[i].carried|
    requires forall p :: 0 <= p < |g| ==> g[p].mass >= 0.0 && g[p].influence >= 0.0
    ensures ChildTotals(g, rank, i, k) >= 0.0
    decreases rank[i], 0, k
  {
    if k > 0 {
      ChildTotalsNonNegative(g, rank, i, k - 1);
      match g[i].carried[k - 1]
      case None =>
      case Some(c) => TotalAtLeastMass(g, rank, c);
    }
  }

  /**
    What a part carries only strengthens it: with non-negative masses, influence
    factors, torque constant and leverage, its factor is at least the factor of
    its own mass alone, which for a positive mass is `K * leverage`.
   */
  lemma FactorAtLeastUnloaded(g: seq<PartSpec>, rank: seq<nat>, i: int)
    requires RankedBy(g, rank) && 0 <= i < |g|
    requires forall p :: 0 <= p < |g| ==> g[p].mass >= 0.0 && g[p].influence >= 0.0
    requires g[i].torqueK >= 0.0 && g[i].leverage >= 0.0
    ensures Factor(g, rank, i) >= LoadFactor(g[i].torqueK, g[i].mass, g[i].leverage, g[i].mass)
    ensures g[i].mass > 0.0 ==> Factor(g, rank, i) >= g[i].torqueK * g[i].leverage
  {
    TotalAtLeastMass(g, rank, i);
    LoadFactorMonotone(g[i].torqueK, g[i].mass, Total(g, rank, i), g[i].leverage, g[i].mass);
    if g[i].mass > 0.0 {
      assert (g[i].mass * g[i].leverage) / g[i].mass == g[i].leverage;
    }
  }

  /** With non-negative masses and factors, a part's total is at least its influence factor times the total of any part it carries. */
  lemma TotalCoversCarried(g: seq<PartSpec>, rank: seq<nat>, i: int, j: nat)
    requires RankedBy(g, rank) && 0 <= i < |g| && j < |g[i].carried| && g[i].carried[j].Some?
    requires forall p :: 0 <= p < |g| ==> g[p].mass >= 0.0 && g[p].influence >= 0.0
    ensures Total(g, rank, i) >= g[i].influence * Total(g, rank, g[i].carried[j].value)
  {
    var c := g[i].carried[j].value;
    ChildTotalsCover(g, rank, i, |g[i].carried|, j);
    var s := ChildTotals(g, rank, i, |g[i].carried|);
    MulNonNegative(g[i].influence, s - Total(g, rank, c));
    assert g[i].influence * (s - Total(g, rank, c)) == g[i].influence * s - g[i].influence * Total(g, rank, c);
  }

  lemma {:induction false} ChildTotalsCover(g: seq<PartSpec>, rank: seq<nat>, i: int, k: nat, j: nat)
    requires RankedBy(g, rank) && 0 <= i < |g| && j < k <= |g[i].carried| && g[i].carried[j].Some?
    requires forall p :: 0 <= p < |g| ==> g[p].mass >= 0.0 && g[p].influence >= 0.0
    ensures ChildTotals(g, rank, i, k) >= Total(g, rank, g[i].carried[j].value)
    decreases k
  {
    ChildTotalsNonNegative(g, rank, i, k - 1);
    if j < k - 1 {
      ChildTotalsCover(g, rank, i, k - 1, j);
      match g[i].carried[k - 1]
      case None =>
      case Some(c) => TotalAtLeastMass(g, rank, c);
    }
  }

  /** Adding a part whose reach is already inside a closed set keeps the set closed. */
  lemma ClosedExtend(g: seq<PartSpec>, rank: seq<nat>, done: set<int>, cur: int)
    requires RankedBy(g, rank) && 0 <= cur < |g| && Closed(g, done)
    requires ReachChildren(g, rank, cur, |g[cur].carried|) <= done
    ensures Closed(g, done + {cur})
  {
    forall j | 0 <= j < |g[cur].carried| && g[cur].carried[j].Some?
      ensures g[cur].carried[j].value in done
    {
      ChildrenReached(g, rank, cur, |g[cur].carried|, j);
    }
  }

  /**
    The calculation log built one entry at a time: each new entry is a part
    not logged before, appended after every part it carries.
   */
  ghost predicate CalculationLog(g: seq<PartSpec>, order: seq<int>)
    decreases |order|
  {
    || order == []
    || var last, init := order[|order| - 1], order[..|order| - 1];
       && CalculationLog(g, init)
       && last !in init
       && (0 <= last < |g| ==>
             forall j :: 0 <= j < |g[last].carried| && g[last].carried[j].Some? ==> g[last].carried[j].value in init)
  }

  /** Appending a part that is not finished yet, all of whose carried parts are, extends the log. */
  lemma LogExtend(g: seq<PartSpec>, rank: seq<nat>, order: seq<int>, done: set<int>, cur: int)
    requires RankedBy(g, rank) && 0 <= cur < |g| && cur !in done
    requires CalculationLog(g, order) && (forall x :: x in order <==> x in done)
    requires ReachChildren(g, rank, cur, |g[cur].carried|) <= done
    ensures CalculationLog(g, order + [cur])
  {
    var o := order + [cur];
    assert o[..|o| - 1] == order;
    forall j | 0 <= j < |g[cur].carried| && g[cur].carried[j].Some?
      ensures g[cur].carried[j].value in order
    {
      ChildrenReached(g, rank, cur, |g[cur].carried|, j);
    }
  }

  /** A calculation log names each part once, and each after every part it carries. */
  lemma {:induction false} LogIsDistinctPostOrder(g: seq<PartSpec>, order: seq<int>)
    requires CalculationLog(g, order)
    ensures Distinct(order) && PostOrder(g, order)
    decreases |order|
  {
    if order != [] {
      var n := |order| - 1;
      var init := order[..n];
      LogIsDistinctPostOrder(g, init);
      forall a, b | 0 <= a < b < |order|
        ensures order[a] != order[b]
      {
        if b < n {
          assert order[a] == init[a] && order[b] == init[b];
        } else {
          assert order[a] == init[a];
        }
      }
      forall k, j | 0 <= k < |order| && 0 <= order[k] < |g| && 0 <= j < |g[order[k]].carried| && g[order[k]].carried[j].Some?
        ensures g[order[k]].carried[j].value in order[..k]
      {
        if k < n {
          assert order[k] == init[k] && order[..k] == init[..k];
        } else {
          assert order[..k] == init;
        }
      }
    }
  }

  /** A walk along carried entries strictly lowers the rank at every step. */
  ghost predicate IsPath(g: seq<PartSpec>, path: seq<int>)
  {
    && (forall k :: 0 <= k < |path| ==> 0 <= path[k] < |g|)
    && (forall k :: 0 <= k < |path| - 1 ==> Some(path[k + 1]) in g[path[k]].carried)
  }

  lemma {:induction false} PathDescends(g: seq<PartSpec>, rank: seq<nat>, path: seq<int>)
    requires RankedBy(g, rank) && IsPath(g, path) && |path| > 0
    ensures rank[path[|path| - 1]] + |path| - 1 <= rank[path[0]]
    decreases |path|
  {
    if |path| > 1 {
      var init := path[..|path| - 1];
      assert IsPath(g, init);
      PathDescends(g, rank, init);
      var a, b := path[|path| - 2], path[|path| - 1];
      var j :| 0 <= j < |g[a].carried| && g[a].carried[j] == Some(b);
    }
  }

  /** A ranked graph has no cycle: no walk of one or more steps returns to where it started. */
  lemma NoCycle(g: seq<PartSpec>, rank: seq<nat>, path: seq<int>)
    requires RankedBy(g, rank) && IsPath(g, path) && |path| > 1
    ensures path[0] != path[|path| - 1]
  {
    PathDescends(g, rank, path);
  }

  /** Root of mass 10 carrying a part of mass 5, factors 1, 1 and K = 10: totals 5 and 15, factors 10 and 15. */
  lemma TwoPartExample()
    ensures var g := [PartSpec(10.0, 1.0, 1.0, 10.0, [Some(1)]), PartSpec(5.0, 1.0, 1.0, 10.0, [])];
            && RankedBy(g, [1, 0])
            && Total(g, [1, 0], 1) == 5.0 && Factor(g, [1, 0], 1) == 10.0
            && Total(g, [1, 0], 0) == 15.0 && Factor(g, [1, 0], 0) == 15.0
  {
    var g := [PartSpec(10.0, 1.0, 1.0, 10.0, [Some(1)]), PartSpec(5.0, 1.0, 1.0, 10.0, [])];
    var rank: seq<nat> := [1, 0];
    assert RankedBy(g, rank);
    assert ChildTotals(g, rank, 1, 0) == 0.0;
    assert Total(g, rank, 1) == 5.0;
    assert ChildTotals(g, rank, 0, 1) == 5.0;
    assert Total(g, rank, 0) == 15.0;
  }
}
