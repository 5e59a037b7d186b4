/**
  The start-up load pass of Assets/Scripts/RagdollSet.cs: a post-order walk
  of the carried-parts graph from each root, sharing one set of finished
  parts across all roots, calculating each part after the parts it carries
  and then stamping it with the figure's proportional base.
 */
module RagdollSets {
  import opened Wrappers
  import opened Bodies
  import opened Muscles
  import opened LoadGraph

  /** The fields of a muscle that the load pass writes. */
  datatype Calibration = Calibration(total: real, factor: real, calculated: bool, pBase: real)

  ghost function CalibrationOf(m: Muscle): Calibration
    reads m
  {
    Calibration(m.totalMassToCarry, m.finalLoadPer1, m.loadCalculated, m.pBase)
  }

  /** A part's fields after `CalculateTotalLoadAndFactor` with carried load `total`, then `SetPBase(pBase)`. */
  function Calculated(c: Calibration, p: PartSpec, total: real, pBase: real): Calibration
  {
    Calibration(total, LoadFactor(p.torqueK, total, p.leverage, p.mass),
                c.calculated || p.mass > 0.0,
                if pBase > 0.0 then pBase else c.pBase)
  }

  /**
    The calibrations `cal` after the parts in `newly` have each been calculated
    once with the load equation's total and stamped with `pBase`.
   */
  ghost function Stamp(cal: seq<Calibration>, g: seq<PartSpec>, rank: seq<nat>, newly: set<int>, pBase: real): (r: seq<Calibration>)
    requires RankedBy(g, rank) && |cal| == |g|
    ensures |r| == |cal|
    ensures forall x {:trigger r[x]} :: 0 <= x < |cal| ==>
              r[x] == if x in newly then Calculated(cal[x], g[x], Total(g, rank, x), pBase) else cal[x]
  {
    seq(|cal|, x requires 0 <= x < |cal| =>
      if x in newly then Calculated(cal[x], g[x], Total(g, rank, x), pBase) else cal[x])
  }

  lemma StampNothing(cal: seq<Calibration>, g: seq<PartSpec>, rank: seq<nat>, pBase: real)
    requires RankedBy(g, rank) && |cal| == |g|
    ensures Stamp(cal, g, rank, {}, pBase) == cal
  {
  }

  /** Every stamped part holds the load equation's total. */
  lemma StampedTotal(cal: seq<Calibration>, g: seq<PartSpec>, rank: seq<nat>, newly: set<int>, pBase: real, x: int)
    requires RankedBy(g, rank) && |cal| == |g| && x in newly && 0 <= x < |g|
    ensures Stamp(cal, g, rank, newly, pBase)[x].total == Total(g, rank, x)
  {
  }

  /** Stamping one more part changes that part alone. */
  lemma StampOneMore(cal: seq<Calibration>, g: seq<PartSpec>, rank: seq<nat>, newly: set<int>, pBase: real,
                     cal': seq<Calibration>, cur: int)
    requires RankedBy(g, rank) && |cal| == |g| && 0 <= cur < |g| && cur !in newly
    requires |cal'| == |g| && cal'[cur] == Calculated(cal[cur], g[cur], Total(g, rank, cur), pBase)
    requires forall x :: 0 <= x < |g| && x != cur ==> cal'[x] == Stamp(cal, g, rank, newly, pBase)[x]
    ensures cal' == Stamp(cal, g, rank, newly + {cur}, pBase)
  {
    var s := Stamp(cal, g, rank, newly + {cur}, pBase);
    forall x | 0 <= x < |g|
      ensures cal'[x] == s[x]
    {
      if x != cur {
        assert Stamp(cal, g, rank, newly, pBase)[x] == s[x];
      }
    }
  }

  /**
    The state the walk keeps between calls: `done` is the finished-parts set,
    closed under carrying, and `order` logs its calculations, each part once
    and after the parts it carries.
   */
  ghost predicate Progress(g: seq<PartSpec>, rank: seq<nat>, done: set<int>, order: seq<int>)
    requires RankedBy(g, rank)
  {
    && (forall x :: x in done ==> 0 <= x < |g|)
    && Closed(g, done)
    && (forall x :: x in order <==> x in done)
    && CalculationLog(g, order)
  }

  /** Calculating one more part, all of whose carried parts are finished, keeps the walk's state. */
  lemma ProgressExtend(g: seq<PartSpec>, rank: seq<nat>, done: set<int>, order: seq<int>, cur: int)
    requires RankedBy(g, rank) && 0 <= cur < |g| && cur !in done
    requires ReachChildren(g, rank, cur, |g[cur].carried|) <= done
    requires Progress(g, rank, done, order)
    ensures Progress(g, rank, done + {cur}, order + [cur])
  {
    LogExtend(g, rank, order, done, cur);
    ClosedExtend(g, rank, done, cur);
  }

  /** After walking entry `j` of part `cur`, the finished set covers the first `j + 1` entries. */
  lemma CarriedStep(g: seq<PartSpec>, rank: seq<nat>, cur: int, j: nat, start: set<int>, prev: set<int>, now: set<int>)
    requires RankedBy(g, rank) && 0 <= cur < |g| && j < |g[cur].carried|
    requires prev == start + ReachChildren(g, rank, cur, j)
    requires now == prev + ReachFrom(g, rank, g[cur].carried[j])
    ensures now == start + ReachChildren(g, rank, cur, j + 1)
  {
    ReachChildrenSnoc(g, rank, cur, j);
  }

  ghost function PartOf(m: Muscle): PartSpec
  {
    PartSpec(m.rb.mass, m.loadInfluenceFactor, m.leverageFactor, m.baseTorqueFactorK, m.Carried())
  }

  class RagdollSet {
    /** The root parts the walk starts from, as arena indices; `None` is a null root. */
    const lastBases: seq<Option<int>>
    const pBase: real
    /**
      The arena: the muscles the walk can meet, each at one index. Any set of
      muscles closed under carrying will do, for instance the parts the roots reach.
     */
    const parts: seq<Muscle>
    /** The arena index of each muscle, standing for the identity a `HashSet<Muscle>` compares. */
    ghost const index: map<Muscle, int>

    constructor (lastBases: seq<Option<int>>, pBase: real, parts: seq<Muscle>, ghost index: map<Muscle, int>)
      ensures this.lastBases == lastBases && this.pBase == pBase && this.parts == parts && this.index == index
    {
      this.lastBases := lastBases;
      this.pBase := pBase;
      this.parts := parts;
      this.index := index;
    }

    /**
      The arena holds each muscle once, every arena part's carried array is
      non-null (the walk calls `Count()` on each part it reaches) and every
      reference names an arena muscle.
     */
    ghost predicate Valid()
    {
      && (forall i :: 0 <= i < |parts| ==> parts[i] in index && index[parts[i]] == i)
      && (forall i :: 0 <= i < |parts| ==> parts[i].carriedParts.Some? && parts[i].CarriedIn(|parts|))
      && (forall k :: 0 <= k < |lastBases| && lastBases[k].Some? ==> 0 <= lastBases[k].value < |parts|)
    }

    /** The figure's carried-parts graph: the authored load data of every part and its body's mass. */
    ghost function Graph(): (g: seq<PartSpec>)
      ensures |g| == |parts|
      ensures forall i {:trigger g[i]} :: 0 <= i < |parts| ==> g[i] == PartOf(parts[i])
    {
      seq(|parts|, i requires 0 <= i < |parts| => PartOf(parts[i]))
    }

    /** The fields of every part that the load pass writes. */
    ghost function Calibrations(): (c: seq<Calibration>)
      reads parts
      ensures |c| == |parts|
      ensures forall i {:trigger c[i]} :: 0 <= i < |parts| ==> c[i] == CalibrationOf(parts[i])
    {
      seq(|parts|, i requires 0 <= i < |parts| reads parts => CalibrationOf(parts[i]))
    }

    ghost function ActiveFlags(): (f: seq<bool>)
      reads parts
      ensures |f| == |parts|
      ensures forall i {:trigger f[i]} :: 0 <= i < |parts| ==> f[i] == parts[i].musclesActive
    {
      seq(|parts|, i requires 0 <= i < |parts| reads parts => parts[i].musclesActive)
    }

    /**
      Calculates every part reachable from `currentPart` that is not finished
      yet, children before parents, and returns the grown finished set. The
      calibrations are those of `cal0`, the figure before the pass, with the
      finished parts stamped, before the call and after it.
     */
    method TraverseAndCalculateLoad(currentPart: Option<int>, calculatedParts: set<int>,
                                    ghost g: seq<PartSpec>, ghost rank: seq<nat>, ghost order: seq<int>,
                                    ghost cal0: seq<Calibration>)
      returns (calculated: set<int>, ghost order': seq<int>)
      requires Valid() && g == Graph() && RankedBy(g, rank) && |cal0| == |g|
      requires currentPart.Some? ==> 0 <= currentPart.value < |parts|
      requires Progress(g, rank, calculatedParts, order)
      requires Calibrations() == Stamp(cal0, g, rank, calculatedParts, pBase)
      modifies parts
      decreases if currentPart.Some? && 0 <= currentPart.value < |rank| then rank[currentPart.value] + 1 else 0, 1
      ensures calculated == calculatedParts + ReachFrom(g, rank, currentPart)
      ensures Progress(g, rank, calculated, order')
      ensures Calibrations() == Stamp(cal0, g, rank, calculated, pBase)
      ensures ActiveFlags() == old(ActiveFlags())
    {
      if currentPart == None || currentPart.value in calculatedParts {
        if currentPart != None {
          ReachWithinClosed(g, rank, calculatedParts, currentPart.value);
        }
        return calculatedParts, order;
      }
      var cur := currentPart.value;
      calculated, order' := CalculateCarriedParts(cur, calculatedParts, g, rank, order, cal0);
      assert cur !in calculated by {
        if cur in ReachChildren(g, rank, cur, |g[cur].carried|) {
          ReachChildrenBelow(g, rank, cur, |g[cur].carried|, cur);
        }
      }
      CalculateOnePart(g, rank, cur, calculated, order', cal0);
      calculated := calculated + {cur};
      order' := order' + [cur];
    }

    /** The loop of one visit: walks every carried entry of part `cur` in turn, sharing the finished set. */
    method CalculateCarriedParts(cur: int, calculatedParts: set<int>,
                                 ghost g: seq<PartSpec>, ghost rank: seq<nat>, ghost order: seq<int>,
                                 ghost cal0: seq<Calibration>)
      returns (calculated: set<int>, ghost order': seq<int>)
      requires Valid() && g == Graph() && RankedBy(g, rank) && |cal0| == |g|
      requires 0 <= cur < |parts|
      requires Progress(g, rank, calculatedParts, order)
      requires Calibrations() == Stamp(cal0, g, rank, calculatedParts, pBase)
      modifies parts
      decreases if 0 <= cur < |rank| then rank[cur] + 1 else 0, 0
      ensures calculated == calculatedParts + ReachChildren(g, rank, cur, |g[cur].carried|)
      ensures Progress(g, rank, calculated, order')
      ensures Calibrations() == Stamp(cal0, g, rank, calculated, pBase)
      ensures ActiveFlags() == old(ActiveFlags())
    {
      var carried := parts[cur].GetCarriedParts().value;
      assert carried == g[cur].carried;
      calculated, order' := calculatedParts, order;
      var j := 0;
      while j < |carried|
        invariant 0 <= j <= |carried|
        invariant Progress(g, rank, calculated, order')
        invariant calculated == calculatedParts + ReachChildren(g, rank, cur, j)
        invariant Calibrations() == Stamp(cal0, g, rank, calculated, pBase)
        invariant ActiveFlags() == old(ActiveFlags())
      {
        ghost var prev := calculated;
        calculated, order' := TraverseAndCalculateLoad(carried[j], calculated, g, rank, order', cal0);
        CarriedStep(g, rank, cur, j, calculatedParts, prev, calculated);
        j := j + 1;
      }
    }

    /** The last step of one visit: calculate part `cur`, all of whose carried parts are finished, and stamp it. */
    method CalculateOnePart(ghost g: seq<PartSpec>, ghost rank: seq<nat>, cur: int,
                            ghost done: set<int>, ghost order: seq<int>, ghost cal0: seq<Calibration>)
      requires Valid() && g == Graph() && RankedBy(g, rank) && |cal0| == |g|
      requires 0 <= cur < |parts| && cur !in done
      requires ReachChildren(g, rank, cur, |g[cur].carried|) <= done
      requires Progress(g, rank, done, order)
      requires Calibrations() == Stamp(cal0, g, rank, done, pBase)
      modifies parts[cur]
      ensures Calibrations() == Stamp(cal0, g, rank, done + {cur}, pBase)
      ensures Progress(g, rank, done + {cur}, order + [cur])
      ensures ActiveFlags() == old(ActiveFlags())
    {
      CalibratePart(g, rank, cur, done, cal0);
      forall x | 0 <= x < |parts| && x != cur
        ensures Calibrations()[x] == old(Calibrations())[x]
      {
        assert parts[x] != parts[cur];
      }
      StampOneMore(cal0, g, rank, done, pBase, Calibrations(), cur);
      ProgressExtend(g, rank, done, order, cur);
    }

    /** Calculates part `cur` from its finished carried parts and stamps it with the set's `pBase`. */
    method CalibratePart(ghost g: seq<PartSpec>, ghost rank: seq<nat>, cur: int,
                         ghost done: set<int>, ghost cal0: seq<Calibration>)
      requires Valid() && g == Graph() && RankedBy(g, rank) && |cal0| == |g|
      requires 0 <= cur < |parts| && cur !in done
      requires ReachChildren(g, rank, cur, |g[cur].carried|) <= done
      requires Calibrations() == Stamp(cal0, g, rank, done, pBase)
      modifies parts[cur]
      ensures CalibrationOf(parts[cur]) == Calculated(cal0[cur], g[cur], Total(g, rank, cur), pBase)
      ensures parts[cur].musclesActive == old(parts[cur].musclesActive)
    {
      var part := parts[cur];
      assert Calibrations()[cur] == cal0[cur];
      LoadsMatchSpec(g, rank, cur, done, cal0);
      part.CalculateTotalLoadAndFactor(parts);
      TotalIsAccumulate(g, rank, cur);
      part.SetPBase(pBase);
      assert g[cur] == PartOf(part);
    }

    /** Once every part `cur` carries is finished, `cur` reads exactly the load equation's totals from them. */
    lemma LoadsMatchSpec(g: seq<PartSpec>, rank: seq<nat>, cur: int, done: set<int>, cal0: seq<Calibration>)
      requires Valid() && g == Graph() && RankedBy(g, rank) && |cal0| == |g|
      requires 0 <= cur < |parts| && cur !in done
      requires ReachChildren(g, rank, cur, |g[cur].carried|) <= done
      requires Calibrations() == Stamp(cal0, g, rank, done, pBase)
      ensures parts[cur].CarriedLoads(parts) == SpecLoads(g, rank, cur)
    {
      var part := parts[cur];
      var loads := SpecLoads(g, rank, cur);
      forall j | 0 <= j < |loads|
        ensures part.CarriedLoads(parts)[j] == loads[j]
      {
        if g[cur].carried[j].Some? {
          var c := g[cur].carried[j].value;
          ChildrenReached(g, rank, cur, |g[cur].carried|, j);
          StampedTotal(cal0, g, rank, done, pBase, c);
          assert Calibrations()[c].total == Total(g, rank, c);
        }
      }
    }

    /**
      Runs the walk from every root in turn with one shared finished set; returns,
      as a ghost log, the parts in the order they were calculated.
     */
    method Awake(ghost rank: seq<nat>) returns (ghost order: seq<int>)
      requires Valid() && RankedBy(Graph(), rank)
      modifies parts
      ensures forall x :: x in order <==> x in ReachRoots(Graph(), rank, lastBases)
      ensures Distinct(order) && PostOrder(Graph(), order)
      ensures Calibrations() == Stamp(old(Calibrations()), Graph(), rank, ReachRoots(Graph(), rank, lastBases), pBase)
      ensures ActiveFlags() == old(ActiveFlags())
    {
      ghost var g, cal0 := Graph(), Calibrations();
      var finishCalcPool: set<int> := {};
      order := [];
      StampNothing(cal0, g, rank, pBase);
      var k := 0;
      while k < |lastBases|
        invariant 0 <= k <= |lastBases|
        invariant Progress(g, rank, finishCalcPool, order)
        invariant finishCalcPool == ReachRoots(g, rank, lastBases[..k])
        invariant Calibrations() == Stamp(cal0, g, rank, finishCalcPool, pBase)
        invariant ActiveFlags() == old(ActiveFlags())
      {
        assert lastBases[..k + 1][..k] == lastBases[..k];
        finishCalcPool, order := TraverseAndCalculateLoad(lastBases[k], finishCalcPool, g, rank, order, cal0);
        k := k + 1;
      }
      assert lastBases[..|lastBases|] == lastBases;
      LogIsDistinctPostOrder(g, order);
    }
  }
}
