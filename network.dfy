/**
 * The multicommodity network as the conversion tools read it from a `Graph`:
 * its counts, the start and end node of every arc, the mutual capacity of
 * every arc, and per commodity `k` and arc `j` a capacity and a cost, per
 * commodity and node `i` a deficit. Reading, making single-sourced and
 * preprocessing the graph are not part of this model; the accessors are
 * given as sequences.
 */
module Network {

  import opened Numbers

  datatype Network = Network(
    nrNodes: nat,
    nrArcs: nat,
    nrComm: nat,
    startN: seq<int>,              // StartN()[j]
    endN: seq<int>,                // EndN()[j]
    totCap: seq<Ext>,              // TotCapacities()[j]
    capacity: seq<seq<Ext>>,       // CapacityKJ(k, j) == capacity[k][j]
    cost: seq<seq<Ext>>,           // CostKJ(k, j) == cost[k][j]
    deficit: seq<seq<int>>,        // DeficitKJ(k, i) == deficit[k][i]
    namesStartFrom1: bool)         // NamesStartFrom1()
  {
    /** Every accessor covers exactly the arcs, nodes and commodities counted. */
    predicate WellFormed()
    {
      && |startN| == nrArcs && |endN| == nrArcs && |totCap| == nrArcs
      && |capacity| == nrComm && |cost| == nrComm && |deficit| == nrComm
      && (forall k :: 0 <= k < nrComm ==> |capacity[k]| == nrArcs)
      && (forall k :: 0 <= k < nrComm ==> |cost[k]| == nrArcs)
      && (forall k :: 0 <= k < nrComm ==> |deficit[k]| == nrNodes)
    }
  }

  /** All commodities agree with commodity 0 on the cost of arc `j`. */
  predicate ArcUnified(g: Network, j: nat)
    requires g.WellFormed() && j < g.nrArcs
  {
    forall k :: 0 <= k < g.nrComm ==> g.cost[k][j] == g.cost[0][j]
  }

  /** The network has unified costs: on every arc every commodity costs what commodity 0 costs. */
  predicate UnifiedCosts(g: Network)
    requires g.WellFormed()
  {
    forall j, k :: 0 <= j < g.nrArcs && 0 <= k < g.nrComm ==> g.cost[k][j] == g.cost[0][j]
  }

  /** The capacities of arc `j`, commodity by commodity. */
  function CapacityColumn(g: Network, j: nat): (col: seq<Ext>)
    requires g.WellFormed() && j < g.nrArcs
    ensures |col| == g.nrComm && forall k :: 0 <= k < g.nrComm ==> col[k] == g.capacity[k][j]
  {
    seq(g.nrComm, k requires 0 <= k < g.nrComm => g.capacity[k][j])
  }

  /** The capacity of arc `j`: the smaller of its mutual capacity and the sum of its commodity capacities. */
  function ArcCapacity(g: Network, j: nat): Ext
    requires g.WellFormed() && j < g.nrArcs
  {
    Min(Sum(CapacityColumn(g, j)), g.totCap[j])
  }

  /** An arc's capacity is infinite exactly when its mutual capacity is infinite and some commodity's capacity on it is. */
  lemma ArcCapacityInfinite(g: Network, j: nat)
    requires g.WellFormed() && j < g.nrArcs
    ensures ArcCapacity(g, j) == Inf <==>
      g.totCap[j] == Inf && exists k :: 0 <= k < g.nrComm && g.capacity[k][j] == Inf
  {
    var col := CapacityColumn(g, j);
    SumInfinite(col);
    if exists k :: 0 <= k < g.nrComm && g.capacity[k][j] == Inf {
      var k :| 0 <= k < g.nrComm && g.capacity[k][j] == Inf;
      assert col[k] == Inf;
    }
  }

  /**
   * The loop shared by every printer: add up the commodity capacities of arc
   * `j`, leaving the loop as soon as the running sum reaches infinity.
   * Leaving early does not change the sum.
   */
  method SumCapacity(g: Network, j: nat) returns (sum: Ext)
    requires g.WellFormed() && j < g.nrArcs
    ensures sum == Sum(CapacityColumn(g, j))
  {
    ghost var col := CapacityColumn(g, j);
    sum := Fin(0);
    var k := 0;
    while k < g.nrComm
      invariant 0 <= k <= g.nrComm
      invariant sum == Sum(col[..k])
      invariant sum != Inf
    {
      sum := Add(sum, g.capacity[k][j]);
      assert col[..k + 1][..k] == col[..k];
      if !Less(sum, Inf) {
        PrefixSumInfinite(col, k + 1);
        return;
      }
      k := k + 1;
    }
    assert col[..k] == col;
  }
}
