/**
 * The state the separation pass rewrites: the statement context it reads and
 * an arena holding the plan's nodes, with node creation (the `new` and
 * `new (std::nothrow)` of the pass) and the FetcherNode setters it calls.
 *
 * Every state-changing method of the model is proved to leave the arena in the
 * state an "...Effect" function computes from the state it started in; what the
 * pass promises is then proved about those functions.
 */
module PlanArena {
  import opened Wrappers
  import opened PlanNode
  import opened PlanTree

  /**
   * The parts of the query context the pass reads: the statement-level region map,
   * the region ids touched by inserts that no Scan discovers, and the two flags.
   */
  datatype QueryContext = QueryContext(
    regionInfos: RegionMap,
    insertRegionIds: set<int>,
    autocommit: bool,
    enable2pc: bool)

  /** The routing that set_region_infos(ctx->region_infos, ctx->insert_region_ids) records. */
  function ContextRouting(ctx: QueryContext): Routing {
    Routing(ctx.regionInfos, ctx.insertRegionIds)
  }

  /** Every node of the arena has an id below next. */
  ghost predicate IdsBelow(m: Nodes, next: int) {
    forall k :: k in m ==> k < next
  }

  /**
   * The arena as a value: the nodes, the next fresh id, and how many further
   * `new (std::nothrow)` allocations succeed (every one after them returns null).
   */
  datatype ArenaState = ArenaState(nodes: Nodes, next: int, left: nat)

  /** The next id is fresh. */
  ghost predicate Fresh(s: ArenaState) {
    IdsBelow(s.nodes, s.next)
  }

  /** The arena only grew: no node was removed and the next fresh id did not go back. */
  ghost predicate Grown(s0: ArenaState, s: ArenaState) {
    s0.nodes.Keys <= s.nodes.Keys && s0.next <= s.next
  }

  /** Grown composes. */
  lemma GrownTrans(s0: ArenaState, s1: ArenaState, s2: ArenaState)
    requires Grown(s0, s1) && Grown(s1, s2)
    ensures Grown(s0, s2)
  {
  }

  /** A state whose nodes are among those of a fresh state, with a next id no smaller, is fresh. */
  lemma FreshKeys(s0: ArenaState, s: ArenaState)
    requires Fresh(s0) && s.nodes.Keys <= s0.nodes.Keys && s0.next <= s.next
    ensures Fresh(s)
  {
  }

  /** A throwing `new`: the node gets the next fresh id. */
  function AllocEffect(s: ArenaState, n: Node): (ArenaState, int) {
    (ArenaState(s.nodes[s.next := n], s.next + 1, s.left), s.next)
  }

  /** A `new (std::nothrow)`: null once the budget is spent, else the next fresh id. */
  function TryAllocEffect(s: ArenaState, n: Node): (ArenaState, Option<int>) {
    if s.left == 0 then (s, None)
    else (ArenaState(s.nodes[s.next := n], s.next + 1, s.left - 1), Some(s.next))
  }

  /** Allocating a detached node keeps the arena well formed, and the new id was not in use. */
  lemma AllocFacts(s: ArenaState, n: Node)
    requires WellFormed(s.nodes) && Fresh(s) && Detached(n)
    ensures var (s1, id) := AllocEffect(s, n);
      && WellFormed(s1.nodes) && Fresh(s1) && Grown(s, s1)
      && id !in s.nodes && s1.nodes == s.nodes[id := n] && s1.left == s.left
  {
    InsertDetached(s.nodes, s.next, n);
  }

  /**
   * A `new (std::nothrow)` either fails and changes nothing but the budget, or
   * behaves as the throwing `new`; either way the arena stays well formed.
   */
  lemma TryAllocFacts(s: ArenaState, n: Node)
    requires WellFormed(s.nodes) && Fresh(s) && Detached(n)
    ensures var (s1, id) := TryAllocEffect(s, n);
      && WellFormed(s1.nodes) && Fresh(s1) && Grown(s, s1)
      && (id.None? <==> s.left == 0)
      && (id.None? ==> s1 == s)
      && (id.Some? ==> id.value !in s.nodes && s1.nodes == s.nodes[id.value := n] && s1.left == s.left - 1)
  {
    if s.left > 0 {
      AllocFacts(s, n);
    }
  }

  /** The plan's nodes, updated in place by the pass. */
  class Arena {
    var nodes: Nodes
    var nextId: int
    var allocLeft: nat

    /** The arena as a value. */
    function State(): ArenaState
      reads this
    {
      ArenaState(nodes, nextId, allocLeft)
    }

    ghost predicate Valid()
      reads this
    {
      IdsBelow(nodes, nextId)
    }

    constructor (m: Nodes, next: int, budget: nat)
      requires IdsBelow(m, next)
      ensures Valid() && State() == ArenaState(m, next, budget)
    {
      nodes, nextId, allocLeft := m, next, budget;
    }

    /** A throwing `new`. */
    method Alloc(n: Node) returns (id: int)
      requires Valid()
      modifies this
      ensures Valid()
      ensures (State(), id) == AllocEffect(old(State()), n)
    {
      id := nextId;
      nodes := nodes[id := n];
      nextId := nextId + 1;
    }

    /** A `new (std::nothrow)`. */
    method TryAlloc(n: Node) returns (id: Option<int>)
      requires Valid()
      modifies this
      ensures Valid()
      ensures (State(), id) == TryAllocEffect(old(State()), n)
    {
      if allocLeft == 0 {
        return None;
      }
      id := Some(nextId);
      nodes := nodes[nextId := n];
      nextId, allocLeft := nextId + 1, allocLeft - 1;
    }
  }

  /** create_fetcher_node: a new unbounded Fetcher tagged op, or None when allocation fails. */
  method CreateFetcherNode(a: Arena, op: OpType) returns (f: Option<int>)
    requires a.Valid()
    modifies a
    ensures a.Valid()
    ensures (a.State(), f) == TryAllocEffect(old(a.State()), NewFetcher(op))
  {
    f := a.TryAlloc(NewFetcher(op));
  }

  /** create_txn_node: a new unbounded Transaction node tagged cmd, or None when allocation fails. */
  method CreateTxnNode(a: Arena, cmd: TxnCmd) returns (t: Option<int>)
    requires a.Valid()
    modifies a
    ensures a.Valid()
    ensures (a.State(), t) == TryAllocEffect(old(a.State()), NewTxn(cmd))
  {
    t := a.TryAlloc(NewTxn(cmd));
  }

  /** FetcherNode::set_region_infos(regions, insert_ids): the Fetcher records both. */
  function SetRegionsAndInserts(m: Nodes, f: int, regions: RegionMap, ids: set<int>): (r: Nodes)
    requires f in m && m[f].kind.Fetcher?
    ensures r.Keys == m.Keys
    ensures r[f] == m[f].(kind := m[f].kind.(routing := Routing(regions, ids)))
    ensures forall k {:trigger r[k]} :: k in m && k != f ==> r[k] == m[k]
  {
    m[f := m[f].(kind := m[f].kind.(routing := Routing(regions, ids)))]
  }

  /** FetcherNode::set_region_infos(regions): the region map is replaced, the insert ids are kept. */
  function SetRegions(m: Nodes, f: int, regions: RegionMap): (r: Nodes)
    requires f in m && m[f].kind.Fetcher?
    ensures r.Keys == m.Keys
    ensures r[f].kind == m[f].kind.(routing := Routing(regions, m[f].kind.routing.insertRegionIds))
    ensures r[f] == m[f].(kind := r[f].kind)
    ensures forall k {:trigger r[k]} :: k in m && k != f ==> r[k] == m[k]
  {
    SetRegionsAndInserts(m, f, regions, m[f].kind.routing.insertRegionIds)
  }

  /** Recording a routing on a Fetcher keeps the arena well formed. */
  lemma SetRegionsKeepsWellFormed(m: Nodes, f: int, regions: RegionMap, ids: set<int>)
    requires WellFormed(m) && f in m && m[f].kind.Fetcher?
    ensures WellFormed(SetRegionsAndInserts(m, f, regions, ids))
  {
    RetagKeepsWellFormed(m, f, m[f].kind.(routing := Routing(regions, ids)));
  }
}
