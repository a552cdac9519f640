/**
 * Separate::analyze, the entry point of the separation pass: it finds the
 * Packet node, applies the entry guards, creates the statement's Fetcher, and
 * dispatches on the Packet's operation. DML statements are wrapped in that
 * Fetcher or handed to the one- or two-phase assembly; BEGIN, COMMIT and
 * ROLLBACK go to the protocol builders; SELECT statements get the single-region,
 * join, aggregate, sort, limit or default rewrite, in that order of priority.
 */
module Separate {
  import opened Wrappers
  import opened PlanNode
  import opened PlanTree
  import opened PlanArena
  import opened TxnSeparate
  import opened JoinSeparate
  import opened DmlSeparate

  /**
   * What plan->get_node finds in the plan before the rewrite: the first node of
   * kind PACKET, TRANSACTION, LIMIT, AGG and SORT (None for a null pointer), and
   * every SCAN node and every JOIN node, in the order get_node lists them.
   */
  datatype Lookup = Lookup(
    packet: Option<int>,
    scans: seq<int>,
    txn: Option<int>,
    joins: seq<int>,
    limit: Option<int>,
    agg: Option<int>,
    sort: Option<int>)

  /** Every id of the lookup names a node of the arena of the kind it was looked up by. */
  ghost predicate LookupValid(m: Nodes, l: Lookup) {
    && (l.packet.Some? ==> l.packet.value in m && m[l.packet.value].kind.Packet?)
    && (forall t :: 0 <= t < |l.scans| ==> l.scans[t] in m && m[l.scans[t]].kind.Scan?)
    && (l.txn.Some? ==> l.txn.value in m && m[l.txn.value].kind.Transaction?)
    && JoinsIn(m, l.joins) && Distinct(l.joins)
    && (l.limit.Some? ==> l.limit.value in m && m[l.limit.value].kind.Limit?)
    && (l.agg.Some? ==> l.agg.value in m && m[l.agg.value].kind.Agg?)
    && (l.sort.Some? ==> l.sort.value in m && m[l.sort.value].kind.Sort?)
  }

  /** The single-child chain below the Packet ends within bound steps (the source's walk terminates). */
  ghost predicate ChainOk(m: Nodes, l: Lookup, bound: nat) {
    l.packet.Some? && l.packet.value in m && |m[l.packet.value].children| > 0 ==>
      ChainBelow(m, m[l.packet.value].children[0], bound, l.packet.value)
  }

  /** A plan the pass can be handed: a well-formed arena with a fresh next id, a lookup of it, a finite chain. */
  ghost predicate Ready(s: ArenaState, l: Lookup, bound: nat) {
    Fresh(s) && WellFormed(s.nodes) && LookupValid(s.nodes, l) && ChainOk(s.nodes, l, bound)
  }

  /** The pass gets past its entry guards and the first `new (std::nothrow) FetcherNode` succeeds. */
  ghost predicate Proceeds(s: ArenaState, l: Lookup, needSeparate: bool) {
    l.packet.Some? && l.packet.value in s.nodes && |s.nodes[l.packet.value].children| > 0
    && needSeparate && s.left > 0
  }

  /** The Packet's statement operation. */
  function PacketOp(m: Nodes, l: Lookup): OpType
    requires l.packet.Some? && l.packet.value in m && m[l.packet.value].kind.Packet?
  {
    m[l.packet.value].kind.op
  }

  /** The arena once a `new (std::nothrow)` gave the next id to n. */
  function Spent(s: ArenaState, n: Node): ArenaState
    requires s.left > 0
  {
    ArenaState(s.nodes[s.next := n], s.next + 1, s.left - 1)
  }

  /**
   * The routing of a DML statement's Fetcher: the regions of the first Scan when
   * there is one, else the context's regions; the context's insert-only region
   * ids in both cases.
   */
  function DmlRouting(m: Nodes, l: Lookup, ctx: QueryContext): Routing
    requires forall t :: 0 <= t < |l.scans| ==> l.scans[t] in m && m[l.scans[t]].kind.Scan?
  {
    Routing(if |l.scans| > 0 then m[l.scans[0]].kind.regions else ctx.regionInfos, ctx.insertRegionIds)
  }

  /** The Fetcher of a SELECT statement: the regions of the first Scan, no insert ids. */
  function SelectFetcher(op: OpType, regions: RegionMap): Node {
    FetcherFor(op, true, Routing(regions, {}))
  }

  /** The coordinator-side aggregate built from the store-side one's settings: a MERGE_AGG_NODE with limit -1. */
  function MergeAggFor(config: Config): (n: Node)
    ensures n.kind == MergeAgg && n.limit == -1 && n.config == config && Detached(n)
  {
    Node(MergeAgg, -1, config, [], None)
  }

  /** A well-formed arena holds the first child of any node that has one, and not the node itself. */
  lemma FirstChildIn(m: Nodes, p: int)
    requires WellFormed(m) && p in m
    ensures |m[p].children| > 0 ==> m[p].children[0] in m && m[p].children[0] != p
  {
    if |m[p].children| > 0 {
      FirstChild(m, p);
    }
  }

  // ----- The effect of analyze, branch by branch -----

  /**
   * The ids a DML or SELECT branch works on, once the statement's Fetcher f exists:
   * the Packet, its first child, and f are distinct nodes of a fresh arena.
   */
  ghost predicate Primed(s: ArenaState, packet: int, f: int) {
    && Fresh(s) && f in s.nodes && s.nodes[f].kind.Fetcher?
    && packet in s.nodes && s.nodes[packet].kind.Packet? && packet != f
    && |s.nodes[packet].children| > 0
    && s.nodes[packet].children[0] in s.nodes && s.nodes[packet].children[0] != f
  }

  /**
   * Lines 71-83, once f is routed: outside autocommit or for a truncate, wrap the
   * DML subtree in f; otherwise the two- or one-phase assembly, which walks down to leaf.
   */
  function DmlDispatchEffect(s: ArenaState, ctx: QueryContext, packet: int, f: int, routing: Routing, leaf: int): (ArenaState, int)
    requires Primed(s, packet, f) && leaf in s.nodes
  {
    var op := s.nodes[packet].kind.op;
    if !ctx.autocommit || op == OpTruncateTable then
      (s.(nodes := WrapFirstChildEffect(s.nodes, packet, f)), 0)
    else if ctx.enable2pc then
      var o := Dml2pcEffect(s, routing, packet, leaf);
      (o.state, if o.ok then 0 else -1)
    else
      Dml1pcEffect(s, ctx, packet, routing.regions)
  }

  /** The statement's Fetcher created for a DML statement and routed as DmlRouting says, on the next id. */
  lemma DmlPrimed(s: ArenaState, ctx: QueryContext, l: Lookup, bound: nat)
    requires Ready(s, l, bound) && Proceeds(s, l, true)
    ensures var packet := l.packet.value;
      && s.nodes[packet].children[0] in s.nodes
      && Primed(Spent(s, FetcherFor(PacketOp(s.nodes, l), true, DmlRouting(s.nodes, l, ctx))), packet, s.next)
      && ChainBelow(s.nodes, s.nodes[packet].children[0], bound, packet)
  {
    FirstChild(s.nodes, l.packet.value);
  }

  /** Lines 60-85: a DML statement (insert, update, delete, replace, truncate). */
  ghost function DmlEffect(s: ArenaState, ctx: QueryContext, l: Lookup, bound: nat): (ArenaState, int)
    requires Ready(s, l, bound) && Proceeds(s, l, true)
  {
    var packet := l.packet.value;
    var routing := DmlRouting(s.nodes, l, ctx);
    DmlPrimed(s, ctx, l, bound);
    var root := s.nodes[packet].children[0];
    DmlDispatchEffect(Spent(s, FetcherFor(PacketOp(s.nodes, l), true, routing)), ctx, packet, s.next, routing,
                      ChainLeafOf(s.nodes, root, bound, packet))
  }

  /** Lines 87-102: BEGIN, COMMIT or ROLLBACK, handed to the protocol builder of the Transaction node. */
  ghost function TxnEffect(s: ArenaState, ctx: QueryContext, l: Lookup): (ArenaState, int)
    requires Fresh(s) && LookupValid(s.nodes, l) && l.packet.Some? && s.left > 0
  {
    var op := PacketOp(s.nodes, l);
    var s1 := Spent(s, NewFetcher(op));
    if l.txn.None? then (s1, -1)
    else if op == OpBegin then SeparateBeginEffect(s1, ctx, l.txn.value)
    else if op == OpCommit then SeparateCommitEffect(s1, ctx, l.txn.value)
    else SeparateRollbackEffect(s1, ctx, l.txn.value)
  }

  /**
   * Lines 143-151: f adopts the Agg node, a new merge aggregate adopts f, and the
   * Agg's former parent, if it had one, drops all its children and adopts the
   * merge aggregate; without a parent the result is -1.
   */
  function AggEffect(s: ArenaState, agg: int, f: int): (ArenaState, int)
    requires Fresh(s) && agg in s.nodes && f in s.nodes && agg != f
    requires s.nodes[agg].parent.Some? ==> s.nodes[agg].parent.value in s.nodes
  {
    var parent := s.nodes[agg].parent;
    var mg := s.next;
    var m1 := s.nodes[mg := MergeAggFor(s.nodes[agg].config)];
    var m2 := AddChild(AddChild(m1, f, agg), mg, f);
    if parent.None? then (ArenaState(m2, s.next + 1, s.left), -1)
    else (ArenaState(AddChild(ClearChildren(m2, parent.value), parent.value, mg), s.next + 1, s.left), 0)
  }

  /**
   * Lines 153-167: f takes the Sort's ordering settings and adopts the Sort, and
   * the Sort's former parent, if it had one, drops all its children and adopts f;
   * without a parent the result is -1.
   */
  function SortEffect(s: ArenaState, sort: int, f: int): (ArenaState, int)
    requires sort in s.nodes && f in s.nodes && sort != f && s.nodes[f].kind.Fetcher?
    requires s.nodes[sort].parent.Some? ==> s.nodes[sort].parent.value in s.nodes
    requires s.nodes[sort].parent != Some(f)
  {
    var parent := s.nodes[sort].parent;
    var m1 := s.nodes[f := s.nodes[f].(kind := s.nodes[f].kind.(ordering := Some(s.nodes[sort].config)))];
    var m2 := AddChild(m1, f, sort);
    if parent.None? then (s.(nodes := m2), -1)
    else (s.(nodes := AddChild(ClearChildren(m2, parent.value), parent.value, f)), 0)
  }

  /** Optional parent as a set of ids. */
  function Ids(p: Option<int>): set<int> {
    if p.Some? then {p.value} else {}
  }

  /**
   * The aggregate split puts a merge aggregate on the next id over f over the Agg
   * node, hangs it where the Agg hung (replacing every child of that parent), and
   * leaves every other node as it was. Without a parent the result is -1 and the
   * merge aggregate is left without one.
   */
  lemma AggShape(s: ArenaState, agg: int, f: int)
    requires Fresh(s) && WellFormed(s.nodes) && agg in s.nodes && f in s.nodes && agg != f
    requires s.nodes[agg].parent != Some(f)
    ensures s.nodes[agg].parent.Some? ==> s.nodes[agg].parent.value in s.nodes && s.nodes[agg].parent.value != agg
    ensures var (s1, r) := AggEffect(s, agg, f);
      var p := s.nodes[agg].parent;
      var mg := s.next;
      && s1.next == s.next + 1 && s1.left == s.left && s1.nodes.Keys == s.nodes.Keys + {mg}
      && (r == 0 <==> p.Some?) && (r != 0 ==> r == -1)
      && s1.nodes[mg] == MergeAggFor(s.nodes[agg].config).(children := [f], parent := p)
      && s1.nodes[f] == s.nodes[f].(children := s.nodes[f].children + [agg], parent := Some(mg))
      && s1.nodes[agg] == s.nodes[agg].(parent := Some(f))
      && (p.Some? ==> s1.nodes[p.value] == s.nodes[p.value].(children := [mg]))
      && Keeps(s.nodes, s1.nodes, {f, agg} + Ids(p))
  {
  }

  /** The aggregate split keeps the arena well formed when f has no parent and is not the Agg's. */
  lemma AggKeepsWellFormed(s: ArenaState, agg: int, f: int)
    requires Fresh(s) && WellFormed(s.nodes) && agg in s.nodes && f in s.nodes && agg != f
    requires s.nodes[f].parent == None && s.nodes[agg].parent != Some(f)
    ensures WellFormed(AggEffect(s, agg, f).0.nodes)
  {
    var mg := s.next;
    var m1 := s.nodes[mg := MergeAggFor(s.nodes[agg].config)];
    InsertDetached(s.nodes, mg, MergeAggFor(s.nodes[agg].config));
    if s.nodes[agg].parent.None? {
      AdoptChainKeepsWellFormed(m1, mg, f, agg);
    } else {
      var p := s.nodes[agg].parent.value;
      ClearKeepsWellFormed(m1, p);
      UnlistedAfterClear(m1, agg);
      AdoptChainKeepsWellFormed(ClearChildren(m1, p), mg, f, agg);
      AddUnlistedKeepsWellFormed(AddChild(AddChild(ClearChildren(m1, p), f, agg), mg, f), p, mg);
      AggReorder(m1, p, mg, f, agg);
    }
  }

  /** Adopting unlisted agg under parentless f, then f under parentless mg, keeps the arena well formed and mg unlisted. */
  lemma AdoptChainKeepsWellFormed(m: Nodes, mg: int, f: int, agg: int)
    requires WellFormed(m) && mg in m && f in m && agg in m && mg != f && f != agg && mg != agg
    requires m[mg].parent == None && m[f].parent == None && Unlisted(m, agg)
    ensures WellFormed(AddChild(AddChild(m, f, agg), mg, f))
    ensures Unlisted(AddChild(AddChild(m, f, agg), mg, f), mg)
  {
    OrphanUnlisted(m, f);
    OrphanUnlisted(m, mg);
    AddUnlistedKeepsWellFormed(m, f, agg);
    AddUnlistedKeepsWellFormed(AddChild(m, f, agg), mg, f);
  }

  /** Clearing p's children commutes with the two adoptions, which touch neither p's list nor p. */
  lemma AggReorder(m: Nodes, p: int, mg: int, f: int, agg: int)
    requires p in m && mg in m && f in m && agg in m && mg != f && f != agg && p != mg && p != f && p != agg
    ensures ClearChildren(AddChild(AddChild(m, f, agg), mg, f), p) == AddChild(AddChild(ClearChildren(m, p), f, agg), mg, f)
  {
  }

  /** Once x's parent drops all its children, nobody lists x. */
  lemma UnlistedAfterClear(m: Nodes, x: int)
    requires WellFormed(m) && x in m && m[x].parent.Some? && m[x].parent.value in m
    ensures Unlisted(ClearChildren(m, m[x].parent.value), x)
  {
    var p := m[x].parent.value;
    ClearKeepsWellFormed(m, p);
    if x !in m[p].children {
      OrphanedUnlisted(m, x);
    }
  }

  /**
   * The sort push-down gives f the Sort's ordering settings, puts f over the Sort
   * node, hangs f where the Sort hung (replacing every child of that parent), and
   * leaves every other node as it was. Without a parent the result is -1.
   */
  lemma SortShape(s: ArenaState, sort: int, f: int)
    requires WellFormed(s.nodes) && sort in s.nodes && f in s.nodes && sort != f && s.nodes[f].kind.Fetcher?
    requires s.nodes[sort].parent != Some(f)
    ensures s.nodes[sort].parent.Some? ==> s.nodes[sort].parent.value in s.nodes && s.nodes[sort].parent.value != sort
    ensures var (s1, r) := SortEffect(s, sort, f);
      var p := s.nodes[sort].parent;
      && s1.next == s.next && s1.left == s.left && s1.nodes.Keys == s.nodes.Keys
      && (r == 0 <==> p.Some?) && (r != 0 ==> r == -1)
      && s1.nodes[f] == s.nodes[f].(kind := s.nodes[f].kind.(ordering := Some(s.nodes[sort].config)),
                                    children := s.nodes[f].children + [sort],
                                    parent := if p.Some? then p else s.nodes[f].parent)
      && s1.nodes[sort] == s.nodes[sort].(parent := Some(f))
      && (p.Some? ==> s1.nodes[p.value] == s.nodes[p.value].(children := [f]))
      && Keeps(s.nodes, s1.nodes, {f, sort} + Ids(p))
  {
  }

  /** The sort push-down keeps the arena well formed when f has no parent and is not the Sort's. */
  lemma SortKeepsWellFormed(s: ArenaState, sort: int, f: int)
    requires WellFormed(s.nodes) && sort in s.nodes && f in s.nodes && sort != f && s.nodes[f].kind.Fetcher?
    requires s.nodes[f].parent == None && s.nodes[sort].parent != Some(f)
    ensures WellFormed(SortEffect(s, sort, f).0.nodes)
  {
    var k := s.nodes[f].kind.(ordering := Some(s.nodes[sort].config));
    var m1 := s.nodes[f := s.nodes[f].(kind := k)];
    RetagKeepsWellFormed(s.nodes, f, k);
    if s.nodes[sort].parent.None? {
      OrphanUnlisted(m1, sort);
      AddUnlistedKeepsWellFormed(m1, f, sort);
    } else {
      var p := s.nodes[sort].parent.value;
      ClearKeepsWellFormed(m1, p);
      UnlistedAfterClear(m1, sort);
      SortAdoptKeepsWellFormed(ClearChildren(m1, p), p, f, sort);
      assert ClearChildren(AddChild(m1, f, sort), p) == AddChild(ClearChildren(m1, p), f, sort);
    }
  }

  /** Adopting unlisted sort under parentless f, then f under p, keeps the arena well formed. */
  lemma SortAdoptKeepsWellFormed(m: Nodes, p: int, f: int, sort: int)
    requires WellFormed(m) && p in m && f in m && sort in m && p != f && f != sort
    requires m[f].parent == None && Unlisted(m, sort)
    ensures WellFormed(AddChild(AddChild(m, f, sort), p, f))
  {
    OrphanUnlisted(m, f);
    AddUnlistedKeepsWellFormed(m, f, sort);
    AddUnlistedKeepsWellFormed(AddChild(m, f, sort), p, f);
  }

  /** Besides Primed, the nodes a SELECT rewrite touches exist and differ from f. */
  ghost predicate SelectPrimed(s: ArenaState, l: Lookup, packet: int, f: int) {
    && Primed(s, packet, f) && JoinsIn(s.nodes, l.joins)
    && (l.agg.Some? ==>
          && l.agg.value in s.nodes && l.agg.value != f
          && (s.nodes[l.agg.value].parent.Some? ==> s.nodes[l.agg.value].parent.value in s.nodes))
    && (l.sort.Some? ==>
          && l.sort.value in s.nodes && l.sort.value != f && s.nodes[l.sort.value].parent != Some(f)
          && (s.nodes[l.sort.value].parent.Some? ==> s.nodes[l.sort.value].parent.value in s.nodes))
    && (l.limit.Some? ==>
          && l.limit.value in s.nodes && l.limit.value != f
          && (|s.nodes[l.limit.value].children| > 0 ==>
                s.nodes[l.limit.value].children[0] in s.nodes && s.nodes[l.limit.value].children[0] != f))
  }

  /**
   * Lines 112-181, once f is routed by the first Scan's regions: the single-region
   * wrap when there is no Join, else the first of join, aggregate, sort, limit and
   * default that applies.
   */
  function SelectDispatchEffect(s: ArenaState, l: Lookup, packet: int, f: int, regions: RegionMap): (ArenaState, int)
    requires SelectPrimed(s, l, packet, f)
  {
    if l.joins == [] && |l.scans| > 1 then (s, -1)
    else if l.joins == [] && |regions| == 1 then (s.(nodes := WrapFirstChildEffect(s.nodes, packet, f)), 0)
    else if l.joins != [] then (JoinsEffect(s, l.joins, 0).0, 0)
    else if l.agg.Some? then AggEffect(s, l.agg.value, f)
    else if l.sort.Some? then SortEffect(s, l.sort.value, f)
    else if l.limit.Some? then
      if |s.nodes[l.limit.value].children| == 0 then (s, 0)
      else (s.(nodes := WrapFirstChildEffect(s.nodes, l.limit.value, f)), 0)
    else (s.(nodes := WrapFirstChildEffect(s.nodes, packet, f)), 0)
  }

  /** The regions of the first Scan. */
  function FirstScanRegions(m: Nodes, l: Lookup): RegionMap
    requires |l.scans| > 0 && l.scans[0] in m && m[l.scans[0]].kind.Scan?
  {
    m[l.scans[0]].kind.regions
  }

  /** The statement's Fetcher created for a SELECT statement and routed by the first Scan, on the next id. */
  lemma SelectPrimedFrom(s: ArenaState, l: Lookup)
    requires Fresh(s) && WellFormed(s.nodes) && LookupValid(s.nodes, l) && Proceeds(s, l, true) && |l.scans| > 0
    ensures SelectPrimed(Spent(s, SelectFetcher(PacketOp(s.nodes, l), FirstScanRegions(s.nodes, l))), l, l.packet.value, s.next)
  {
    var s1 := Spent(s, SelectFetcher(PacketOp(s.nodes, l), FirstScanRegions(s.nodes, l)));
    FirstChild(s.nodes, l.packet.value);
    if l.limit.Some? {
      FirstChildIn(s.nodes, l.limit.value);
    }
    forall t | 0 <= t < |l.joins| ensures l.joins[t] in s1.nodes && s1.nodes[l.joins[t]].kind.Join? {
      assert l.joins[t] in s.nodes;
    }
  }

  /** Lines 104-182: a SELECT statement. */
  ghost function SelectEffect(s: ArenaState, l: Lookup): (ArenaState, int)
    requires Fresh(s) && WellFormed(s.nodes) && LookupValid(s.nodes, l) && Proceeds(s, l, true)
  {
    if |l.scans| == 0 then (Spent(s, NewFetcher(PacketOp(s.nodes, l))), -1)
    else
      var regions := FirstScanRegions(s.nodes, l);
      SelectPrimedFrom(s, l);
      SelectDispatchEffect(Spent(s, SelectFetcher(PacketOp(s.nodes, l), regions)), l, l.packet.value, s.next, regions)
  }

  /**
   * Separate::analyze as a value: the arena it leaves and its return code, given
   * what get_node finds, the need-separation flag, and the query context.
   */
  ghost function AnalyzeEffect(s: ArenaState, ctx: QueryContext, l: Lookup, needSeparate: bool, bound: nat): (ArenaState, int)
    requires Ready(s, l, bound)
  {
    if l.packet.None? then (s, -1)
    else if |s.nodes[l.packet.value].children| == 0 then (s, 0)
    else if !needSeparate then (s, 0)
    else if s.left == 0 then (s, -1)
    else
      var op := PacketOp(s.nodes, l);
      if IsDml(op) then DmlEffect(s, ctx, l, bound)
      else if op == OpBegin || op == OpCommit || op == OpRollback then TxnEffect(s, ctx, l)
      else SelectEffect(s, l)
  }

  // ----- The pass, in place -----

  /**
   * Separate::analyze. l is what get_node finds in the plan, needSeparate is
   * need_seperate(); bound is a ghost bound on the length of the single-child
   * chain below the Packet.
   */
  method Analyze(a: Arena, ctx: QueryContext, l: Lookup, needSeparate: bool, ghost bound: nat) returns (r: int)
    requires a.Valid() && Ready(a.State(), l, bound)
    modifies a
    ensures a.Valid()
    ensures (a.State(), r) == AnalyzeEffect(old(a.State()), ctx, l, needSeparate, bound)
  {
    if l.packet.None? {
      return -1;
    }
    var packet := l.packet.value;
    if |a.nodes[packet].children| == 0 {
      return 0;
    }
    if !needSeparate {
      return 0;
    }
    ghost var s0 := a.State();
    var op := a.nodes[packet].kind.op;
    var f := CreateFetcherNode(a, op);
    if f.None? {
      return -1;
    }
    assert a.State() == Spent(s0, NewFetcher(op));
    if IsDml(op) {
      r := SeparateDml(a, ctx, l, f.value, s0, bound);
    } else if op == OpBegin || op == OpCommit || op == OpRollback {
      if l.txn.None? {
        return -1;
      }
      var txn := l.txn.value;
      if op == OpBegin {
        r := SeparateBegin(a, ctx, txn);
      } else if op == OpCommit {
        r := SeparateCommit(a, ctx, txn);
      } else {
        r := SeparateRollback(a, ctx, txn);
      }
    } else {
      r := SeparateSelect(a, l, f.value, s0);
    }
  }

  /** Lines 60-85, in place, from the point where the statement's Fetcher f exists. */
  method SeparateDml(a: Arena, ctx: QueryContext, l: Lookup, f: int, ghost s0: ArenaState, ghost bound: nat)
      returns (r: int)
    requires Ready(s0, l, bound) && Proceeds(s0, l, true) && IsDml(PacketOp(s0.nodes, l))
    requires f == s0.next && a.State() == Spent(s0, NewFetcher(PacketOp(s0.nodes, l)))
    modifies a
    ensures a.Valid()
    ensures (a.State(), r) == DmlEffect(s0, ctx, l, bound)
  {
    var packet := l.packet.value;
    ghost var routing := DmlRouting(s0.nodes, l, ctx);
    RouteDmlFetcher(a, ctx, l, f, s0);
    DmlPrimed(s0, ctx, l, bound);
    ghost var root := s0.nodes[packet].children[0];
    ghost var leaf := ChainLeafOf(s0.nodes, root, bound, packet);
    ChainInsert(s0.nodes, f, FetcherFor(PacketOp(s0.nodes, l), true, routing), root, bound, packet);
    r := DmlDispatch(a, ctx, packet, f, routing, bound, leaf);
  }

  /** Lines 65-69, in place: f gets the context's regions and insert ids, then the first Scan's regions if there is one. */
  method RouteDmlFetcher(a: Arena, ctx: QueryContext, l: Lookup, f: int, ghost s0: ArenaState)
    requires Fresh(s0) && LookupValid(s0.nodes, l) && l.packet.Some? && s0.left > 0
    requires f == s0.next && a.State() == Spent(s0, NewFetcher(PacketOp(s0.nodes, l)))
    modifies a
    ensures a.Valid()
    ensures a.State() == Spent(s0, FetcherFor(PacketOp(s0.nodes, l), true, DmlRouting(s0.nodes, l, ctx)))
  {
    a.nodes := SetRegionsAndInserts(a.nodes, f, ctx.regionInfos, ctx.insertRegionIds);
    if |l.scans| > 0 {
      a.nodes := SetRegions(a.nodes, f, a.nodes[l.scans[0]].kind.regions);
    }
    assert a.nodes == s0.nodes[f := FetcherFor(PacketOp(s0.nodes, l), true, DmlRouting(s0.nodes, l, ctx))];
  }

  /** Lines 71-83, in place. */
  method DmlDispatch(a: Arena, ctx: QueryContext, packet: int, f: int, ghost routing: Routing, ghost bound: nat, ghost leaf: int)
      returns (r: int)
    requires a.Valid() && Primed(a.State(), packet, f) && a.nodes[f].kind.routing.insertRegionIds == ctx.insertRegionIds
    requires routing == a.nodes[f].kind.routing
    requires ChainBelow(a.nodes, a.nodes[packet].children[0], bound, packet)
    requires leaf == ChainLeafOf(a.nodes, a.nodes[packet].children[0], bound, packet)
    modifies a
    ensures a.Valid()
    ensures (a.State(), r) == DmlDispatchEffect(old(a.State()), ctx, packet, f, routing, leaf)
  {
    var op := a.nodes[packet].kind.op;
    if !ctx.autocommit || op == OpTruncateTable {
      WrapFirstChild(a, packet, f);
      return 0;
    }
    var regions := a.nodes[f].kind.routing.regions;
    if ctx.enable2pc {
      ghost var s1 := a.State();
      var found;
      r, found := SeparateAutocommitDml2pc(a, ctx, packet, regions, bound);
      Dml2pcAnyLeaf(s1, routing, packet, found, leaf);
    } else {
      r := SeparateAutocommitDml1pc(a, ctx, packet, regions);
    }
  }

  /** Without an allocation left, separate_autocommit_dml_2pc fails before its walk, so where the walk would end does not matter. */
  lemma Dml2pcAnyLeaf(s: ArenaState, routing: Routing, packet: int, leaf1: int, leaf2: int)
    requires Fresh(s) && packet in s.nodes && |s.nodes[packet].children| > 0
    requires s.nodes[packet].children[0] in s.nodes && leaf1 in s.nodes && leaf2 in s.nodes
    requires s.left == 0 || leaf1 == leaf2
    ensures Dml2pcEffect(s, routing, packet, leaf1) == Dml2pcEffect(s, routing, packet, leaf2)
  {
  }

  /** Lines 104-182, in place, from the point where the statement's Fetcher f exists. */
  method SeparateSelect(a: Arena, l: Lookup, f: int, ghost s0: ArenaState) returns (r: int)
    requires Fresh(s0) && WellFormed(s0.nodes) && LookupValid(s0.nodes, l) && Proceeds(s0, l, true)
    requires f == s0.next && a.State() == Spent(s0, NewFetcher(PacketOp(s0.nodes, l)))
    modifies a
    ensures a.Valid()
    ensures (a.State(), r) == SelectEffect(s0, l)
  {
    if |l.scans| == 0 {
      return -1;
    }
    var regions := RouteSelectFetcher(a, l, f, s0);
    SelectPrimedFrom(s0, l);
    r := SelectDispatch(a, l, l.packet.value, f, regions);
  }

  /** Lines 109-111: the Fetcher takes the regions of the first Scan. */
  method RouteSelectFetcher(a: Arena, l: Lookup, f: int, ghost s0: ArenaState) returns (regions: RegionMap)
    requires Fresh(s0) && LookupValid(s0.nodes, l) && l.packet.Some? && s0.left > 0 && |l.scans| > 0
    requires f == s0.next && a.State() == Spent(s0, NewFetcher(PacketOp(s0.nodes, l)))
    modifies a
    ensures a.Valid() && regions == FirstScanRegions(s0.nodes, l)
    ensures a.State() == Spent(s0, SelectFetcher(PacketOp(s0.nodes, l), regions))
  {
    regions := a.nodes[l.scans[0]].kind.regions;
    a.nodes := SetRegions(a.nodes, f, regions);
    assert a.nodes == s0.nodes[f := SelectFetcher(PacketOp(s0.nodes, l), regions)];
  }

  /** Lines 112-181, in place. */
  method SelectDispatch(a: Arena, l: Lookup, packet: int, f: int, regions: RegionMap) returns (r: int)
    requires a.Valid() && SelectPrimed(a.State(), l, packet, f)
    modifies a
    ensures a.Valid()
    ensures (a.State(), r) == SelectDispatchEffect(old(a.State()), l, packet, f, regions)
  {
    if |l.joins| == 0 {
      if |l.scans| > 1 {
        return -1;
      }
      if |regions| == 1 {
        WrapFirstChild(a, packet, f);
        return 0;
      }
    }
    if |l.joins| != 0 {
      var ignored := SeperateForJoin(a, l.joins);
    } else if l.agg.Some? {
      r := SplitAgg(a, l.agg.value, f);
      return r;
    } else if l.sort.Some? {
      r := PushSort(a, l.sort.value, f);
      return r;
    } else if l.limit.Some? {
      var limit := l.limit.value;
      if |a.nodes[limit].children| == 0 {
        return 0;
      }
      WrapFirstChild(a, limit, f);
    } else {
      WrapFirstChild(a, packet, f);
    }
    return 0;
  }

  /** Lines 133-151, in place. */
  method SplitAgg(a: Arena, agg: int, f: int) returns (r: int)
    requires a.Valid() && agg in a.nodes && f in a.nodes && agg != f
    requires a.nodes[agg].parent.Some? ==> a.nodes[agg].parent.value in a.nodes
    modifies a
    ensures a.Valid()
    ensures (a.State(), r) == AggEffect(old(a.State()), agg, f)
  {
    var parent := a.nodes[agg].parent;
    var mg := a.Alloc(MergeAggFor(a.nodes[agg].config));
    a.nodes := AddChild(a.nodes, f, agg);
    a.nodes := AddChild(a.nodes, mg, f);
    if parent.None? {
      return -1;
    }
    a.nodes := ClearChildren(a.nodes, parent.value);
    a.nodes := AddChild(a.nodes, parent.value, mg);
    return 0;
  }

  /** Lines 152-167, in place. */
  method PushSort(a: Arena, sort: int, f: int) returns (r: int)
    requires a.Valid() && sort in a.nodes && f in a.nodes && sort != f && a.nodes[f].kind.Fetcher?
    requires a.nodes[sort].parent.Some? ==> a.nodes[sort].parent.value in a.nodes
    requires a.nodes[sort].parent != Some(f)
    modifies a
    ensures a.Valid()
    ensures (a.State(), r) == SortEffect(old(a.State()), sort, f)
  {
    a.nodes := a.nodes[f := a.nodes[f].(kind := a.nodes[f].kind.(ordering := Some(a.nodes[sort].config)))];
    var parent := a.nodes[sort].parent;
    a.nodes := AddChild(a.nodes, f, sort);
    if parent.None? {
      return -1;
    }
    a.nodes := ClearChildren(a.nodes, parent.value);
    a.nodes := AddChild(a.nodes, parent.value, f);
    return 0;
  }
}
