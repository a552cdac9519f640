/**
 * Autocommit DML: the one-phase wrap (separate_autocommit_dml_1pc) and the
 * two-phase-commit assembly (separate_autocommit_dml_2pc), plus the wrap of a
 * node's first child under a Fetcher shared with the other branches of analyze.
 */
module DmlSeparate {
  import opened Wrappers
  import opened PlanNode
  import opened PlanTree
  import opened PlanArena
  import opened TxnSeparate

  /** Every node of m0 outside xs is in m, unchanged. */
  ghost predicate Keeps(m0: Nodes, m: Nodes, xs: set<int>) {
    forall k :: k in m0 && k !in xs ==> k in m && m[k] == m0[k]
  }

  /**
   * The splice repeated through analyze: f adopts from's first child x, from's
   * children are cleared (every sibling of x is dropped), and from adopts f.
   */
  function WrapFirstChildEffect(m: Nodes, from: int, f: int): (r: Nodes)
    requires from in m && f in m && from != f && |m[from].children| > 0
    requires m[from].children[0] in m && m[from].children[0] != f
    ensures r.Keys == m.Keys
  {
    var x := m[from].children[0];
    AddChild(ClearChildren(AddChild(m, f, x), from), from, f)
  }

  /** The splice, in place. */
  method WrapFirstChild(a: Arena, from: int, f: int)
    requires a.Valid() && from in a.nodes && f in a.nodes && from != f && |a.nodes[from].children| > 0
    requires a.nodes[from].children[0] in a.nodes && a.nodes[from].children[0] != f
    modifies a
    ensures a.Valid()
    ensures a.State() == old(a.State()).(nodes := WrapFirstChildEffect(old(a.nodes), from, f))
  {
    var x := a.nodes[from].children[0];
    a.nodes := AddChild(a.nodes, f, x);
    a.nodes := ClearChildren(a.nodes, from);
    a.nodes := AddChild(a.nodes, from, f);
  }

  /**
   * From m0 to m, from's first child x moved under a new node f built as n, which
   * became from's only child; from's other children were dropped, and nothing else
   * changed.
   */
  ghost predicate Wrapped(m0: Nodes, m: Nodes, from: int, n: Node) {
    && from in m0 && |m0[from].children| > 0
    && var x := m0[from].children[0];
    && x in m0 && from in m && x in m && |m[from].children| == 1
    && var f := m[from].children[0];
    && f !in m0 && f in m && m.Keys == m0.Keys + {f}
    && m[from] == m0[from].(children := [f])
    && m[f] == n.(children := [x], parent := Some(from))
    && m[x] == m0[x].(parent := Some(f))
    && Keeps(m0, m, {from, x})
  }

  /** Wrapping under a node inserted under a fresh id keeps the arena well formed. */
  lemma WrapFreshKeepsWellFormed(m: Nodes, from: int, f: int, n: Node)
    requires WellFormed(m) && from in m && |m[from].children| > 0 && f !in m && Detached(n)
    ensures m[from].children[0] in m && m[from].children[0] != f
    ensures WellFormed(WrapFirstChildEffect(m[f := n], from, f))
  {
    FirstChild(m, from);
    var x := m[from].children[0];
    var m1 := m[f := n];
    InsertDetached(m, f, n);
    ClearKeepsWellFormed(m1, from);
    var m2 := ClearChildren(m1, from);
    AddUnlistedKeepsWellFormed(m2, f, x);
    assert ClearChildren(AddChild(m1, f, x), from) == AddChild(m2, f, x);
    AddDetachedKeepsWellFormed(AddChild(m2, f, x), from, f);
  }

  /** Wrapping under a node inserted under a fresh id is Wrapped. */
  lemma WrapFreshShape(m: Nodes, from: int, f: int, n: Node)
    requires from in m && |m[from].children| > 0 && f !in m && n.children == []
    requires m[from].children[0] in m && m[from].children[0] != from
    ensures Wrapped(m, WrapFirstChildEffect(m[f := n], from, f), from, n)
  {
    var x := m[from].children[0];
    var r := WrapFirstChildEffect(m[f := n], from, f);
    assert r.Keys == m.Keys + {f};
    assert r[from] == m[from].(children := [f]);
    assert r[f] == n.(children := [x], parent := Some(from));
    assert r[x] == m[x].(parent := Some(f));
    assert Keeps(m, r, {from, x});
  }

  /** The effect of separate_autocommit_dml_1pc. */
  function Dml1pcEffect(s: ArenaState, ctx: QueryContext, packet: int, regions: RegionMap): (ArenaState, int)
    requires Fresh(s) && packet in s.nodes && s.nodes[packet].kind.Packet? && |s.nodes[packet].children| > 0
    requires s.nodes[packet].children[0] in s.nodes
  {
    var (s1, f) := CreateFetcherEffect(s, s.nodes[packet].kind.op, true, Routing(regions, ctx.insertRegionIds));
    if f.None? then (s1, -1)
    else (s1.(nodes := WrapFirstChildEffect(s1.nodes, packet, f.value)), 0)
  }

  /** separate_autocommit_dml_1pc: the DML subtree goes under one Fetcher tagged with the statement's op. */
  method SeparateAutocommitDml1pc(a: Arena, ctx: QueryContext, packet: int, regions: RegionMap) returns (r: int)
    requires a.Valid() && packet in a.nodes && a.nodes[packet].kind.Packet? && |a.nodes[packet].children| > 0
    requires a.nodes[packet].children[0] in a.nodes
    modifies a
    ensures a.Valid()
    ensures (a.State(), r) == Dml1pcEffect(old(a.State()), ctx, packet, regions)
  {
    var f := CreateRoutedFetcher(a, a.nodes[packet].kind.op, true, Routing(regions, ctx.insertRegionIds));
    if f.None? {
      return -1;
    }
    WrapFirstChild(a, packet, f.value);
    return 0;
  }

  /**
   * With an allocation left, separate_autocommit_dml_1pc wraps the Packet's first child
   * in a Fetcher tagged with the Packet's op and routed by regions and the context's
   * insert ids; without one it fails and changes nothing.
   */
  lemma Dml1pcOutcome(s: ArenaState, ctx: QueryContext, packet: int, regions: RegionMap)
    requires WellFormed(s.nodes) && Fresh(s) && packet in s.nodes && s.nodes[packet].kind.Packet?
    requires |s.nodes[packet].children| > 0
    ensures s.nodes[packet].children[0] in s.nodes
    ensures var (s1, r) := Dml1pcEffect(s, ctx, packet, regions);
      && WellFormed(s1.nodes) && Fresh(s1) && Grown(s, s1)
      && (r == 0 <==> s.left > 0) && (r != 0 ==> r == -1 && s1 == s)
      && (r == 0 ==>
            && s1.left == s.left - 1
            && Wrapped(s.nodes, s1.nodes, packet,
                       FetcherFor(s.nodes[packet].kind.op, true, Routing(regions, ctx.insertRegionIds))))
  {
    FirstChild(s.nodes, packet);
    if s.left > 0 {
      var n := FetcherFor(s.nodes[packet].kind.op, true, Routing(regions, ctx.insertRegionIds));
      Dml1pcWraps(s, ctx, packet, regions);
      var m1 := s.nodes[s.next := n];
      AllocFacts(s, n);
      FreshKeys(ArenaState(m1, s.next + 1, s.left - 1), ArenaState(WrapFirstChildEffect(m1, packet, s.next), s.next + 1, s.left - 1));
      WrapFreshKeepsWellFormed(s.nodes, packet, s.next, n);
      WrapFreshShape(s.nodes, packet, s.next, n);
    }
  }

  /** With an allocation left, separate_autocommit_dml_1pc is the wrap under a routed Fetcher on the next fresh id. */
  lemma Dml1pcWraps(s: ArenaState, ctx: QueryContext, packet: int, regions: RegionMap)
    requires Fresh(s) && packet in s.nodes && s.nodes[packet].kind.Packet? && |s.nodes[packet].children| > 0
    requires s.nodes[packet].children[0] in s.nodes && s.left > 0
    ensures var n := FetcherFor(s.nodes[packet].kind.op, true, Routing(regions, ctx.insertRegionIds));
      Dml1pcEffect(s, ctx, packet, regions)
        == (ArenaState(WrapFirstChildEffect(s.nodes[s.next := n], packet, s.next), s.next + 1, s.left - 1), 0)
  {
  }

  /** leaf is the first node with other than one child on the single-child chain from root. */
  ghost predicate IsChainLeaf(m: Nodes, root: int, leaf: int) {
    leaf in m && |m[leaf].children| != 1 && exists k :: Descend(m, root, k) == Some(leaf)
  }

  /** Where the walk down single-child links from id ends. */
  ghost function ChainLeafOf(m: Nodes, id: int, n: nat, avoid: int): (leaf: int)
    requires ChainBelow(m, id, n, avoid)
    ensures leaf in m && leaf != avoid && |m[leaf].children| != 1
    decreases n
  {
    if |m[id].children| == 1 then ChainLeafOf(m, m[id].children[0], n - 1, avoid) else id
  }

  /** The end of the walk is reached by some number of single-child steps. */
  lemma {:induction false} ChainLeafOfDescends(m: Nodes, id: int, n: nat, avoid: int)
    requires ChainBelow(m, id, n, avoid)
    ensures Descend(m, id, ChainSteps(m, id, n, avoid)) == Some(ChainLeafOf(m, id, n, avoid))
    decreases n
  {
    if |m[id].children| == 1 {
      ChainLeafOfDescends(m, m[id].children[0], n - 1, avoid);
    }
  }

  /** How many single-child steps the walk from id takes. */
  ghost function ChainSteps(m: Nodes, id: int, n: nat, avoid: int): nat
    requires ChainBelow(m, id, n, avoid)
    decreases n
  {
    if |m[id].children| == 1 then 1 + ChainSteps(m, m[id].children[0], n - 1, avoid) else 0
  }

  /**
   * The walk ends exactly on the chain leaf: the first node with other than one
   * child reached from root by single-child links.
   */
  lemma ChainLeafOfIsLeaf(m: Nodes, root: int, n: nat, avoid: int, x: int)
    requires ChainBelow(m, root, n, avoid)
    ensures IsChainLeaf(m, root, x) <==> x == ChainLeafOf(m, root, n, avoid)
  {
    var leaf := ChainLeafOf(m, root, n, avoid);
    ChainLeafOfDescends(m, root, n, avoid);
    if IsChainLeaf(m, root, x) {
      var k :| Descend(m, root, k) == Some(x);
      ChainLeafUnique(m, root, k, ChainSteps(m, root, n, avoid), x, leaf);
    }
  }

  /** The walk of separate_autocommit_dml_2pc: follow single-child links down from root. */
  method FindDmlLeaf(m: Nodes, root: int, ghost bound: nat, ghost avoid: int) returns (leaf: int)
    requires ChainBelow(m, root, bound, avoid)
    ensures leaf == ChainLeafOf(m, root, bound, avoid)
  {
    leaf := root;
    ghost var left: nat := bound;
    while |m[leaf].children| == 1
      invariant ChainBelow(m, leaf, left, avoid)
      invariant ChainLeafOf(m, leaf, left, avoid) == ChainLeafOf(m, root, bound, avoid)
      decreases left
    {
      leaf := m[leaf].children[0];
      left := left - 1;
    }
  }

  /** Adding a node under a fresh id does not change a single-child chain that starts in the arena. */
  lemma {:induction false} ChainInsert(m: Nodes, key: int, v: Node, id: int, n: nat, avoid: int)
    requires key !in m && ChainBelow(m, id, n, avoid)
    ensures ChainBelow(m[key := v], id, n, avoid)
    ensures ChainLeafOf(m[key := v], id, n, avoid) == ChainLeafOf(m, id, n, avoid)
    decreases n
  {
    if |m[id].children| == 1 {
      ChainInsert(m, key, v, m[id].children[0], n - 1, avoid);
    }
  }

  /** The arena a group of statements leaves, and whether the function went on past all of them. */
  datatype Outcome = Outcome(state: ArenaState, ok: bool)

  /*
   * separate_autocommit_dml_2pc, stage by stage. A stage either runs in full or
   * stops the function at its first null allocation; the nodes it created before
   * that stay in the arena, detached from the plan or hung under one another.
   */

  /** The Fetchers stage: the PREPARE, COMMIT and ROLLBACK Fetchers, each routed on creation, stopping at the first null. */
  function FetchersEffect(s: ArenaState, routing: Routing): Outcome {
    var (s1, f1) := CreateFetcherEffect(s, OpPrepare, true, routing);
    if f1.None? then Outcome(s1, false) else FetchersAfterFirst(s1, routing)
  }

  /** The COMMIT and ROLLBACK Fetchers of the Fetchers stage. */
  function FetchersAfterFirst(s: ArenaState, routing: Routing): Outcome {
    var (s2, f2) := CreateFetcherEffect(s, OpCommit, true, routing);
    if f2.None? then Outcome(s2, false)
    else
      var (s3, f3) := CreateFetcherEffect(s2, OpRollback, true, routing);
      Outcome(s3, f3.Some?)
  }

  /** The three links of the PREPARE branch: root under sp, sb under leaf, sp under pf. */
  function PrepareLinks(m: Nodes, pf: int, root: int, leaf: int, sb: int, sp: int): (r: Nodes)
    requires pf in m && root in m && leaf in m && sb in m && sp in m
    requires sp != root && sb != leaf && sp != pf
    ensures r.Keys == m.Keys
  {
    AddChild(AddChild(AddChild(m, sp, root), leaf, sb), pf, sp)
  }

  /** The PREPARE stage: the STORE-BEGIN and PREPARE store nodes, then the links of the PREPARE branch. */
  function PrepareEffect(s: ArenaState, pf: int, root: int, leaf: int): Outcome
    requires pf in s.nodes && root in s.nodes && leaf in s.nodes
    requires pf < s.next && root < s.next && leaf < s.next
  {
    var (s1, sb) := TryAllocEffect(s, NewTxn(TxnBeginStore));
    if sb.None? then Outcome(s1, false)
    else
      var (s2, sp) := TryAllocEffect(s1, NewTxn(TxnPrepare));
      if sp.None? then Outcome(s2, false)
      else Outcome(s2.(nodes := PrepareLinks(s2.nodes, pf, root, leaf, sb.value, sp.value)), true)
  }

  /** The four links that close the function: pf, cf, rf under c, in that order, and c under packet. */
  function LinkCommit(m: Nodes, packet: int, c: int, pf: int, cf: int, rf: int): (r: Nodes)
    requires packet in m && c in m && pf in m && cf in m && rf in m
    requires packet != c && c != pf && c != cf && c != rf
    ensures r.Keys == m.Keys
  {
    AddChild(AddChild(AddChild(AddChild(m, c, pf), c, cf), c, rf), packet, c)
  }

  /** The closing stage: the COMMIT store node under cf, the ROLLBACK one under rf, then the closing links. */
  function CommitEffect(s: ArenaState, packet: int, c: int, pf: int, cf: int, rf: int): Outcome
    requires packet in s.nodes && c in s.nodes && pf in s.nodes && cf in s.nodes && rf in s.nodes
    requires cf < s.next && rf < s.next
    requires packet != c && c != pf && c != cf && c != rf
  {
    var (s1, t1) := AttachStoreEffect(s, cf, TxnCommitStore);
    if t1.None? then Outcome(s1, false)
    else
      var (s2, t2) := AttachStoreEffect(s1, rf, TxnRollbackStore);
      if t2.None? then Outcome(s2, false)
      else Outcome(s2.(nodes := LinkCommit(s2.nodes, packet, c, pf, cf, rf)), true)
  }

  /**
   * separate_autocommit_dml_2pc as a value, given the node leaf its walk ends on:
   * the arena it leaves, and whether it returns 0 (every stage ran) rather than -1.
   * The coordinator takes the next fresh id c, the Fetchers c + 1 to c + 3, the
   * STORE-BEGIN and PREPARE store nodes c + 4 and c + 5, the COMMIT and ROLLBACK
   * store nodes c + 6 and c + 7.
   */
  function Dml2pcEffect(s: ArenaState, routing: Routing, packet: int, leaf: int): Outcome
    requires Fresh(s) && packet in s.nodes && |s.nodes[packet].children| > 0
    requires s.nodes[packet].children[0] in s.nodes && leaf in s.nodes
  {
    var root := s.nodes[packet].children[0];
    var (s1, c) := TryAllocEffect(s, NewTxn(TxnCommit));
    if c.None? then Outcome(s1, false)
    else
      assert root < c.value && leaf < c.value && packet < c.value;
      Dml2pcStages(s1.(nodes := ClearChildren(s1.nodes, packet)), routing, packet, c.value, root, leaf)
  }

  /** The ids in use when the stages after clear_children start, with rest ids taken from c on. */
  ghost predicate StagesReady(s: ArenaState, packet: int, c: int, root: int, leaf: int, rest: int) {
    && packet in s.nodes && c in s.nodes && root in s.nodes && leaf in s.nodes
    && packet < c && root < c && leaf < c && c + rest == s.next
  }

  /** The stages of separate_autocommit_dml_2pc after clear_children, with the coordinator on c. */
  function Dml2pcStages(s: ArenaState, routing: Routing, packet: int, c: int, root: int, leaf: int): Outcome
    requires StagesReady(s, packet, c, root, leaf, 1)
  {
    var o := FetchersEffect(s, routing);
    if !o.ok then o
    else Dml2pcLinks(o.state, packet, c, root, leaf)
  }

  /** The PREPARE and closing stages, with the Fetchers on c + 1 to c + 3. */
  function Dml2pcLinks(s: ArenaState, packet: int, c: int, root: int, leaf: int): Outcome
    requires StagesReady(s, packet, c, root, leaf, 4)
    requires c + 1 in s.nodes && c + 2 in s.nodes && c + 3 in s.nodes
  {
    var o := PrepareEffect(s, c + 1, root, leaf);
    if !o.ok then o
    else
      assert o.state.nodes.Keys == s.nodes.Keys + {c + 4, c + 5} && o.state.next == c + 6;
      CommitEffect(o.state, packet, c, c + 1, c + 2, c + 3)
  }

  /** The Fetchers stage, in place; on success pf, cf, rf are the three Fetchers. */
  method AllocFetchers(a: Arena, routing: Routing) returns (ok: bool, pf: int, cf: int, rf: int)
    requires a.Valid()
    modifies a
    ensures a.Valid()
    ensures Outcome(a.State(), ok) == FetchersEffect(old(a.State()), routing)
    ensures ok ==> pf == old(a.nextId) && cf == pf + 1 && rf == pf + 2
  {
    var f1 := CreateRoutedFetcher(a, OpPrepare, true, routing);
    if f1.None? {
      return false, 0, 0, 0;
    }
    var f2 := CreateRoutedFetcher(a, OpCommit, true, routing);
    if f2.None? {
      return false, 0, 0, 0;
    }
    var f3 := CreateRoutedFetcher(a, OpRollback, true, routing);
    if f3.None? {
      return false, 0, 0, 0;
    }
    return true, f1.value, f2.value, f3.value;
  }

  /** The PREPARE stage, in place. */
  method LinkPrepare(a: Arena, pf: int, root: int, leaf: int) returns (ok: bool)
    requires a.Valid() && pf in a.nodes && root in a.nodes && leaf in a.nodes
    modifies a
    ensures a.Valid()
    ensures Outcome(a.State(), ok) == PrepareEffect(old(a.State()), pf, root, leaf)
  {
    var sb := CreateTxnNode(a, TxnBeginStore);
    if sb.None? {
      return false;
    }
    var sp := CreateTxnNode(a, TxnPrepare);
    if sp.None? {
      return false;
    }
    a.nodes := AddChild(a.nodes, sp.value, root);
    a.nodes := AddChild(a.nodes, leaf, sb.value);
    a.nodes := AddChild(a.nodes, pf, sp.value);
    return true;
  }

  /** The closing stage, in place. */
  method FinishCommit(a: Arena, packet: int, c: int, pf: int, cf: int, rf: int) returns (ok: bool)
    requires a.Valid() && packet in a.nodes && c in a.nodes && pf in a.nodes && cf in a.nodes && rf in a.nodes
    requires packet != c && c != pf && c != cf && c != rf
    modifies a
    ensures a.Valid()
    ensures Outcome(a.State(), ok) == CommitEffect(old(a.State()), packet, c, pf, cf, rf)
  {
    var t1 := AttachStore(a, cf, TxnCommitStore);
    if t1.None? {
      return false;
    }
    var t2 := AttachStore(a, rf, TxnRollbackStore);
    if t2.None? {
      return false;
    }
    LinkCommitNodes(a, packet, c, pf, cf, rf);
    return true;
  }

  /** The closing links, in place. */
  method LinkCommitNodes(a: Arena, packet: int, c: int, pf: int, cf: int, rf: int)
    requires a.Valid() && packet in a.nodes && c in a.nodes && pf in a.nodes && cf in a.nodes && rf in a.nodes
    requires packet != c && c != pf && c != cf && c != rf
    modifies a
    ensures a.Valid()
    ensures a.State() == old(a.State()).(nodes := LinkCommit(old(a.nodes), packet, c, pf, cf, rf))
  {
    a.nodes := AddChild(a.nodes, c, pf);
    a.nodes := AddChild(a.nodes, c, cf);
    a.nodes := AddChild(a.nodes, c, rf);
    a.nodes := AddChild(a.nodes, packet, c);
  }

  /**
   * separate_autocommit_dml_2pc: the DML subtree, and below its chain leaf a
   * STORE-BEGIN node, go under a PREPARE store node and Fetcher; COMMIT and
   * ROLLBACK Fetchers with their store nodes follow, all three under a COMMIT
   * coordinator that becomes the Packet's only child. leaf is where the walk
   * down single-child links ended.
   */
  method SeparateAutocommitDml2pc(a: Arena, ctx: QueryContext, packet: int, regions: RegionMap, ghost bound: nat)
      returns (r: int, leaf: int)
    requires a.Valid() && packet in a.nodes && a.nodes[packet].kind.Packet? && |a.nodes[packet].children| > 0
    requires ChainBelow(a.nodes, a.nodes[packet].children[0], bound, packet)
    modifies a
    ensures a.Valid()
    ensures leaf in old(a.nodes) && leaf != packet
    ensures old(a.allocLeft) > 0 ==> leaf == ChainLeafOf(old(a.nodes), old(a.nodes[packet].children[0]), bound, packet)
    ensures r == 0 || r == -1
    ensures Outcome(a.State(), r == 0) == Dml2pcEffect(old(a.State()), Routing(regions, ctx.insertRegionIds), packet, leaf)
  {
    var root := a.nodes[packet].children[0];
    var routing := Routing(regions, ctx.insertRegionIds);
    ghost var s0 := a.State();
    assert root < s0.next && packet < s0.next;
    var c := CreateTxnNode(a, TxnCommit);
    if c.None? {
      return -1, root;
    }
    ChainInsert(s0.nodes, c.value, NewTxn(TxnCommit), root, bound, packet);
    leaf := FindDmlLeaf(a.nodes, root, bound, packet);
    a.nodes := ClearChildren(a.nodes, packet);
    r := Dml2pcFinish(a, packet, c.value, root, leaf, routing);
  }

  /** The stages of separate_autocommit_dml_2pc after clear_children, in place. */
  method Dml2pcFinish(a: Arena, packet: int, c: int, root: int, leaf: int, routing: Routing) returns (r: int)
    requires a.Valid() && StagesReady(a.State(), packet, c, root, leaf, 1)
    modifies a
    ensures a.Valid()
    ensures r == 0 || r == -1
    ensures Outcome(a.State(), r == 0) == Dml2pcStages(old(a.State()), routing, packet, c, root, leaf)
  {
    var ok, pf, cf, rf := AllocFetchers(a, routing);
    if !ok {
      return -1;
    }
    ok := LinkPrepare(a, pf, root, leaf);
    if !ok {
      return -1;
    }
    ok := FinishCommit(a, packet, c, pf, cf, rf);
    if !ok {
      return -1;
    }
    return 0;
  }

  /*
   * What each stage does to the arena.
   */

  /** Keeps composes, the exempt sets adding up. */
  lemma KeepsTrans(m0: Nodes, m1: Nodes, m2: Nodes, xs: set<int>, ys: set<int>)
    requires Keeps(m0, m1, xs) && Keeps(m1, m2, ys)
    ensures Keeps(m0, m2, xs + ys)
  {
  }

  /** The nodes after the three Fetchers were created on ids from f on. */
  function Fetched(m: Nodes, f: int, routing: Routing): Nodes {
    m[f := FetcherFor(OpPrepare, true, routing)][f + 1 := FetcherFor(OpCommit, true, routing)][f + 2 := FetcherFor(OpRollback, true, routing)]
  }

  /** With three allocations left, the Fetchers stage creates the three routed Fetchers on the next three ids. */
  lemma FetchersRun(s: ArenaState, routing: Routing)
    requires s.left >= 3
    ensures FetchersEffect(s, routing) == Outcome(ArenaState(Fetched(s.nodes, s.next, routing), s.next + 3, s.left - 3), true)
  {
    var (s1, f1) := CreateFetcherEffect(s, OpPrepare, true, routing);
    var (s2, f2) := CreateFetcherEffect(s1, OpCommit, true, routing);
    assert s2 == ArenaState(s.nodes[s.next := FetcherFor(OpPrepare, true, routing)][s.next + 1 := FetcherFor(OpCommit, true, routing)], s.next + 2, s.left - 2);
  }

  /** Creating the three Fetchers on fresh ids keeps the arena well formed. */
  lemma FetchedKeepsWellFormed(s: ArenaState, routing: Routing)
    requires WellFormed(s.nodes) && Fresh(s)
    ensures WellFormed(Fetched(s.nodes, s.next, routing))
    ensures Fresh(ArenaState(Fetched(s.nodes, s.next, routing), s.next + 3, 0))
  {
    var m1 := s.nodes[s.next := FetcherFor(OpPrepare, true, routing)];
    var m2 := m1[s.next + 1 := FetcherFor(OpCommit, true, routing)];
    InsertDetached(s.nodes, s.next, FetcherFor(OpPrepare, true, routing));
    InsertDetached(m1, s.next + 1, FetcherFor(OpCommit, true, routing));
    InsertDetached(m2, s.next + 2, FetcherFor(OpRollback, true, routing));
  }

  /** Without three allocations left, the Fetchers stage stops with the budget spent, adding only detached Fetchers. */
  lemma FetchersFail(s: ArenaState, routing: Routing)
    requires WellFormed(s.nodes) && Fresh(s) && s.left < 3
    ensures var o := FetchersEffect(s, routing);
      && !o.ok && o.state.left == 0 && WellFormed(o.state.nodes) && Fresh(o.state) && Grown(s, o.state)
      && Keeps(s.nodes, o.state.nodes, {})
  {
    CreateFetcherFacts(s, OpPrepare, true, routing);
    var (s1, f1) := CreateFetcherEffect(s, OpPrepare, true, routing);
    if f1.Some? {
      FetchersFailLater(s1, routing);
      KeepsTrans(s.nodes, s1.nodes, FetchersAfterFirst(s1, routing).state.nodes, {}, {});
    }
  }

  /** With fewer than two allocations left after the first Fetcher, the stage stops adding at most one more detached Fetcher. */
  lemma FetchersFailLater(s: ArenaState, routing: Routing)
    requires WellFormed(s.nodes) && Fresh(s) && s.left < 2
    ensures var o := FetchersAfterFirst(s, routing);
      && !o.ok && o.state.left == 0 && WellFormed(o.state.nodes) && Fresh(o.state) && Grown(s, o.state)
      && Keeps(s.nodes, o.state.nodes, {})
  {
    CreateFetcherFacts(s, OpCommit, true, routing);
  }

  /**
   * From m0 to m, root moved under sp and sb was appended to leaf's children
   * (root and leaf may be one node).
   */
  ghost predicate RootLeafMoved(m0: Nodes, m: Nodes, root: int, leaf: int, sb: int, sp: int) {
    && root in m0 && leaf in m0 && root in m && leaf in m
    && m[root].parent == Some(sp) && m[leaf].children == m0[leaf].children + [sb]
    && (root != leaf ==>
          m[root] == m0[root].(parent := Some(sp)) && m[leaf] == m0[leaf].(children := m0[leaf].children + [sb]))
    && (root == leaf ==> m[root] == m0[root].(children := m0[root].children + [sb], parent := Some(sp)))
  }

  /**
   * From m0 to m, the PREPARE branch was built on new ids sb and sp: sp holds root
   * and hangs last under pf, sb hangs last under leaf, and nothing else changed.
   */
  ghost predicate PrepareShape(m0: Nodes, m: Nodes, pf: int, root: int, leaf: int, sb: int, sp: int) {
    && pf in m0 && sb in m && sp in m && pf in m
    && m.Keys == m0.Keys + {sb, sp}
    && m[sp] == NewTxn(TxnPrepare).(children := [root], parent := Some(pf))
    && m[sb] == NewTxn(TxnBeginStore).(parent := Some(leaf))
    && m[pf] == m0[pf].(children := m0[pf].children + [sp])
    && RootLeafMoved(m0, m, root, leaf, sb, sp)
    && Keeps(m0, m, {pf, root, leaf})
  }

  /** The nodes after the PREPARE branch was built on ids sb and sp. */
  function Prepared(m: Nodes, pf: int, root: int, leaf: int, sb: int, sp: int): Nodes
    requires pf in m && root in m && leaf in m && sb !in m && sp !in m && sb != sp
  {
    PrepareLinks(m[sb := NewTxn(TxnBeginStore)][sp := NewTxn(TxnPrepare)], pf, root, leaf, sb, sp)
  }

  /** With two allocations left, the PREPARE stage builds its branch on the next two ids. */
  lemma PrepareRun(s: ArenaState, pf: int, root: int, leaf: int)
    requires Fresh(s) && pf in s.nodes && root in s.nodes && leaf in s.nodes && s.left >= 2
    ensures pf < s.next && root < s.next && leaf < s.next
    ensures PrepareEffect(s, pf, root, leaf)
         == Outcome(ArenaState(Prepared(s.nodes, pf, root, leaf, s.next, s.next + 1), s.next + 2, s.left - 2), true)
  {
    var m2 := s.nodes[s.next := NewTxn(TxnBeginStore)][s.next + 1 := NewTxn(TxnPrepare)];
    var (s1, sb) := TryAllocEffect(s, NewTxn(TxnBeginStore));
    var (s2, sp) := TryAllocEffect(s1, NewTxn(TxnPrepare));
    assert s2 == ArenaState(m2, s.next + 2, s.left - 2) && sb == Some(s.next) && sp == Some(s.next + 1);
  }

  /** The PREPARE branch keeps the arena well formed when root is listed by nobody and sb, sp are new. */
  lemma PreparedKeepsWellFormed(m: Nodes, pf: int, root: int, leaf: int, sb: int, sp: int)
    requires WellFormed(m) && pf in m && root in m && leaf in m && sb !in m && sp !in m && sb != sp
    requires Orphaned(m, root)
    ensures WellFormed(Prepared(m, pf, root, leaf, sb, sp))
  {
    var m1 := m[sb := NewTxn(TxnBeginStore)];
    InsertDetached(m, sb, NewTxn(TxnBeginStore));
    var m2 := m1[sp := NewTxn(TxnPrepare)];
    InsertDetached(m1, sp, NewTxn(TxnPrepare));
    AddOrphanKeepsWellFormed(m2, sp, root);
    var m3 := AddChild(m2, sp, root);
    AddDetachedKeepsWellFormed(m3, leaf, sb);
    AddDetachedKeepsWellFormed(AddChild(m3, leaf, sb), pf, sp);
  }

  /** The PREPARE branch, built on new ids, is PrepareShape. */
  lemma PreparedShape(m: Nodes, pf: int, root: int, leaf: int, sb: int, sp: int)
    requires pf in m && root in m && leaf in m && sb !in m && sp !in m && sb != sp && pf != root && pf != leaf
    ensures PrepareShape(m, Prepared(m, pf, root, leaf, sb, sp), pf, root, leaf, sb, sp)
  {
    var r := Prepared(m, pf, root, leaf, sb, sp);
    assert RootLeafMoved(m, r, root, leaf, sb, sp);
    assert Keeps(m, r, {pf, root, leaf});
  }

  /** Without two allocations left, the PREPARE stage stops with the budget spent, adding at most a detached node. */
  lemma PrepareFails(s: ArenaState, pf: int, root: int, leaf: int)
    requires WellFormed(s.nodes) && Fresh(s) && pf in s.nodes && root in s.nodes && leaf in s.nodes && s.left < 2
    ensures pf < s.next && root < s.next && leaf < s.next
    ensures var o := PrepareEffect(s, pf, root, leaf);
      && !o.ok && o.state.left == 0 && WellFormed(o.state.nodes) && Fresh(o.state) && Grown(s, o.state)
      && Keeps(s.nodes, o.state.nodes, {})
  {
    TryAllocFacts(s, NewTxn(TxnBeginStore));
  }

  /**
   * From m0 to m, the store nodes t1 and t2 were hung under cf and rf, pf, cf and rf
   * were appended to c's children, and c to packet's; nothing else changed.
   */
  ghost predicate CommitShape(m0: Nodes, m: Nodes, packet: int, c: int, pf: int, cf: int, rf: int, t1: int, t2: int) {
    && packet in m0 && c in m0 && pf in m0 && cf in m0 && rf in m0 && t1 in m && t2 in m
    && m.Keys == m0.Keys + {t1, t2}
    && m[packet] == m0[packet].(children := m0[packet].children + [c])
    && m[c] == m0[c].(children := m0[c].children + [pf, cf, rf], parent := Some(packet))
    && m[pf] == m0[pf].(parent := Some(c))
    && m[cf] == m0[cf].(children := m0[cf].children + [t1], parent := Some(c))
    && m[rf] == m0[rf].(children := m0[rf].children + [t2], parent := Some(c))
    && m[t1] == NewTxn(TxnCommitStore).(parent := Some(cf))
    && m[t2] == NewTxn(TxnRollbackStore).(parent := Some(rf))
    && Keeps(m0, m, {packet, c, pf, cf, rf})
  }

  /** The nodes after both store nodes were attached, t1 under cf and t2 under rf. */
  function StoresAttached(m: Nodes, cf: int, rf: int, t1: int, t2: int): (r: Nodes)
    requires cf in m && rf in m && t1 !in m && t2 !in m && t1 != t2
    ensures r.Keys == m.Keys + {t1, t2}
  {
    var m1 := AddChild(m[t1 := NewTxn(TxnCommitStore)], cf, t1);
    AddChild(m1[t2 := NewTxn(TxnRollbackStore)], rf, t2)
  }

  /** With two allocations left, the closing stage attaches the store nodes on the next two ids, then links. */
  lemma CommitRun(s: ArenaState, packet: int, c: int, pf: int, cf: int, rf: int)
    requires Fresh(s) && s.left >= 2
    requires packet in s.nodes && c in s.nodes && pf in s.nodes && cf in s.nodes && rf in s.nodes
    requires packet != c && c != pf && c != cf && c != rf
    ensures cf < s.next && rf < s.next
    ensures CommitEffect(s, packet, c, pf, cf, rf)
         == Outcome(ArenaState(LinkCommit(StoresAttached(s.nodes, cf, rf, s.next, s.next + 1), packet, c, pf, cf, rf),
                               s.next + 2, s.left - 2), true)
  {
    var (s1, t1) := AttachStoreEffect(s, cf, TxnCommitStore);
    assert s1 == ArenaState(AddChild(s.nodes[s.next := NewTxn(TxnCommitStore)], cf, s.next), s.next + 1, s.left - 1);
  }

  /** Attaching both store nodes keeps the arena well formed. */
  lemma StoresAttachedFacts(m: Nodes, cf: int, rf: int, t1: int, t2: int)
    requires WellFormed(m) && cf in m && rf in m && t1 !in m && t2 !in m && t1 != t2
    ensures WellFormed(StoresAttached(m, cf, rf, t1, t2))
  {
    var m0 := m[t1 := NewTxn(TxnCommitStore)];
    InsertDetached(m, t1, NewTxn(TxnCommitStore));
    AddDetachedKeepsWellFormed(m0, cf, t1);
    var m1 := AddChild(m0, cf, t1);
    InsertDetached(m1, t2, NewTxn(TxnRollbackStore));
    AddDetachedKeepsWellFormed(m1[t2 := NewTxn(TxnRollbackStore)], rf, t2);
  }

  /** Linking four parentless nodes keeps the arena well formed. */
  lemma LinkCommitKeepsWellFormed(m: Nodes, packet: int, c: int, pf: int, cf: int, rf: int)
    requires WellFormed(m) && packet in m && c in m && pf in m && cf in m && rf in m
    requires packet != c && c != pf && c != cf && c != rf && pf != cf && pf != rf && cf != rf
    requires m[c].parent == None && m[pf].parent == None && m[cf].parent == None && m[rf].parent == None
    ensures WellFormed(LinkCommit(m, packet, c, pf, cf, rf))
  {
    AddDetachedKeepsWellFormed(m, c, pf);
    var m1 := AddChild(m, c, pf);
    AddDetachedKeepsWellFormed(m1, c, cf);
    var m2 := AddChild(m1, c, cf);
    AddDetachedKeepsWellFormed(m2, c, rf);
    AddDetachedKeepsWellFormed(AddChild(m2, c, rf), packet, c);
  }

  /** The closing stage keeps the arena well formed when c, pf, cf and rf have no parent. */
  lemma CommitLinkedKeepsWellFormed(m: Nodes, packet: int, c: int, pf: int, cf: int, rf: int, t1: int, t2: int)
    requires WellFormed(m) && packet in m && c in m && pf in m && cf in m && rf in m && t1 !in m && t2 !in m && t1 != t2
    requires packet != c && c != pf && c != cf && c != rf && pf != cf && pf != rf && cf != rf
    requires m[c].parent == None && m[pf].parent == None && m[cf].parent == None && m[rf].parent == None
    ensures WellFormed(LinkCommit(StoresAttached(m, cf, rf, t1, t2), packet, c, pf, cf, rf))
  {
    StoresAttachedFacts(m, cf, rf, t1, t2);
    var m2 := StoresAttached(m, cf, rf, t1, t2);
    assert m2[c].parent == None && m2[pf].parent == None && m2[cf].parent == None && m2[rf].parent == None;
    LinkCommitKeepsWellFormed(m2, packet, c, pf, cf, rf);
  }

  /** The attachments and links of the closing stage, on distinct nodes, are CommitShape. */
  lemma CommitLinkedShape(m: Nodes, packet: int, c: int, pf: int, cf: int, rf: int, t1: int, t2: int)
    requires packet in m && c in m && pf in m && cf in m && rf in m && t1 !in m && t2 !in m && t1 != t2
    requires packet != c && packet != pf && packet != cf && packet != rf
    requires c != pf && c != cf && c != rf && pf != cf && pf != rf && cf != rf
    ensures CommitShape(m, LinkCommit(StoresAttached(m, cf, rf, t1, t2), packet, c, pf, cf, rf), packet, c, pf, cf, rf, t1, t2)
  {
    var m2 := StoresAttached(m, cf, rf, t1, t2);
    assert m2[t1] == NewTxn(TxnCommitStore).(parent := Some(cf));
    assert m2[cf] == m[cf].(children := m[cf].children + [t1]);
    assert m2[rf] == m[rf].(children := m[rf].children + [t2]);
    assert Keeps(m, m2, {cf, rf});
  }

  /** Without two allocations left, the closing stage stops with the budget spent, hanging at most a store node under cf. */
  lemma CommitFails(s: ArenaState, packet: int, c: int, pf: int, cf: int, rf: int)
    requires WellFormed(s.nodes) && Fresh(s) && s.left < 2
    requires packet in s.nodes && c in s.nodes && pf in s.nodes && cf in s.nodes && rf in s.nodes
    requires packet != c && c != pf && c != cf && c != rf
    ensures cf < s.next && rf < s.next
    ensures var o := CommitEffect(s, packet, c, pf, cf, rf);
      && !o.ok && o.state.left == 0 && WellFormed(o.state.nodes) && Fresh(o.state) && Grown(s, o.state)
      && Keeps(s.nodes, o.state.nodes, {cf}) && o.state.nodes[cf].parent == s.nodes[cf].parent
  {
    AttachStoreFacts(s, cf, TxnCommitStore);
  }

  /*
   * The outcome of separate_autocommit_dml_2pc, by the number of allocations that
   * succeed: eight nodes are created when all goes well.
   */

  /** The ids the PREPARE and closing stages use: old nodes below c, the coordinator c, Fetchers c + 1 to c + 3, nothing from c + 4 on. */
  ghost predicate LinkIds(m: Nodes, packet: int, c: int, root: int, leaf: int) {
    && packet in m && c in m && c + 1 in m && c + 2 in m && c + 3 in m && root in m && leaf in m
    && packet < c && root < c && leaf < c
    && c + 4 !in m && c + 5 !in m && c + 6 !in m && c + 7 !in m
  }

  /** The nodes after the PREPARE and closing stages ran in full. */
  function Linked(m: Nodes, packet: int, c: int, root: int, leaf: int): Nodes
    requires LinkIds(m, packet, c, root, leaf)
  {
    var m3 := Prepared(m, c + 1, root, leaf, c + 4, c + 5);
    LinkCommit(StoresAttached(m3, c + 2, c + 3, c + 6, c + 7), packet, c, c + 1, c + 2, c + 3)
  }

  /** With four allocations left after the Fetchers, the PREPARE and closing stages make every link. */
  lemma LinksRun(s: ArenaState, packet: int, c: int, root: int, leaf: int)
    requires Fresh(s) && StagesReady(s, packet, c, root, leaf, 4) && s.left >= 4
    requires c + 1 in s.nodes && c + 2 in s.nodes && c + 3 in s.nodes
    ensures LinkIds(s.nodes, packet, c, root, leaf)
    ensures Dml2pcLinks(s, packet, c, root, leaf) == Outcome(ArenaState(Linked(s.nodes, packet, c, root, leaf), c + 8, s.left - 4), true)
  {
    PrepareRun(s, c + 1, root, leaf);
    var s3 := ArenaState(Prepared(s.nodes, c + 1, root, leaf, c + 4, c + 5), c + 6, s.left - 2);
    CommitRun(s3, packet, c, c + 1, c + 2, c + 3);
  }

  /** The PREPARE branch leaves the parent of every old node but root as it was. */
  lemma PreparedParent(m: Nodes, pf: int, root: int, leaf: int, sb: int, sp: int, k: int)
    requires pf in m && root in m && leaf in m && sb !in m && sp !in m && sb != sp
    requires k in m && k != root
    ensures k in Prepared(m, pf, root, leaf, sb, sp) && Prepared(m, pf, root, leaf, sb, sp)[k].parent == m[k].parent
  {
  }

  /** The links keep the arena well formed when root is listed by nobody and c and its Fetchers have no parent. */
  lemma LinkedKeepsWellFormed(m: Nodes, packet: int, c: int, root: int, leaf: int)
    requires WellFormed(m) && LinkIds(m, packet, c, root, leaf) && Orphaned(m, root)
    requires m[c].parent == None && m[c + 1].parent == None && m[c + 2].parent == None && m[c + 3].parent == None
    ensures WellFormed(Linked(m, packet, c, root, leaf))
  {
    PreparedKeepsWellFormed(m, c + 1, root, leaf, c + 4, c + 5);
    PreparedParent(m, c + 1, root, leaf, c + 4, c + 5, c);
    PreparedParent(m, c + 1, root, leaf, c + 4, c + 5, c + 1);
    PreparedParent(m, c + 1, root, leaf, c + 4, c + 5, c + 2);
    PreparedParent(m, c + 1, root, leaf, c + 4, c + 5, c + 3);
    var m3 := Prepared(m, c + 1, root, leaf, c + 4, c + 5);
    assert m3[c].parent == None && m3[c + 1].parent == None && m3[c + 2].parent == None && m3[c + 3].parent == None;
    CommitLinkedKeepsWellFormed(m3, packet, c, c + 1, c + 2, c + 3, c + 6, c + 7);
  }

  /** From m2 to m, packet adopted c, c adopted the three Fetchers, and each Fetcher adopted its store node. */
  ghost predicate LinksTop(m2: Nodes, m: Nodes, packet: int, c: int) {
    && packet in m2 && c in m2 && c + 1 in m2 && c + 2 in m2 && c + 3 in m2
    && packet in m && c in m && c + 1 in m && c + 2 in m && c + 3 in m
    && m[packet] == m2[packet].(children := m2[packet].children + [c])
    && m[c] == m2[c].(children := m2[c].children + [c + 1, c + 2, c + 3], parent := Some(packet))
    && m[c + 1] == m2[c + 1].(children := m2[c + 1].children + [c + 5], parent := Some(c))
    && m[c + 2] == m2[c + 2].(children := m2[c + 2].children + [c + 6], parent := Some(c))
    && m[c + 3] == m2[c + 3].(children := m2[c + 3].children + [c + 7], parent := Some(c))
  }

  /** In m, the four store nodes on c + 4 to c + 7 hang under leaf and the three Fetchers, the PREPARE one holding root. */
  ghost predicate LinksNew(m: Nodes, c: int, root: int, leaf: int) {
    && c + 4 in m && c + 5 in m && c + 6 in m && c + 7 in m
    && m[c + 4] == NewTxn(TxnBeginStore).(parent := Some(leaf))
    && m[c + 5] == NewTxn(TxnPrepare).(children := [root], parent := Some(c + 1))
    && m[c + 6] == NewTxn(TxnCommitStore).(parent := Some(c + 2))
    && m[c + 7] == NewTxn(TxnRollbackStore).(parent := Some(c + 3))
  }

  /** The links of the PREPARE and closing stages, on the Fetchers: LinksTop. */
  lemma LinkedTop(m: Nodes, packet: int, c: int, root: int, leaf: int)
    requires LinkIds(m, packet, c, root, leaf) && root != packet && leaf != packet
    ensures LinksTop(m, Linked(m, packet, c, root, leaf), packet, c)
  {
    PreparedShape(m, c + 1, root, leaf, c + 4, c + 5);
    var m3 := Prepared(m, c + 1, root, leaf, c + 4, c + 5);
    CommitLinkedShape(m3, packet, c, c + 1, c + 2, c + 3, c + 6, c + 7);
  }

  /** The links of the PREPARE and closing stages, on the new ids: LinksNew. */
  lemma LinkedNew(m: Nodes, packet: int, c: int, root: int, leaf: int)
    requires LinkIds(m, packet, c, root, leaf) && root != packet && leaf != packet
    ensures LinksNew(Linked(m, packet, c, root, leaf), c, root, leaf)
  {
    PreparedShape(m, c + 1, root, leaf, c + 4, c + 5);
    var m3 := Prepared(m, c + 1, root, leaf, c + 4, c + 5);
    CommitLinkedShape(m3, packet, c, c + 1, c + 2, c + 3, c + 6, c + 7);
  }

  /** The closing links change no node but the five they link. */
  lemma LinkCommitFrame(m: Nodes, packet: int, c: int, pf: int, cf: int, rf: int, k: int)
    requires packet in m && c in m && pf in m && cf in m && rf in m
    requires packet != c && c != pf && c != cf && c != rf
    requires k in m && k != packet && k != c && k != pf && k != cf && k != rf
    ensures LinkCommit(m, packet, c, pf, cf, rf)[k] == m[k]
  {
  }

  /** Attaching the store nodes changes no old node but cf and rf. */
  lemma StoresAttachedFrame(m: Nodes, cf: int, rf: int, t1: int, t2: int, k: int)
    requires cf in m && rf in m && t1 !in m && t2 !in m && t1 != t2
    requires k in m && k != cf && k != rf
    ensures StoresAttached(m, cf, rf, t1, t2)[k] == m[k]
  {
  }

  /** The links of the PREPARE and closing stages add the ids c + 4 to c + 7. */
  lemma LinkedKeys(m: Nodes, packet: int, c: int, root: int, leaf: int)
    requires LinkIds(m, packet, c, root, leaf) && root != packet && leaf != packet
    ensures Linked(m, packet, c, root, leaf).Keys == m.Keys + {c + 4, c + 5, c + 6, c + 7}
  {
  }

  /** The links of the PREPARE and closing stages move root under the PREPARE store and give leaf the BEGIN store. */
  lemma LinkedMoves(m: Nodes, packet: int, c: int, root: int, leaf: int)
    requires LinkIds(m, packet, c, root, leaf) && root != packet && leaf != packet
    ensures RootLeafMoved(m, Linked(m, packet, c, root, leaf), root, leaf, c + 4, c + 5)
  {
    PreparedShape(m, c + 1, root, leaf, c + 4, c + 5);
    var m3 := Prepared(m, c + 1, root, leaf, c + 4, c + 5);
    var m2 := StoresAttached(m3, c + 2, c + 3, c + 6, c + 7);
    StoresAttachedFrame(m3, c + 2, c + 3, c + 6, c + 7, root);
    StoresAttachedFrame(m3, c + 2, c + 3, c + 6, c + 7, leaf);
    LinkCommitFrame(m2, packet, c, c + 1, c + 2, c + 3, root);
    LinkCommitFrame(m2, packet, c, c + 1, c + 2, c + 3, leaf);
  }

  /** The links of the PREPARE and closing stages change no other old node. */
  lemma LinkedKeeps(m: Nodes, packet: int, c: int, root: int, leaf: int)
    requires LinkIds(m, packet, c, root, leaf) && root != packet && leaf != packet
    ensures Keeps(m, Linked(m, packet, c, root, leaf), {packet, c, c + 1, c + 2, c + 3, root, leaf})
  {
    PreparedFrame(m, c + 1, root, leaf, c + 4, c + 5);
    var m3 := Prepared(m, c + 1, root, leaf, c + 4, c + 5);
    CommitLinkedFrame(m3, packet, c, c + 1, c + 2, c + 3, c + 6, c + 7);
    KeepsThroughPrepare(m, m3, Linked(m, packet, c, root, leaf), packet, c, root, leaf);
  }

  /** What the PREPARE and closing stages each keep, together. */
  lemma KeepsThroughPrepare(m: Nodes, m3: Nodes, r: Nodes, packet: int, c: int, root: int, leaf: int)
    requires Keeps(m, m3, {c + 1, root, leaf}) && Keeps(m3, r, {packet, c, c + 1, c + 2, c + 3})
    ensures Keeps(m, r, {packet, c, c + 1, c + 2, c + 3, root, leaf})
  {
    forall k | k in m && k !in {packet, c, c + 1, c + 2, c + 3, root, leaf}
      ensures k in r && r[k] == m[k]
    {
      assert k in m3 && m3[k] == m[k];
    }
  }

  /** The PREPARE stage adds sb and sp and changes no old node but pf, root and leaf. */
  lemma PreparedFrame(m: Nodes, pf: int, root: int, leaf: int, sb: int, sp: int)
    requires pf in m && root in m && leaf in m && sb !in m && sp !in m && sb != sp
    ensures Prepared(m, pf, root, leaf, sb, sp).Keys == m.Keys + {sb, sp}
    ensures Keeps(m, Prepared(m, pf, root, leaf, sb, sp), {pf, root, leaf})
  {
    var r := Prepared(m, pf, root, leaf, sb, sp);
    forall k | k in m && k !in {pf, root, leaf}
      ensures k in r && r[k] == m[k]
    {
      PreparedAt(m, pf, root, leaf, sb, sp, k);
    }
  }

  /** The closing stage changes no old node but packet, c and the three Fetchers. */
  lemma CommitLinkedFrame(m: Nodes, packet: int, c: int, pf: int, cf: int, rf: int, t1: int, t2: int)
    requires packet in m && c in m && pf in m && cf in m && rf in m && t1 !in m && t2 !in m && t1 != t2
    requires packet != c && c != pf && c != cf && c != rf
    ensures Keeps(m, LinkCommit(StoresAttached(m, cf, rf, t1, t2), packet, c, pf, cf, rf), {packet, c, pf, cf, rf})
  {
    var m2 := StoresAttached(m, cf, rf, t1, t2);
    var r := LinkCommit(m2, packet, c, pf, cf, rf);
    forall k | k in m && k !in {packet, c, pf, cf, rf}
      ensures k in r && r[k] == m[k]
    {
      StoresAttachedFrame(m, cf, rf, t1, t2, k);
      LinkCommitFrame(m2, packet, c, pf, cf, rf, k);
    }
  }

  /*
   * The failure paths: some allocation of the stage returned null.
   */

  /** The state after the PREPARE stage ran in full, the Fetchers being on c + 1 to c + 3. */
  function PreparedState(s: ArenaState, c: int, root: int, leaf: int): ArenaState
    requires c + 1 in s.nodes && root in s.nodes && leaf in s.nodes && c + 4 !in s.nodes && c + 5 !in s.nodes && s.left >= 2
  {
    ArenaState(Prepared(s.nodes, c + 1, root, leaf, c + 4, c + 5), c + 6, s.left - 2)
  }

  /** With two allocations left after the Fetchers, the PREPARE stage runs in full and the closing stage decides. */
  lemma LinksAfterPrepare(s: ArenaState, packet: int, c: int, root: int, leaf: int)
    requires Fresh(s) && StagesReady(s, packet, c, root, leaf, 4) && s.left >= 2
    requires c + 1 in s.nodes && c + 2 in s.nodes && c + 3 in s.nodes
    ensures c + 4 !in s.nodes && c + 5 !in s.nodes
    ensures Dml2pcLinks(s, packet, c, root, leaf) == CommitEffect(PreparedState(s, c, root, leaf), packet, c, c + 1, c + 2, c + 3)
  {
    PrepareRun(s, c + 1, root, leaf);
    var o := PrepareEffect(s, c + 1, root, leaf);
    assert o.ok && o.state == PreparedState(s, c, root, leaf);
  }

  /** The PREPARE branch changes no old node but pf, root and leaf. */
  lemma PreparedAt(m: Nodes, pf: int, root: int, leaf: int, sb: int, sp: int, k: int)
    requires pf in m && root in m && leaf in m && sb !in m && sp !in m && sb != sp
    requires k in m && k != pf && k != root && k != leaf
    ensures k in Prepared(m, pf, root, leaf, sb, sp) && Prepared(m, pf, root, leaf, sb, sp)[k] == m[k]
  {
  }

  /** A closing stage that stops early changes no old node but cf. */
  lemma CommitFailsAt(s: ArenaState, packet: int, c: int, pf: int, cf: int, rf: int, k: int)
    requires Fresh(s) && s.left < 2
    requires packet in s.nodes && c in s.nodes && pf in s.nodes && cf in s.nodes && rf in s.nodes
    requires packet != c && c != pf && c != cf && c != rf
    requires k in s.nodes && k != cf
    ensures cf < s.next && rf < s.next
    ensures var m := CommitEffect(s, packet, c, pf, cf, rf).state.nodes; k in m && m[k] == s.nodes[k]
  {
  }

  /** With two or three allocations left after the Fetchers, the closing stage stops with the budget spent. */
  lemma LateFails(s: ArenaState, packet: int, c: int, root: int, leaf: int)
    requires WellFormed(s.nodes) && Fresh(s) && StagesReady(s, packet, c, root, leaf, 4) && 2 <= s.left < 4
    requires c + 1 in s.nodes && c + 2 in s.nodes && c + 3 in s.nodes && Orphaned(s.nodes, root)
    ensures var o := CommitEffect(PreparedState(s, c, root, leaf), packet, c, c + 1, c + 2, c + 3);
      && !o.ok && o.state.left == 0 && WellFormed(o.state.nodes) && Fresh(o.state) && Grown(s, o.state)
  {
    var s3 := PreparedState(s, c, root, leaf);
    PreparedStateFresh(s, c, root, leaf);
    PreparedKeepsWellFormed(s.nodes, c + 1, root, leaf, c + 4, c + 5);
    CommitFails(s3, packet, c, c + 1, c + 2, c + 3);
  }

  /** Without four allocations left after the Fetchers, the PREPARE or closing stage stops with the budget spent. */
  lemma LinksFail(s: ArenaState, packet: int, c: int, root: int, leaf: int)
    requires WellFormed(s.nodes) && Fresh(s) && StagesReady(s, packet, c, root, leaf, 4) && s.left < 4
    requires c + 1 in s.nodes && c + 2 in s.nodes && c + 3 in s.nodes && Orphaned(s.nodes, root)
    ensures var o := Dml2pcLinks(s, packet, c, root, leaf);
      && !o.ok && o.state.left == 0 && WellFormed(o.state.nodes) && Fresh(o.state) && Grown(s, o.state)
  {
    if s.left < 2 {
      PrepareFails(s, c + 1, root, leaf);
    } else {
      LinksAfterPrepare(s, packet, c, root, leaf);
      LateFails(s, packet, c, root, leaf);
    }
  }

  /** A PREPARE stage that stops early changes no old node. */
  lemma PrepareFailsAt(s: ArenaState, pf: int, root: int, leaf: int, k: int)
    requires Fresh(s) && pf in s.nodes && root in s.nodes && leaf in s.nodes && s.left < 2
    requires k in s.nodes
    ensures pf < s.next && root < s.next && leaf < s.next
    ensures var o := PrepareEffect(s, pf, root, leaf); !o.ok && k in o.state.nodes && o.state.nodes[k] == s.nodes[k]
  {
  }

  /** The state after a full PREPARE stage adds c + 4 and c + 5 and keeps the next id fresh. */
  lemma PreparedStateFresh(s: ArenaState, c: int, root: int, leaf: int)
    requires Fresh(s) && c + 1 in s.nodes && root in s.nodes && leaf in s.nodes && c + 4 == s.next && s.left >= 2
    ensures c + 5 !in s.nodes
    ensures PreparedState(s, c, root, leaf).nodes.Keys == s.nodes.Keys + {c + 4, c + 5}
    ensures Fresh(PreparedState(s, c, root, leaf))
  {
  }

  /** The state after the Fetchers adds c + 1 to c + 3 and keeps the next id fresh. */
  lemma FetchedStateFresh(s: ArenaState, routing: Routing, c: int)
    requires Fresh(s) && c + 1 == s.next && s.left >= 3
    ensures FetchedState(s, routing, c).nodes.Keys == s.nodes.Keys + {c + 1, c + 2, c + 3}
    ensures Fresh(FetchedState(s, routing, c))
  {
  }

  /** Creating the Fetchers changes no old node. */
  lemma FetchedAt(s: ArenaState, routing: Routing, c: int, k: int)
    requires Fresh(s) && c + 1 == s.next && s.left >= 3 && k in s.nodes
    ensures k in FetchedState(s, routing, c).nodes && FetchedState(s, routing, c).nodes[k] == s.nodes[k]
  {
  }

  /** A closing stage that stops early, after a full PREPARE stage, changes no old node but c + 1, c + 2, root and leaf. */
  lemma LateFailsAt(s: ArenaState, packet: int, c: int, root: int, leaf: int, k: int)
    requires Fresh(s) && StagesReady(s, packet, c, root, leaf, 4) && 2 <= s.left < 4
    requires c + 1 in s.nodes && c + 2 in s.nodes && c + 3 in s.nodes
    requires k in s.nodes && k != c + 1 && k != c + 2 && k != root && k != leaf
    ensures var m := CommitEffect(PreparedState(s, c, root, leaf), packet, c, c + 1, c + 2, c + 3).state.nodes;
      k in m && m[k] == s.nodes[k]
  {
    PreparedStateFresh(s, c, root, leaf);
    PreparedAt(s.nodes, c + 1, root, leaf, c + 4, c + 5, k);
    CommitFailsAt(PreparedState(s, c, root, leaf), packet, c, c + 1, c + 2, c + 3, k);
  }

  /** When the PREPARE or closing stage stops early, every old node but c + 1, c + 2, root and leaf is as it was. */
  lemma LinksFailAt(s: ArenaState, packet: int, c: int, root: int, leaf: int, k: int)
    requires Fresh(s) && StagesReady(s, packet, c, root, leaf, 4) && s.left < 4
    requires c + 1 in s.nodes && c + 2 in s.nodes && c + 3 in s.nodes
    requires k in s.nodes && k != c + 1 && k != c + 2 && k != root && k != leaf
    ensures var m := Dml2pcLinks(s, packet, c, root, leaf).state.nodes; k in m && m[k] == s.nodes[k]
  {
    if s.left >= 2 {
      LinksAfterPrepare(s, packet, c, root, leaf);
      LateFailsAt(s, packet, c, root, leaf, k);
    } else {
      PrepareFailsAt(s, c + 1, root, leaf, k);
    }
  }

  /** The state the PREPARE and closing stages start from: the three Fetchers on c + 1 to c + 3. */
  function FetchedState(s: ArenaState, routing: Routing, c: int): ArenaState
    requires s.left >= 3
  {
    ArenaState(Fetched(s.nodes, c + 1, routing), c + 4, s.left - 3)
  }

  /** With three allocations left, the stages after clear_children go on to the PREPARE and closing stages. */
  lemma StagesAfterFetchers(s: ArenaState, routing: Routing, packet: int, c: int, root: int, leaf: int)
    requires Fresh(s) && StagesReady(s, packet, c, root, leaf, 1) && s.left >= 3
    ensures StagesReady(FetchedState(s, routing, c), packet, c, root, leaf, 4)
    ensures Dml2pcStages(s, routing, packet, c, root, leaf) == Dml2pcLinks(FetchedState(s, routing, c), packet, c, root, leaf)
  {
    FetchersRun(s, routing);
    var o := FetchersEffect(s, routing);
    assert o.ok && o.state == FetchedState(s, routing, c);
  }

  /** Well formedness and an orphaned root survive the creation of the Fetchers. */
  lemma FetchedStateFacts(s: ArenaState, routing: Routing, packet: int, c: int, root: int, leaf: int)
    requires WellFormed(s.nodes) && Fresh(s) && StagesReady(s, packet, c, root, leaf, 1) && s.left >= 3
    requires Orphaned(s.nodes, root)
    ensures var s2 := FetchedState(s, routing, c);
      && WellFormed(s2.nodes) && Fresh(s2) && Grown(s, s2) && Orphaned(s2.nodes, root)
      && c + 1 in s2.nodes && c + 2 in s2.nodes && c + 3 in s2.nodes
      && s2.nodes[c + 1] == FetcherFor(OpPrepare, true, routing) && s2.nodes[c + 2] == FetcherFor(OpCommit, true, routing)
      && s2.nodes[c + 3] == FetcherFor(OpRollback, true, routing)
      && s2.nodes.Keys == s.nodes.Keys + {c + 1, c + 2, c + 3}
      && Keeps(s.nodes, s2.nodes, {})
  {
    FetchedKeepsWellFormed(s, routing);
  }

  /** Without seven allocations left after the coordinator, the stages after clear_children stop with the budget spent. */
  lemma StagesFail(s: ArenaState, routing: Routing, packet: int, c: int, root: int, leaf: int)
    requires WellFormed(s.nodes) && Fresh(s) && StagesReady(s, packet, c, root, leaf, 1) && s.left < 7
    requires Orphaned(s.nodes, root)
    ensures var o := Dml2pcStages(s, routing, packet, c, root, leaf);
      && !o.ok && o.state.left == 0 && WellFormed(o.state.nodes) && Fresh(o.state) && Grown(s, o.state)
  {
    if s.left < 3 {
      FetchersFail(s, routing);
    } else {
      StagesAfterFetchers(s, routing, packet, c, root, leaf);
      FetchedStateFacts(s, routing, packet, c, root, leaf);
      LinksFail(FetchedState(s, routing, c), packet, c, root, leaf);
    }
  }

  /** A Fetchers stage that stops early changes no old node. */
  lemma FetchersFailAt(s: ArenaState, routing: Routing, k: int)
    requires Fresh(s) && s.left < 3 && k in s.nodes
    ensures var o := FetchersEffect(s, routing); !o.ok && k in o.state.nodes && o.state.nodes[k] == s.nodes[k]
  {
  }

  /** When the stages after clear_children stop early, every old node but root and leaf is as it was. */
  lemma StagesFailAt(s: ArenaState, routing: Routing, packet: int, c: int, root: int, leaf: int, k: int)
    requires Fresh(s) && StagesReady(s, packet, c, root, leaf, 1) && s.left < 7
    requires k in s.nodes && k != root && k != leaf
    ensures var m := Dml2pcStages(s, routing, packet, c, root, leaf).state.nodes; k in m && m[k] == s.nodes[k]
  {
    if s.left >= 3 {
      StagesAfterFetchers(s, routing, packet, c, root, leaf);
      FetchedStateFresh(s, routing, c);
      FetchedAt(s, routing, c, k);
      LinksFailAt(FetchedState(s, routing, c), packet, c, root, leaf, k);
    } else {
      FetchersFailAt(s, routing, k);
    }
  }

  /*
   * From the arena separate_autocommit_dml_2pc starts on.
   */

  /** The arena once TxnCommit took the next id and clear_children emptied packet. */
  function Opened(s: ArenaState, packet: int): ArenaState
    requires packet in s.nodes && s.left > 0
  {
    ArenaState(ClearChildren(s.nodes[s.next := NewTxn(TxnCommit)], packet), s.next + 1, s.left - 1)
  }

  /** With an allocation left, the coordinator is created, packet emptied, and the stages decide. */
  lemma Dml2pcOpens(s: ArenaState, routing: Routing, packet: int, leaf: int)
    requires Fresh(s) && packet in s.nodes && |s.nodes[packet].children| > 0 && s.nodes[packet].children[0] in s.nodes
    requires leaf in s.nodes && s.left > 0
    ensures StagesReady(Opened(s, packet), packet, s.next, s.nodes[packet].children[0], leaf, 1)
    ensures Dml2pcEffect(s, routing, packet, leaf)
         == Dml2pcStages(Opened(s, packet), routing, packet, s.next, s.nodes[packet].children[0], leaf)
  {
    var (s1, c) := TryAllocEffect(s, NewTxn(TxnCommit));
    assert c == Some(s.next);
    assert s1.(nodes := ClearChildren(s1.nodes, packet)) == Opened(s, packet);
  }

  /** The opened arena is well formed, fresh, holds the coordinator without a parent, and the old first child is orphaned. */
  lemma OpenedFacts(s: ArenaState, packet: int)
    requires WellFormed(s.nodes) && Fresh(s) && packet in s.nodes && |s.nodes[packet].children| > 0 && s.left > 0
    ensures s.nodes[packet].children[0] in s.nodes
    ensures var o := Opened(s, packet);
      && WellFormed(o.nodes) && Fresh(o) && Grown(s, o) && Orphaned(o.nodes, s.nodes[packet].children[0])
      && o.nodes.Keys == s.nodes.Keys + {s.next}
      && o.nodes[s.next] == NewTxn(TxnCommit) && o.nodes[packet] == s.nodes[packet].(children := [])
  {
    FirstChild(s.nodes, packet);
    InsertDetached(s.nodes, s.next, NewTxn(TxnCommit));
    ClearKeepsWellFormed(s.nodes[s.next := NewTxn(TxnCommit)], packet);
  }

  /** Opening changes no old node but packet. */
  lemma OpenedAt(s: ArenaState, packet: int, k: int)
    requires Fresh(s) && packet in s.nodes && s.left > 0 && k in s.nodes && k != packet
    ensures k in Opened(s, packet).nodes && Opened(s, packet).nodes[k] == s.nodes[k]
  {
  }

  /**
   * When fewer than eight allocations succeed, separate_autocommit_dml_2pc returns -1
   * with the budget spent and the arena well formed. If even the coordinator was
   * null, nothing changed; otherwise packet was left without children. Every old
   * node but packet, the old first child and leaf is as it was.
   */
  lemma Dml2pcFailure(s: ArenaState, routing: Routing, packet: int, leaf: int)
    requires WellFormed(s.nodes) && Fresh(s) && packet in s.nodes && |s.nodes[packet].children| > 0
    requires leaf in s.nodes && leaf != packet && s.left < 8
    ensures s.nodes[packet].children[0] in s.nodes
    ensures var o := Dml2pcEffect(s, routing, packet, leaf);
      && !o.ok && o.state.left == 0 && WellFormed(o.state.nodes) && Fresh(o.state) && Grown(s, o.state)
      && (s.left == 0 ==> o.state == s)
      && (s.left > 0 ==> o.state.nodes[packet] == s.nodes[packet].(children := []))
      && Keeps(s.nodes, o.state.nodes, {packet, s.nodes[packet].children[0], leaf})
  {
    FirstChild(s.nodes, packet);
    if s.left > 0 {
      var root := s.nodes[packet].children[0];
      var s1 := Opened(s, packet);
      Dml2pcOpens(s, routing, packet, leaf);
      OpenedFacts(s, packet);
      StagesFail(s1, routing, packet, s.next, root, leaf);
      StagesFailAt(s1, routing, packet, s.next, root, leaf, packet);
      var m := Dml2pcStages(s1, routing, packet, s.next, root, leaf).state.nodes;
      forall k | k in s.nodes && k !in {packet, root, leaf}
        ensures k in m && m[k] == s.nodes[k]
      {
        OpenedAt(s, packet, k);
        StagesFailAt(s1, routing, packet, s.next, root, leaf, k);
      }
    }
  }

  /** The PREPARE branch adds sb and sp. */

  /** With seven allocations left after the coordinator, every stage after clear_children runs in full. */
  lemma StagesBuilt(s: ArenaState, routing: Routing, packet: int, c: int, root: int, leaf: int)
    requires Fresh(s) && StagesReady(s, packet, c, root, leaf, 1) && s.left >= 7
    requires root != packet && leaf != packet
    ensures var m2 := FetchedState(s, routing, c).nodes; var o := Dml2pcStages(s, routing, packet, c, root, leaf);
      && o.ok && o.state.next == c + 8 && o.state.left == s.left - 7
      && LinksTop(m2, o.state.nodes, packet, c) && LinksNew(o.state.nodes, c, root, leaf)
      && o.state.nodes.Keys == m2.Keys + {c + 4, c + 5, c + 6, c + 7}
      && RootLeafMoved(m2, o.state.nodes, root, leaf, c + 4, c + 5)
  {
    StagesAfterFetchers(s, routing, packet, c, root, leaf);
    FetchedStateFresh(s, routing, c);
    FetchedAt(s, routing, c, c);
    var s2 := FetchedState(s, routing, c);
    LinksRun(s2, packet, c, root, leaf);
    LinkedTop(s2.nodes, packet, c, root, leaf);
    LinkedNew(s2.nodes, packet, c, root, leaf);
    LinkedKeys(s2.nodes, packet, c, root, leaf);
    LinkedMoves(s2.nodes, packet, c, root, leaf);
  }

  /** When every stage after clear_children runs, the arena stays well formed. */
  lemma StagesWellFormed(s: ArenaState, routing: Routing, packet: int, c: int, root: int, leaf: int)
    requires WellFormed(s.nodes) && Fresh(s) && StagesReady(s, packet, c, root, leaf, 1) && s.left >= 7
    requires Orphaned(s.nodes, root) && root != packet && leaf != packet && s.nodes[c].parent == None
    ensures WellFormed(Dml2pcStages(s, routing, packet, c, root, leaf).state.nodes)
  {
    StagesAfterFetchers(s, routing, packet, c, root, leaf);
    FetchedStateFacts(s, routing, packet, c, root, leaf);
    FetchedAt(s, routing, c, c);
    var s2 := FetchedState(s, routing, c);
    LinksRun(s2, packet, c, root, leaf);
    LinkedKeepsWellFormed(s2.nodes, packet, c, root, leaf);
  }

  /**
   * From m1 to m, the stages after clear_children built the plan on the ids c + 1
   * to c + 7 around the coordinator c; root and leaf moved as the PREPARE branch needs.
   */
  ghost predicate StagesShape(m1: Nodes, m: Nodes, routing: Routing, packet: int, c: int, root: int, leaf: int) {
    && packet in m1 && c in m1 && packet in m && c in m && c + 1 in m && c + 2 in m && c + 3 in m
    && m.Keys == m1.Keys + {c + 1, c + 2, c + 3, c + 4, c + 5, c + 6, c + 7}
    && m[packet] == m1[packet].(children := m1[packet].children + [c])
    && m[c] == m1[c].(children := m1[c].children + [c + 1, c + 2, c + 3], parent := Some(packet))
    && m[c + 1] == FetcherFor(OpPrepare, true, routing).(children := [c + 5], parent := Some(c))
    && m[c + 2] == FetcherFor(OpCommit, true, routing).(children := [c + 6], parent := Some(c))
    && m[c + 3] == FetcherFor(OpRollback, true, routing).(children := [c + 7], parent := Some(c))
    && LinksNew(m, c, root, leaf)
    && RootLeafMoved(m1, m, root, leaf, c + 4, c + 5)
  }

  /** From the LinksTop, LinksNew and RootLeafMoved facts on the Fetchers' arena m2 to StagesShape on m1. */
  lemma StagesShapeFrom(m1: Nodes, m2: Nodes, m: Nodes, routing: Routing, packet: int, c: int, root: int, leaf: int)
    requires packet in m1 && c in m1 && root in m1 && leaf in m1 && root != packet && leaf != packet
    requires root != c && leaf != c && c + 1 !in m1 && c + 2 !in m1 && c + 3 !in m1
    requires m2.Keys == m1.Keys + {c + 1, c + 2, c + 3}
    requires m2[packet] == m1[packet] && m2[c] == m1[c] && m2[root] == m1[root] && m2[leaf] == m1[leaf]
    requires m2[c + 1] == FetcherFor(OpPrepare, true, routing) && m2[c + 2] == FetcherFor(OpCommit, true, routing)
    requires m2[c + 3] == FetcherFor(OpRollback, true, routing)
    requires LinksTop(m2, m, packet, c) && LinksNew(m, c, root, leaf)
    requires m.Keys == m2.Keys + {c + 4, c + 5, c + 6, c + 7} && RootLeafMoved(m2, m, root, leaf, c + 4, c + 5)
    ensures StagesShape(m1, m, routing, packet, c, root, leaf)
  {
  }

  /** The three Fetchers land on c + 1 to c + 3 and nothing else is added. */
  lemma FetchedValues(s: ArenaState, routing: Routing, c: int)
    requires Fresh(s) && c + 1 == s.next && s.left >= 3
    ensures var m2 := FetchedState(s, routing, c).nodes;
      && m2.Keys == s.nodes.Keys + {c + 1, c + 2, c + 3}
      && m2[c + 1] == FetcherFor(OpPrepare, true, routing) && m2[c + 2] == FetcherFor(OpCommit, true, routing)
      && m2[c + 3] == FetcherFor(OpRollback, true, routing)
  {
  }

  /** With seven allocations left, the stages after clear_children build the plan StagesShape describes. */
  lemma StagesShaped(s: ArenaState, routing: Routing, packet: int, c: int, root: int, leaf: int)
    requires Fresh(s) && StagesReady(s, packet, c, root, leaf, 1) && s.left >= 7
    requires root != packet && leaf != packet && root != c && leaf != c
    ensures var o := Dml2pcStages(s, routing, packet, c, root, leaf);
      && o.ok && o.state.next == c + 8 && o.state.left == s.left - 7
      && StagesShape(s.nodes, o.state.nodes, routing, packet, c, root, leaf)
  {
    StagesBuilt(s, routing, packet, c, root, leaf);
    FetchedValues(s, routing, c);
    FetchedAt(s, routing, c, packet);
    FetchedAt(s, routing, c, c);
    FetchedAt(s, routing, c, root);
    FetchedAt(s, routing, c, leaf);
    StagesShapeFrom(s.nodes, FetchedState(s, routing, c).nodes, Dml2pcStages(s, routing, packet, c, root, leaf).state.nodes,
      routing, packet, c, root, leaf);
  }

  /** With seven allocations left, the stages after clear_children change no old node but packet, c, root and leaf. */
  lemma StagesKeeps(s: ArenaState, routing: Routing, packet: int, c: int, root: int, leaf: int)
    requires Fresh(s) && StagesReady(s, packet, c, root, leaf, 1) && s.left >= 7
    requires root != packet && leaf != packet
    ensures Keeps(s.nodes, Dml2pcStages(s, routing, packet, c, root, leaf).state.nodes, {packet, c, root, leaf})
  {
    StagesAfterFetchers(s, routing, packet, c, root, leaf);
    FetchedStateFresh(s, routing, c);
    FetchedAt(s, routing, c, c);
    FetchedKeeps(s, routing, c);
    var s2 := FetchedState(s, routing, c);
    LinksRun(s2, packet, c, root, leaf);
    LinkedKeeps(s2.nodes, packet, c, root, leaf);
    KeepsPastFetchers(s.nodes, s2.nodes, Linked(s2.nodes, packet, c, root, leaf), packet, c, root, leaf);
  }

  /** The Fetchers stage changes no old node. */
  lemma FetchedKeeps(s: ArenaState, routing: Routing, c: int)
    requires Fresh(s) && c + 1 == s.next && s.left >= 3
    ensures Keeps(s.nodes, FetchedState(s, routing, c).nodes, {})
  {
    var m2 := FetchedState(s, routing, c).nodes;
    forall k | k in s.nodes && k !in {}
      ensures k in m2 && m2[k] == s.nodes[k]
    {
      FetchedAt(s, routing, c, k);
    }
  }

  /** The Fetchers' ids were fresh, so what the later stages keep of m2 covers every old node they do not touch. */
  lemma KeepsPastFetchers(m1: Nodes, m2: Nodes, m: Nodes, packet: int, c: int, root: int, leaf: int)
    requires c + 1 !in m1 && c + 2 !in m1 && c + 3 !in m1
    requires Keeps(m1, m2, {}) && Keeps(m2, m, {packet, c, c + 1, c + 2, c + 3, root, leaf})
    ensures Keeps(m1, m, {packet, c, root, leaf})
  {
    forall k | k in m1 && k !in {packet, c, root, leaf}
      ensures k in m && m[k] == m1[k]
    {
      assert k in m2 && m2[k] == m1[k];
    }
  }

  /** Opening changes no old node but packet. */
  lemma OpenedKeeps(s: ArenaState, packet: int)
    requires Fresh(s) && packet in s.nodes && s.left > 0
    ensures Keeps(s.nodes, Opened(s, packet).nodes, {packet})
  {
    var m1 := Opened(s, packet).nodes;
    forall k | k in s.nodes && k !in {packet}
      ensures k in m1 && m1[k] == s.nodes[k]
    {
      OpenedAt(s, packet, k);
    }
  }

  /**
   * From m0 to m, separate_autocommit_dml_2pc built its whole plan on the new ids c
   * to c + 7: packet holds only the COMMIT Transaction node c, c holds the PREPARE,
   * COMMIT and ROLLBACK Fetchers, each over its store node, the PREPARE store node
   * holds root, the BEGIN store node hangs last under leaf, and no other old node changed.
   */
  ghost predicate Dml2pcShape(m0: Nodes, m: Nodes, routing: Routing, packet: int, c: int, root: int, leaf: int) {
    && packet in m0 && packet in m && c in m && c + 1 in m && c + 2 in m && c + 3 in m
    && m.Keys == m0.Keys + {c, c + 1, c + 2, c + 3, c + 4, c + 5, c + 6, c + 7}
    && m[packet] == m0[packet].(children := [c])
    && m[c] == NewTxn(TxnCommit).(children := [c + 1, c + 2, c + 3], parent := Some(packet))
    && m[c + 1] == FetcherFor(OpPrepare, true, routing).(children := [c + 5], parent := Some(c))
    && m[c + 2] == FetcherFor(OpCommit, true, routing).(children := [c + 6], parent := Some(c))
    && m[c + 3] == FetcherFor(OpRollback, true, routing).(children := [c + 7], parent := Some(c))
    && LinksNew(m, c, root, leaf)
    && RootLeafMoved(m0, m, root, leaf, c + 4, c + 5)
    && Keeps(m0, m, {packet, root, leaf})
  }

  /** Opening the coordinator, then the stages after clear_children, make the whole plan. */
  lemma Dml2pcCombine(m0: Nodes, m1: Nodes, m: Nodes, routing: Routing, packet: int, c: int, root: int, leaf: int)
    requires packet in m0 && root in m0 && leaf in m0 && c !in m0 && root != packet && leaf != packet
    requires m1.Keys == m0.Keys + {c} && c in m1 && m1[c] == NewTxn(TxnCommit)
    requires m1[packet] == m0[packet].(children := []) && Keeps(m0, m1, {packet})
    requires StagesShape(m1, m, routing, packet, c, root, leaf) && Keeps(m1, m, {packet, c, root, leaf})
    ensures Dml2pcShape(m0, m, routing, packet, c, root, leaf)
  {
    assert m1[root] == m0[root] && m1[leaf] == m0[leaf];
    forall k | k in m0 && k !in {packet, root, leaf}
      ensures k in m && m[k] == m0[k]
    {
      assert k in m1 && m1[k] == m0[k];
    }
  }

  /**
   * When at least eight allocations succeed, separate_autocommit_dml_2pc returns 0
   * with the plan Dml2pcShape describes on the next eight ids, and the arena well formed.
   */
  lemma Dml2pcSuccess(s: ArenaState, routing: Routing, packet: int, leaf: int)
    requires WellFormed(s.nodes) && Fresh(s) && packet in s.nodes && |s.nodes[packet].children| > 0
    requires leaf in s.nodes && leaf != packet && s.left >= 8
    ensures s.nodes[packet].children[0] in s.nodes
    ensures var o := Dml2pcEffect(s, routing, packet, leaf);
      && o.ok && o.state.left == s.left - 8 && o.state.next == s.next + 8 && WellFormed(o.state.nodes)
      && Dml2pcShape(s.nodes, o.state.nodes, routing, packet, s.next, s.nodes[packet].children[0], leaf)
  {
    FirstChild(s.nodes, packet);
    var root := s.nodes[packet].children[0];
    Dml2pcOpens(s, routing, packet, leaf);
    OpenedFacts(s, packet);
    OpenedKeeps(s, packet);
    var s1 := Opened(s, packet);
    StagesShaped(s1, routing, packet, s.next, root, leaf);
    StagesKeeps(s1, routing, packet, s.next, root, leaf);
    StagesWellFormed(s1, routing, packet, s.next, root, leaf);
    Dml2pcCombine(s.nodes, s1.nodes, Dml2pcStages(s1, routing, packet, s.next, root, leaf).state.nodes,
      routing, packet, s.next, root, leaf);
  }

}
