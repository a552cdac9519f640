/**
 * Two-phase-commit protocol pairs: a Fetcher tagged with a protocol operation
 * over a store-side Transaction node, and the three builders for explicit
 * transaction statements (separate_begin, separate_commit, separate_rollback).
 */
module TxnSeparate {
  import opened Wrappers
  import opened PlanNode
  import opened PlanTree
  import opened PlanArena

  /** One pair to append: its Fetcher op (the store command is StoreCmd(op)) and whether the Fetcher gets the context's regions. */
  datatype PairSpec = PairSpec(op: OpType, routed: bool)

  /**
   * The pairs separate_commit appends, in order: PREPARE and COMMIT, then ROLLBACK
   * only under autocommit, then BEGIN only for COMMIT-then-BEGIN; the trailing BEGIN
   * Fetcher is never given regions.
   */
  function CommitPairs(autocommit: bool, cmd: TxnCmd): (ps: seq<PairSpec>)
    ensures |ps| == 2 + (if autocommit then 1 else 0) + (if cmd == TxnCommitBegin then 1 else 0)
    ensures ps[0] == PairSpec(OpPrepare, true) && ps[1] == PairSpec(OpCommit, true)
    ensures autocommit ==> ps[2] == PairSpec(OpRollback, true)
    ensures cmd == TxnCommitBegin ==> ps[|ps| - 1] == PairSpec(OpBegin, false)
    ensures forall i :: 0 <= i < |ps| ==> (ps[i].routed <==> ps[i].op != OpBegin)
  {
    [PairSpec(OpPrepare, true), PairSpec(OpCommit, true)]
    + (if autocommit then [PairSpec(OpRollback, true)] else [])
    + (if cmd == TxnCommitBegin then [PairSpec(OpBegin, false)] else [])
  }

  /**
   * The pairs separate_rollback appends, in order: ROLLBACK, then BEGIN only for
   * ROLLBACK-then-BEGIN; the trailing BEGIN Fetcher is never given regions.
   */
  function RollbackPairs(cmd: TxnCmd): (ps: seq<PairSpec>)
    ensures |ps| == 1 + (if cmd == TxnRollbackBegin then 1 else 0)
    ensures ps[0] == PairSpec(OpRollback, true)
    ensures cmd == TxnRollbackBegin ==> ps[1] == PairSpec(OpBegin, false)
  {
    [PairSpec(OpRollback, true)] + (if cmd == TxnRollbackBegin then [PairSpec(OpBegin, false)] else [])
  }

  /**
   * f is a pair under owner: an unbounded Fetcher tagged spec.op (with the routing when
   * spec.routed, none otherwise) whose only child is a store Transaction node tagged
   * StoreCmd(spec.op) with children storeKids.
   */
  ghost predicate PairAt(m: Nodes, owner: int, f: int, spec: PairSpec, routing: Routing, storeKids: seq<int>) {
    && f in m
    && m[f] == Node(Fetcher(spec.op, if spec.routed then routing else NoRouting, None), -1, NoConfig, m[f].children, Some(owner))
    && |m[f].children| == 1 && m[f].children[0] in m
    && m[m[f].children[0]] == Node(Transaction(StoreCmd(spec.op)), -1, NoConfig, storeKids, Some(f))
  }

  /**
   * From m0 to m, exactly the first k pairs of ps were appended to txn's children, in
   * order; txn is otherwise unchanged and so is every other node of m0.
   */
  ghost predicate PairsAppended(m0: Nodes, m: Nodes, txn: int, ps: seq<PairSpec>, routing: Routing, k: nat) {
    && txn in m0 && txn in m && k <= |ps|
    && var n := |m0[txn].children|;
    && |m[txn].children| == n + k
    && m[txn] == m0[txn].(children := m[txn].children)
    && m[txn].children[..n] == m0[txn].children
    && (forall i :: 0 <= i < k ==> PairAt(m, txn, m[txn].children[n + i], ps[i], routing, []))
    && (forall x :: x in m0 && x != txn ==> x in m && m[x] == m0[x])
  }

  function Min(a: int, b: int): int {
    if a < b then a else b
  }

  /**
   * What a protocol builder promises given `budget` successful allocations: one pair
   * per two allocations is appended, up to all of ps, and the result is 0 exactly when
   * all of ps was appended.
   */
  ghost predicate ProtocolOutcome(m0: Nodes, m: Nodes, txn: int, ps: seq<PairSpec>, routing: Routing, budget: nat, r: int) {
    && PairsAppended(m0, m, txn, ps, routing, Min(budget / 2, |ps|))
    && r == (if budget >= 2 * |ps| then 0 else -1)
  }

  /** One call of AppendPair, as seen on the arena: either nothing changed at txn, or one pair was appended. */
  ghost predicate PairStep(m1: Nodes, m2: Nodes, txn: int, spec: PairSpec, routing: Routing, ok: bool) {
    && txn in m1 && txn in m2 && m1.Keys <= m2.Keys
    && (forall x :: x in m1 && x != txn ==> m2[x] == m1[x])
    && (!ok ==> m2[txn] == m1[txn])
    && (ok ==>
         && |m2[txn].children| == |m1[txn].children| + 1
         && var f := m2[txn].children[|m1[txn].children|];
         && m2[txn] == m1[txn].(children := m1[txn].children + [f])
         && f !in m1
         && PairAt(m2, txn, f, spec, routing, []))
  }

  /** The Fetcher node create_fetcher_node leaves for op, after set_region_infos(routing) when routed. */
  function FetcherFor(op: OpType, routed: bool, routing: Routing): (n: Node)
    ensures n.kind == Fetcher(op, if routed then routing else NoRouting, None) && Detached(n)
    ensures n == Node(n.kind, -1, NoConfig, [], None)
  {
    Node(Fetcher(op, if routed then routing else NoRouting, None), -1, NoConfig, [], None)
  }

  /** The effect of create_fetcher_node(op), followed by set_region_infos(routing) on success when routed. */
  function CreateFetcherEffect(s: ArenaState, op: OpType, routed: bool, routing: Routing): (r: (ArenaState, Option<int>))
    ensures r.1.None? <==> s.left == 0
    ensures r.1.None? ==> r.0 == s
    ensures r.1.Some? ==>
      r.1.value == s.next && r.0 == ArenaState(s.nodes[s.next := FetcherFor(op, routed, routing)], s.next + 1, s.left - 1)
  {
    var (s1, f) := TryAllocEffect(s, NewFetcher(op));
    if f.None? || !routed then (s1, f)
    else (s1.(nodes := SetRegionsAndInserts(s1.nodes, f.value, routing.regions, routing.insertRegionIds)), f)
  }

  /** create_fetcher_node and, when routed, set_region_infos(routing) on the new Fetcher. */
  method CreateRoutedFetcher(a: Arena, op: OpType, routed: bool, routing: Routing) returns (f: Option<int>)
    requires a.Valid()
    modifies a
    ensures a.Valid()
    ensures (a.State(), f) == CreateFetcherEffect(old(a.State()), op, routed, routing)
  {
    f := CreateFetcherNode(a, op);
    if f.Some? && routed {
      a.nodes := SetRegionsAndInserts(a.nodes, f.value, routing.regions, routing.insertRegionIds);
    }
  }

  /** A Fetcher is created, with the requested routing, exactly when an allocation is left. */
  lemma CreateFetcherFacts(s: ArenaState, op: OpType, routed: bool, routing: Routing)
    requires WellFormed(s.nodes) && Fresh(s)
    ensures var (s1, f) := CreateFetcherEffect(s, op, routed, routing);
      && WellFormed(s1.nodes) && Fresh(s1) && Grown(s, s1)
      && (f.None? <==> s.left == 0)
      && (f.None? ==> s1 == s)
      && (f.Some? ==> f.value !in s.nodes && s1.left == s.left - 1
                      && s1.nodes == s.nodes[f.value := FetcherFor(op, routed, routing)])
  {
    TryAllocFacts(s, NewFetcher(op));
    var (s1, f) := TryAllocEffect(s, NewFetcher(op));
    if f.Some? && routed {
      SetRegionsKeepsWellFormed(s1.nodes, f.value, routing.regions, routing.insertRegionIds);
      assert SetRegionsAndInserts(s1.nodes, f.value, routing.regions, routing.insertRegionIds)
          == s.nodes[f.value := FetcherFor(op, routed, routing)];
    }
  }

  /** The effect of create_txn_node(cmd) followed, on success, by f->add_child of the new node. */
  function AttachStoreEffect(s: ArenaState, f: int, cmd: TxnCmd): (r: (ArenaState, Option<int>))
    requires f in s.nodes && f < s.next
    ensures Fresh(s) ==> Fresh(r.0)
    ensures r.0.nodes.Keys == s.nodes.Keys + (if r.1.Some? then {s.next} else {})
    ensures r.1.None? <==> s.left == 0
    ensures r.1.None? ==> r.0 == s
    ensures r.1.Some? ==> r.1.value == s.next && r.0.next == s.next + 1 && r.0.left == s.left - 1
  {
    var (s1, t) := TryAllocEffect(s, NewTxn(cmd));
    if t.None? then (s1, t) else (s1.(nodes := AddChild(s1.nodes, f, t.value)), t)
  }

  /** create_txn_node(cmd) and, on success, f->add_child of the new store node. */
  method AttachStore(a: Arena, f: int, cmd: TxnCmd) returns (t: Option<int>)
    requires a.Valid() && f in a.nodes
    modifies a
    ensures a.Valid()
    ensures (a.State(), t) == AttachStoreEffect(old(a.State()), f, cmd)
  {
    t := CreateTxnNode(a, cmd);
    if t.Some? {
      a.nodes := AddChild(a.nodes, f, t.value);
    }
  }

  /** A store node is created and hung last under f exactly when an allocation is left. */
  lemma AttachStoreFacts(s: ArenaState, f: int, cmd: TxnCmd)
    requires WellFormed(s.nodes) && Fresh(s) && f in s.nodes
    ensures var (s1, t) := AttachStoreEffect(s, f, cmd);
      && WellFormed(s1.nodes) && Fresh(s1) && Grown(s, s1)
      && (t.None? <==> s.left == 0)
      && (t.None? ==> s1 == s)
      && (t.Some? ==> t.value !in s.nodes && s1.left == s.left - 1
                      && s1.nodes == s.nodes[f := s.nodes[f].(children := s.nodes[f].children + [t.value])]
                                            [t.value := NewTxn(cmd).(parent := Some(f))])
  {
    TryAllocFacts(s, NewTxn(cmd));
    var (s1, t) := TryAllocEffect(s, NewTxn(cmd));
    if t.Some? {
      AddDetachedKeepsWellFormed(s1.nodes, f, t.value);
    }
  }

  /**
   * The effect of one protocol block of separate_commit / separate_rollback /
   * separate_begin: create the Fetcher (routed when spec.routed), create the store
   * node and hang it under the Fetcher, then hang the Fetcher under txn. Either
   * allocation failing ends the block with nothing attached to txn.
   */
  function AppendPairEffect(s: ArenaState, txn: int, spec: PairSpec, routing: Routing): (r: (ArenaState, bool))
    requires Fresh(s) && txn in s.nodes
    ensures Fresh(r.0) && txn in r.0.nodes && r.0.nodes[txn].kind == s.nodes[txn].kind
  {
    var (s1, f) := CreateFetcherEffect(s, spec.op, spec.routed, routing);
    if f.None? then (s1, false)
    else
      var (s2, t) := AttachStoreEffect(s1, f.value, StoreCmd(spec.op));
      if t.None? then (s2, false)
      else (s2.(nodes := AddChild(s2.nodes, txn, f.value)), true)
  }

  /** One protocol block, in place. */
  method AppendPair(a: Arena, txn: int, spec: PairSpec, routing: Routing) returns (ok: bool)
    requires a.Valid() && txn in a.nodes
    modifies a
    ensures a.Valid()
    ensures (a.State(), ok) == AppendPairEffect(old(a.State()), txn, spec, routing)
  {
    var f := CreateRoutedFetcher(a, spec.op, spec.routed, routing);
    if f.None? {
      return false;
    }
    var s := AttachStore(a, f.value, StoreCmd(spec.op));
    if s.None? {
      return false;
    }
    a.nodes := AddChild(a.nodes, txn, f.value);
    return true;
  }

  /** The nodes after a successful protocol block that used ids f (Fetcher) and t (store node). */
  function PairLinked(m: Nodes, txn: int, f: int, t: int, spec: PairSpec, routing: Routing): Nodes
    requires txn in m && f !in m && t !in m && f != t
  {
    var m2 := m[f := FetcherFor(spec.op, spec.routed, routing)][t := NewTxn(StoreCmd(spec.op))];
    AddChild(AddChild(m2, f, t), txn, f)
  }

  /** A linked pair is one PairStep, and linking it keeps the arena well formed. */
  lemma PairLinkedFacts(m: Nodes, txn: int, f: int, t: int, spec: PairSpec, routing: Routing)
    requires WellFormed(m) && txn in m && f !in m && t !in m && f != t
    ensures WellFormed(PairLinked(m, txn, f, t, spec, routing))
    ensures PairStep(m, PairLinked(m, txn, f, t, spec, routing), txn, spec, routing, true)
  {
    var m1 := m[f := FetcherFor(spec.op, spec.routed, routing)];
    InsertDetached(m, f, FetcherFor(spec.op, spec.routed, routing));
    var m2 := m1[t := NewTxn(StoreCmd(spec.op))];
    InsertDetached(m1, t, NewTxn(StoreCmd(spec.op)));
    AddDetachedKeepsWellFormed(m2, f, t);
    AddDetachedKeepsWellFormed(AddChild(m2, f, t), txn, f);
  }

  /** A successful protocol block links the pair on the next two fresh ids. */
  lemma AppendPairLinks(s: ArenaState, txn: int, spec: PairSpec, routing: Routing)
    requires Fresh(s) && txn in s.nodes && s.left >= 2
    ensures var (s1, ok) := AppendPairEffect(s, txn, spec, routing);
      && ok && s1 == ArenaState(PairLinked(s.nodes, txn, s.next, s.next + 1, spec, routing), s.next + 2, s.left - 2)
  {
    var f := s.next;
    var s1 := ArenaState(s.nodes[f := FetcherFor(spec.op, spec.routed, routing)], f + 1, s.left - 1);
    assert CreateFetcherEffect(s, spec.op, spec.routed, routing) == (s1, Some(f));
    var t := NewTxn(StoreCmd(spec.op));
    assert AttachStoreEffect(s1, f, StoreCmd(spec.op))
        == (ArenaState(AddChild(s1.nodes[f + 1 := t], f, f + 1), f + 2, s.left - 2), Some(f + 1));
  }

  /**
   * A protocol block appends one pair exactly when two allocations are left, spends
   * the budget, and keeps the arena well formed.
   */
  lemma AppendPairFacts(s: ArenaState, txn: int, spec: PairSpec, routing: Routing)
    requires WellFormed(s.nodes) && Fresh(s) && txn in s.nodes
    ensures var (s1, ok) := AppendPairEffect(s, txn, spec, routing);
      && WellFormed(s1.nodes) && Grown(s, s1)
      && ok == (s.left >= 2) && s1.left == (if ok then s.left - 2 else 0)
      && PairStep(s.nodes, s1.nodes, txn, spec, routing, ok)
  {
    if s.left >= 2 {
      AppendPairLinks(s, txn, spec, routing);
      PairLinkedFacts(s.nodes, txn, s.next, s.next + 1, spec, routing);
    } else {
      AppendPairLeaks(s, txn, spec, routing);
    }
  }

  /** With fewer than two allocations left, a protocol block attaches nothing and may leave an unlinked Fetcher behind. */
  lemma AppendPairLeaks(s: ArenaState, txn: int, spec: PairSpec, routing: Routing)
    requires WellFormed(s.nodes) && Fresh(s) && txn in s.nodes && s.left < 2
    ensures var (s1, ok) := AppendPairEffect(s, txn, spec, routing);
      && WellFormed(s1.nodes) && Grown(s, s1) && !ok && s1.left == 0
      && s1.nodes.Keys <= s.nodes.Keys + {s.next} && s1.nodes[txn] == s.nodes[txn]
      && forall x :: x in s.nodes ==> s1.nodes[x] == s.nodes[x]
  {
    CreateFetcherFacts(s, spec.op, spec.routed, routing);
  }

  /** Appending the next pair of ps extends PairsAppended by one; a failed step keeps it. */
  lemma PairsExtend(m0: Nodes, m1: Nodes, m2: Nodes, txn: int, ps: seq<PairSpec>, routing: Routing, j: nat, ok: bool)
    requires PairsAppended(m0, m1, txn, ps, routing, j) && j < |ps|
    requires m1[txn].kind.Transaction?
    requires PairStep(m1, m2, txn, ps[j], routing, ok)
    ensures PairsAppended(m0, m2, txn, ps, routing, if ok then j + 1 else j)
  {
    var n := |m0[txn].children|;
    forall i | 0 <= i < j ensures PairAt(m2, txn, m2[txn].children[n + i], ps[i], routing, []) {
      var f := m1[txn].children[n + i];
      assert PairAt(m1, txn, f, ps[i], routing, []);
      assert m2[txn].children[n + i] == f;
      var s := m1[f].children[0];
      assert f != txn && s != txn;
      assert m2[f] == m1[f] && m2[s] == m1[s];
    }
    if ok {
      var f := m2[txn].children[n + j];
      assert m2[txn].children[..n] == m1[txn].children[..n];
    }
  }

  /**
   * The protocol invariant after j blocks: the first j pairs are in place and the
   * budget went down by two per pair.
   */
  ghost predicate Progress(s0: ArenaState, s: ArenaState, txn: int, ps: seq<PairSpec>, routing: Routing, j: nat) {
    && WellFormed(s.nodes) && Fresh(s) && Grown(s0, s) && txn in s0.nodes && txn in s.nodes
    && s.nodes[txn].kind == s0.nodes[txn].kind
    && 2 * j <= s0.left && s.left == s0.left - 2 * j
    && PairsAppended(s0.nodes, s.nodes, txn, ps, routing, j)
  }

  /** The next block either extends Progress by one pair, or fails with the protocol outcome. */
  lemma ProgressStep(s0: ArenaState, s: ArenaState, txn: int, ps: seq<PairSpec>, routing: Routing, j: nat)
    requires Progress(s0, s, txn, ps, routing, j) && j < |ps| && s0.nodes[txn].kind.Transaction?
    ensures var (s1, ok) := AppendPairEffect(s, txn, ps[j], routing);
      && (ok <==> s0.left >= 2 * (j + 1))
      && (ok ==> Progress(s0, s1, txn, ps, routing, j + 1))
      && (!ok ==> WellFormed(s1.nodes) && Fresh(s1) && Grown(s0, s1) && s1.left == 0
                  && ProtocolOutcome(s0.nodes, s1.nodes, txn, ps, routing, s0.left, -1))
  {
    var (s1, ok) := AppendPairEffect(s, txn, ps[j], routing);
    AppendPairFacts(s, txn, ps[j], routing);
    PairsExtend(s0.nodes, s.nodes, s1.nodes, txn, ps, routing, j, ok);
    GrownTrans(s0, s, s1);
  }

  /** After the last block, Progress over all of ps is the successful protocol outcome. */
  lemma ProgressDone(s0: ArenaState, s: ArenaState, txn: int, ps: seq<PairSpec>, routing: Routing)
    requires Progress(s0, s, txn, ps, routing, |ps|)
    ensures ProtocolOutcome(s0.nodes, s.nodes, txn, ps, routing, s0.left, 0)
  {
  }

  /** The effect of separate_begin. */
  function SeparateBeginEffect(s: ArenaState, ctx: QueryContext, txn: int): (ArenaState, int)
    requires Fresh(s) && txn in s.nodes
  {
    var (s1, ok) := AppendPairEffect(s, txn, PairSpec(OpBegin, true), ContextRouting(ctx));
    if !ok then (s1, -1) else (s1, 0)
  }

  /** separate_begin: one BEGIN Fetcher, given the context's regions, over a STORE-BEGIN node. */
  method SeparateBegin(a: Arena, ctx: QueryContext, txn: int) returns (r: int)
    requires a.Valid() && txn in a.nodes
    modifies a
    ensures a.Valid()
    ensures (a.State(), r) == SeparateBeginEffect(old(a.State()), ctx, txn)
  {
    var ok := AppendPair(a, txn, PairSpec(OpBegin, true), ContextRouting(ctx));
    if !ok {
      return -1;
    }
    return 0;
  }

  /** separate_begin appends the one BEGIN pair when two allocations are left, and keeps the arena well formed. */
  lemma SeparateBeginOutcome(s: ArenaState, ctx: QueryContext, txn: int)
    requires WellFormed(s.nodes) && Fresh(s) && txn in s.nodes && s.nodes[txn].kind.Transaction?
    ensures var (s1, r) := SeparateBeginEffect(s, ctx, txn);
      && WellFormed(s1.nodes) && Fresh(s1) && Grown(s, s1)
      && ProtocolOutcome(s.nodes, s1.nodes, txn, [PairSpec(OpBegin, true)], ContextRouting(ctx), s.left, r)
      && s1.left == (if r == 0 then s.left - 2 else 0)
  {
    var ps := [PairSpec(OpBegin, true)];
    var routing := ContextRouting(ctx);
    assert Progress(s, s, txn, ps, routing, 0);
    ProgressStep(s, s, txn, ps, routing, 0);
    var (s1, ok) := AppendPairEffect(s, txn, ps[0], routing);
    if ok {
      ProgressDone(s, s1, txn, ps, routing);
    }
  }

  /** The effect of separate_rollback. */
  function SeparateRollbackEffect(s: ArenaState, ctx: QueryContext, txn: int): (ArenaState, int)
    requires Fresh(s) && txn in s.nodes && s.nodes[txn].kind.Transaction?
  {
    var routing := ContextRouting(ctx);
    var (s1, ok1) := AppendPairEffect(s, txn, PairSpec(OpRollback, true), routing);
    if !ok1 then (s1, -1)
    else if s1.nodes[txn].kind.cmd != TxnRollbackBegin then (s1, 0)
    else
      var (s2, ok2) := AppendPairEffect(s1, txn, PairSpec(OpBegin, false), routing);
      if !ok2 then (s2, -1) else (s2, 0)
  }

  /** separate_rollback: the pairs of RollbackPairs for the Transaction node's own command. */
  method SeparateRollback(a: Arena, ctx: QueryContext, txn: int) returns (r: int)
    requires a.Valid() && txn in a.nodes && a.nodes[txn].kind.Transaction?
    modifies a
    ensures a.Valid()
    ensures (a.State(), r) == SeparateRollbackEffect(old(a.State()), ctx, txn)
  {
    var ok := AppendPair(a, txn, PairSpec(OpRollback, true), ContextRouting(ctx));
    if !ok {
      return -1;
    }
    if a.nodes[txn].kind.cmd == TxnRollbackBegin {
      ok := AppendPair(a, txn, PairSpec(OpBegin, false), ContextRouting(ctx));
      if !ok {
        return -1;
      }
    }
    return 0;
  }

  /** separate_rollback appends the pairs of RollbackPairs as far as the budget allows, keeping the arena well formed. */
  lemma SeparateRollbackOutcome(s: ArenaState, ctx: QueryContext, txn: int)
    requires WellFormed(s.nodes) && Fresh(s) && txn in s.nodes && s.nodes[txn].kind.Transaction?
    ensures var (s1, r) := SeparateRollbackEffect(s, ctx, txn);
      && var ps := RollbackPairs(s.nodes[txn].kind.cmd);
      && WellFormed(s1.nodes) && Fresh(s1) && Grown(s, s1)
      && ProtocolOutcome(s.nodes, s1.nodes, txn, ps, ContextRouting(ctx), s.left, r)
      && s1.left == (if r == 0 then s.left - 2 * |ps| else 0)
  {
    var ps := RollbackPairs(s.nodes[txn].kind.cmd);
    var routing := ContextRouting(ctx);
    assert Progress(s, s, txn, ps, routing, 0);
    ProgressStep(s, s, txn, ps, routing, 0);
    var (s1, ok1) := AppendPairEffect(s, txn, ps[0], routing);
    if !ok1 { return; }
    RollbackTail(s, s1, ctx, txn);
  }

  /** The optional BEGIN block of separate_rollback, after ROLLBACK succeeded. */
  lemma RollbackTail(s: ArenaState, s1: ArenaState, ctx: QueryContext, txn: int)
    requires txn in s.nodes && s.nodes[txn].kind.Transaction?
    requires Progress(s, s1, txn, RollbackPairs(s.nodes[txn].kind.cmd), ContextRouting(ctx), 1)
    ensures var ps := RollbackPairs(s.nodes[txn].kind.cmd);
      && var (s2, r) :=
           if s1.nodes[txn].kind.cmd != TxnRollbackBegin then (s1, 0)
           else var (s2, ok2) := AppendPairEffect(s1, txn, PairSpec(OpBegin, false), ContextRouting(ctx));
                if !ok2 then (s2, -1) else (s2, 0);
      && WellFormed(s2.nodes) && Fresh(s2) && Grown(s, s2)
      && ProtocolOutcome(s.nodes, s2.nodes, txn, ps, ContextRouting(ctx), s.left, r)
      && s2.left == (if r == 0 then s.left - 2 * |ps| else 0)
  {
    OptionalBegin(s, s1, txn, RollbackPairs(s.nodes[txn].kind.cmd), ContextRouting(ctx), 1,
                  s1.nodes[txn].kind.cmd == TxnRollbackBegin);
  }

  /**
   * The trailing BEGIN block of separate_commit and separate_rollback: after j pairs,
   * appended only when `more`, and then the last pair of ps.
   */
  lemma OptionalBegin(s: ArenaState, s1: ArenaState, txn: int, ps: seq<PairSpec>, routing: Routing, j: nat, more: bool)
    requires txn in s.nodes && s.nodes[txn].kind.Transaction?
    requires Progress(s, s1, txn, ps, routing, j)
    requires if more then j + 1 == |ps| && ps[j] == PairSpec(OpBegin, false) else j == |ps|
    ensures var (s2, r) :=
           if !more then (s1, 0)
           else var (s2, ok2) := AppendPairEffect(s1, txn, PairSpec(OpBegin, false), routing);
                if !ok2 then (s2, -1) else (s2, 0);
      && WellFormed(s2.nodes) && Fresh(s2) && Grown(s, s2)
      && ProtocolOutcome(s.nodes, s2.nodes, txn, ps, routing, s.left, r)
      && s2.left == (if r == 0 then s.left - 2 * |ps| else 0)
  {
    if !more {
      ProgressDone(s, s1, txn, ps, routing);
    } else {
      LastBlock(s, s1, txn, ps, routing, j);
    }
  }

  /** The last block of a protocol builder settles its outcome. */
  lemma LastBlock(s: ArenaState, s1: ArenaState, txn: int, ps: seq<PairSpec>, routing: Routing, j: nat)
    requires txn in s.nodes && s.nodes[txn].kind.Transaction? && j + 1 == |ps|
    requires Progress(s, s1, txn, ps, routing, j)
    ensures var (s2, ok2) := AppendPairEffect(s1, txn, ps[j], routing);
      && var r := if !ok2 then -1 else 0;
      && WellFormed(s2.nodes) && Fresh(s2) && Grown(s, s2)
      && ProtocolOutcome(s.nodes, s2.nodes, txn, ps, routing, s.left, r)
      && s2.left == (if r == 0 then s.left - 2 * |ps| else 0)
  {
    ProgressStep(s, s1, txn, ps, routing, j);
    var (s2, ok2) := AppendPairEffect(s1, txn, ps[j], routing);
    if ok2 {
      ProgressDone(s, s2, txn, ps, routing);
    }
  }

  /** The effect of separate_commit. */
  function SeparateCommitEffect(s: ArenaState, ctx: QueryContext, txn: int): (ArenaState, int)
    requires Fresh(s) && txn in s.nodes && s.nodes[txn].kind.Transaction?
  {
    var routing := ContextRouting(ctx);
    var (s1, ok1) := AppendPairEffect(s, txn, PairSpec(OpPrepare, true), routing);
    if !ok1 then (s1, -1) else
    var (s2, ok2) := AppendPairEffect(s1, txn, PairSpec(OpCommit, true), routing);
    if !ok2 then (s2, -1) else
    var (s3, ok3) := if ctx.autocommit then AppendPairEffect(s2, txn, PairSpec(OpRollback, true), routing) else (s2, true);
    if !ok3 then (s3, -1)
    else if s3.nodes[txn].kind.cmd != TxnCommitBegin then (s3, 0)
    else
      var (s4, ok4) := AppendPairEffect(s3, txn, PairSpec(OpBegin, false), routing);
      if !ok4 then (s4, -1) else (s4, 0)
  }

  /** separate_commit: the pairs of CommitPairs for the autocommit flag and the Transaction node's own command. */
  method SeparateCommit(a: Arena, ctx: QueryContext, txn: int) returns (r: int)
    requires a.Valid() && txn in a.nodes && a.nodes[txn].kind.Transaction?
    modifies a
    ensures a.Valid()
    ensures (a.State(), r) == SeparateCommitEffect(old(a.State()), ctx, txn)
  {
    var ok := AppendPair(a, txn, PairSpec(OpPrepare, true), ContextRouting(ctx));
    if !ok {
      return -1;
    }
    ok := AppendPair(a, txn, PairSpec(OpCommit, true), ContextRouting(ctx));
    if !ok {
      return -1;
    }
    if ctx.autocommit {
      ok := AppendPair(a, txn, PairSpec(OpRollback, true), ContextRouting(ctx));
      if !ok {
        return -1;
      }
    }
    if a.nodes[txn].kind.cmd == TxnCommitBegin {
      ok := AppendPair(a, txn, PairSpec(OpBegin, false), ContextRouting(ctx));
      if !ok {
        return -1;
      }
    }
    return 0;
  }

  /** separate_commit appends the pairs of CommitPairs as far as the budget allows, keeping the arena well formed. */
  lemma SeparateCommitOutcome(s: ArenaState, ctx: QueryContext, txn: int)
    requires WellFormed(s.nodes) && Fresh(s) && txn in s.nodes && s.nodes[txn].kind.Transaction?
    ensures var (s1, r) := SeparateCommitEffect(s, ctx, txn);
      && var ps := CommitPairs(ctx.autocommit, s.nodes[txn].kind.cmd);
      && WellFormed(s1.nodes) && Fresh(s1) && Grown(s, s1)
      && ProtocolOutcome(s.nodes, s1.nodes, txn, ps, ContextRouting(ctx), s.left, r)
      && s1.left == (if r == 0 then s.left - 2 * |ps| else 0)
  {
    var ps := CommitPairs(ctx.autocommit, s.nodes[txn].kind.cmd);
    var routing := ContextRouting(ctx);
    assert Progress(s, s, txn, ps, routing, 0);
    ProgressStep(s, s, txn, ps, routing, 0);
    var (s1, ok1) := AppendPairEffect(s, txn, ps[0], routing);
    if !ok1 { return; }
    ProgressStep(s, s1, txn, ps, routing, 1);
    var (s2, ok2) := AppendPairEffect(s1, txn, ps[1], routing);
    if !ok2 { return; }
    CommitTail(s, s2, ctx, txn);
  }

  /** The optional ROLLBACK and BEGIN blocks of separate_commit, after PREPARE and COMMIT succeeded. */
  lemma CommitTail(s: ArenaState, s2: ArenaState, ctx: QueryContext, txn: int)
    requires txn in s.nodes && s.nodes[txn].kind.Transaction?
    requires Progress(s, s2, txn, CommitPairs(ctx.autocommit, s.nodes[txn].kind.cmd), ContextRouting(ctx), 2)
    ensures var (s3, ok3) := if ctx.autocommit then AppendPairEffect(s2, txn, PairSpec(OpRollback, true), ContextRouting(ctx)) else (s2, true);
      && var ps := CommitPairs(ctx.autocommit, s.nodes[txn].kind.cmd);
      && var (s4, r) :=
           if !ok3 then (s3, -1)
           else if s3.nodes[txn].kind.cmd != TxnCommitBegin then (s3, 0)
           else var (s4, ok4) := AppendPairEffect(s3, txn, PairSpec(OpBegin, false), ContextRouting(ctx));
                if !ok4 then (s4, -1) else (s4, 0);
      && WellFormed(s4.nodes) && Fresh(s4) && Grown(s, s4)
      && ProtocolOutcome(s.nodes, s4.nodes, txn, ps, ContextRouting(ctx), s.left, r)
      && s4.left == (if r == 0 then s.left - 2 * |ps| else 0)
  {
    var ps := CommitPairs(ctx.autocommit, s.nodes[txn].kind.cmd);
    var routing := ContextRouting(ctx);
    if ctx.autocommit {
      ProgressStep(s, s2, txn, ps, routing, 2);
      var (s3, ok3) := AppendPairEffect(s2, txn, ps[2], routing);
      if ok3 {
        OptionalBegin(s, s3, txn, ps, routing, 3, s3.nodes[txn].kind.cmd == TxnCommitBegin);
      }
    } else {
      OptionalBegin(s, s2, txn, ps, routing, 2, s2.nodes[txn].kind.cmd == TxnCommitBegin);
    }
  }
}
