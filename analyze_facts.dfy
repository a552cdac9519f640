/**
 * What Separate::analyze does to the plan, branch by branch, and that every
 * branch leaves the arena WellFormed (PlanTree.WellFormed, which does not
 * rule out cycles).
 */
module SeparateFacts {
  import opened Wrappers
  import opened PlanNode
  import opened PlanTree
  import opened PlanArena
  import opened TxnSeparate
  import opened JoinSeparate
  import opened DmlSeparate
  import opened Separate

  /** The pass got past its entry guards and the statement is the given op. */
  ghost predicate Entered(s: ArenaState, l: Lookup, needSeparate: bool, bound: nat) {
    Ready(s, l, bound) && Proceeds(s, l, needSeparate)
  }

  /** The statement's Fetcher, once allocated on the next id, leaves the arena well formed. */
  lemma SpentFacts(s: ArenaState, n: Node)
    requires WellFormed(s.nodes) && Fresh(s) && s.left > 0 && Detached(n)
    ensures WellFormed(Spent(s, n).nodes) && Fresh(Spent(s, n)) && s.next !in s.nodes
  {
    InsertDetached(s.nodes, s.next, n);
  }

  // ----- Entry guards -----

  /**
   * Lines 29-51: no Packet is -1; a Packet without children, or a plan that need
   * not be separated, is 0; a failed first allocation is -1. None of them changes
   * the plan.
   */
  lemma AnalyzeGuards(s: ArenaState, ctx: QueryContext, l: Lookup, needSeparate: bool, bound: nat)
    requires Ready(s, l, bound) && !Proceeds(s, l, needSeparate)
    ensures AnalyzeEffect(s, ctx, l, needSeparate, bound)
         == (s, if l.packet.None? || (|s.nodes[l.packet.value].children| > 0 && needSeparate) then -1 else 0)
  {
  }

  // ----- DML -----

  /** The Fetcher analyze builds for a DML statement. */
  function DmlFetcher(s: ArenaState, ctx: QueryContext, l: Lookup): Node
    requires LookupValid(s.nodes, l) && l.packet.Some?
  {
    FetcherFor(PacketOp(s.nodes, l), true, DmlRouting(s.nodes, l, ctx))
  }

  /** Analyze on a DML statement is the dispatch on its routed Fetcher, starting from the chain leaf below the Packet. */
  lemma AnalyzeIsDml(s: ArenaState, ctx: QueryContext, l: Lookup, needSeparate: bool, bound: nat)
    requires Entered(s, l, needSeparate, bound) && IsDml(PacketOp(s.nodes, l))
    ensures var packet := l.packet.value;
      && Primed(Spent(s, DmlFetcher(s, ctx, l)), packet, s.next)
      && ChainBelow(s.nodes, s.nodes[packet].children[0], bound, packet)
      && AnalyzeEffect(s, ctx, l, needSeparate, bound)
         == DmlDispatchEffect(Spent(s, DmlFetcher(s, ctx, l)), ctx, packet, s.next, DmlRouting(s.nodes, l, ctx),
                              ChainLeafOf(s.nodes, s.nodes[packet].children[0], bound, packet))
  {
    DmlPrimed(s, ctx, l, bound);
  }

  /**
   * Lines 71-74: outside autocommit, or for TRUNCATE TABLE, the DML subtree moves
   * under the routed Fetcher, the Packet's only child; the result is 0.
   */
  lemma AnalyzeDmlWrap(s: ArenaState, ctx: QueryContext, l: Lookup, needSeparate: bool, bound: nat)
    requires Entered(s, l, needSeparate, bound) && IsDml(PacketOp(s.nodes, l))
    requires !ctx.autocommit || PacketOp(s.nodes, l) == OpTruncateTable
    ensures var (s1, r) := AnalyzeEffect(s, ctx, l, needSeparate, bound);
      && r == 0 && s1.next == s.next + 1 && s1.left == s.left - 1 && WellFormed(s1.nodes)
      && Wrapped(s.nodes, s1.nodes, l.packet.value, DmlFetcher(s, ctx, l))
  {
    var packet := l.packet.value;
    var n := DmlFetcher(s, ctx, l);
    AnalyzeIsDml(s, ctx, l, needSeparate, bound);
    FirstChild(s.nodes, packet);
    WrapFreshKeepsWellFormed(s.nodes, packet, s.next, n);
    WrapFreshShape(s.nodes, packet, s.next, n);
  }

  /**
   * Lines 76-82 with two-phase commit off: the statement's Fetcher is left
   * unused, and separate_autocommit_dml_1pc wraps the DML subtree in a second,
   * identical Fetcher when one more allocation succeeds; otherwise -1.
   */
  lemma AnalyzeDml1pc(s: ArenaState, ctx: QueryContext, l: Lookup, needSeparate: bool, bound: nat)
    requires Entered(s, l, needSeparate, bound) && IsDml(PacketOp(s.nodes, l))
    requires ctx.autocommit && PacketOp(s.nodes, l) != OpTruncateTable && !ctx.enable2pc
    ensures var (s1, r) := AnalyzeEffect(s, ctx, l, needSeparate, bound);
      var n := DmlFetcher(s, ctx, l);
      && WellFormed(s1.nodes)
      && (r == 0 <==> s.left >= 2) && (r != 0 ==> r == -1 && s1 == Spent(s, n))
      && (r == 0 ==> s1.left == s.left - 2 && Wrapped(s.nodes[s.next := n], s1.nodes, l.packet.value, n))
  {
    var n := DmlFetcher(s, ctx, l);
    AnalyzeIsDml(s, ctx, l, needSeparate, bound);
    SpentFacts(s, n);
    Dml1pcOutcome(Spent(s, n), ctx, l.packet.value, DmlRouting(s.nodes, l, ctx).regions);
  }

  /** The two-phase branch: analyze is separate_autocommit_dml_2pc run after the statement's Fetcher was allocated. */
  lemma AnalyzeIsDml2pc(s: ArenaState, ctx: QueryContext, l: Lookup, needSeparate: bool, bound: nat, leaf: int)
    requires Entered(s, l, needSeparate, bound) && IsDml(PacketOp(s.nodes, l))
    requires ctx.autocommit && PacketOp(s.nodes, l) != OpTruncateTable && ctx.enable2pc
    requires IsChainLeaf(s.nodes, s.nodes[l.packet.value].children[0], leaf)
    ensures var s1 := Spent(s, DmlFetcher(s, ctx, l));
      && WellFormed(s1.nodes) && Fresh(s1) && leaf in s1.nodes && leaf != l.packet.value
      && s1.nodes[l.packet.value].children[0] == s.nodes[l.packet.value].children[0]
      && var o := Dml2pcEffect(s1, DmlRouting(s.nodes, l, ctx), l.packet.value, leaf);
      AnalyzeEffect(s, ctx, l, needSeparate, bound) == (o.state, if o.ok then 0 else -1)
  {
    var packet := l.packet.value;
    var root := s.nodes[packet].children[0];
    AnalyzeIsDml(s, ctx, l, needSeparate, bound);
    ChainLeafOfIsLeaf(s.nodes, root, bound, packet, leaf);
    SpentFacts(s, DmlFetcher(s, ctx, l));
  }

  /**
   * Lines 76-80 with two-phase commit on and nine allocations left: the
   * statement's Fetcher is left unused and the plan Dml2pcShape describes is built
   * on the next eight ids after it, with the BEGIN store node under the chain
   * leaf; the result is 0.
   */
  lemma AnalyzeDml2pcSuccess(s: ArenaState, ctx: QueryContext, l: Lookup, needSeparate: bool, bound: nat, leaf: int)
    requires Entered(s, l, needSeparate, bound) && IsDml(PacketOp(s.nodes, l))
    requires ctx.autocommit && PacketOp(s.nodes, l) != OpTruncateTable && ctx.enable2pc
    requires IsChainLeaf(s.nodes, s.nodes[l.packet.value].children[0], leaf) && s.left >= 9
    ensures var (s1, r) := AnalyzeEffect(s, ctx, l, needSeparate, bound);
      && r == 0 && WellFormed(s1.nodes) && s1.left == s.left - 9
      && Dml2pcShape(s.nodes[s.next := DmlFetcher(s, ctx, l)], s1.nodes, DmlRouting(s.nodes, l, ctx),
                     l.packet.value, s.next + 1, s.nodes[l.packet.value].children[0], leaf)
  {
    AnalyzeIsDml2pc(s, ctx, l, needSeparate, bound, leaf);
    Dml2pcSuccess(Spent(s, DmlFetcher(s, ctx, l)), DmlRouting(s.nodes, l, ctx), l.packet.value, leaf);
  }

  /**
   * Lines 76-80 with two-phase commit on and fewer than nine allocations left:
   * the result is -1 and the budget is spent; once the coordinator exists the
   * Packet is left without children. Every node but the Packet, its first child
   * and the chain leaf is as it was.
   */
  lemma AnalyzeDml2pcFailure(s: ArenaState, ctx: QueryContext, l: Lookup, needSeparate: bool, bound: nat, leaf: int)
    requires Entered(s, l, needSeparate, bound) && IsDml(PacketOp(s.nodes, l))
    requires ctx.autocommit && PacketOp(s.nodes, l) != OpTruncateTable && ctx.enable2pc
    requires IsChainLeaf(s.nodes, s.nodes[l.packet.value].children[0], leaf) && s.left < 9
    ensures var (s1, r) := AnalyzeEffect(s, ctx, l, needSeparate, bound);
      var packet := l.packet.value;
      && r == -1 && WellFormed(s1.nodes) && s1.left == 0
      && (s.left == 1 ==> s1 == Spent(s, DmlFetcher(s, ctx, l)))
      && (s.left >= 2 ==> packet in s1.nodes && s1.nodes[packet] == s.nodes[packet].(children := []))
      && Keeps(s.nodes[s.next := DmlFetcher(s, ctx, l)], s1.nodes, {packet, s.nodes[packet].children[0], leaf})
  {
    var packet := l.packet.value;
    var s1 := Spent(s, DmlFetcher(s, ctx, l));
    var routing := DmlRouting(s.nodes, l, ctx);
    AnalyzeIsDml2pc(s, ctx, l, needSeparate, bound, leaf);
    Dml2pcFailure(s1, routing, packet, leaf);
    var o := Dml2pcEffect(s1, routing, packet, leaf);
    assert AnalyzeEffect(s, ctx, l, needSeparate, bound) == (o.state, -1);
    assert s1.nodes[packet] == s.nodes[packet];
  }

  // ----- BEGIN, COMMIT, ROLLBACK -----

  /** The pairs the protocol builder for op appends. */
  function ProtocolPairs(op: OpType, autocommit: bool, cmd: TxnCmd): seq<PairSpec> {
    if op == OpBegin then [PairSpec(OpBegin, true)]
    else if op == OpCommit then CommitPairs(autocommit, cmd)
    else RollbackPairs(cmd)
  }

  /**
   * Lines 87-102: without a Transaction node the result is -1; with one, the
   * statement's Fetcher is left unused and the builder for the op appends its
   * pairs to the Transaction node as far as the remaining budget allows.
   */
  lemma AnalyzeTxn(s: ArenaState, ctx: QueryContext, l: Lookup, needSeparate: bool, bound: nat)
    requires Entered(s, l, needSeparate, bound)
    requires PacketOp(s.nodes, l) in {OpBegin, OpCommit, OpRollback}
    ensures var (s1, r) := AnalyzeEffect(s, ctx, l, needSeparate, bound);
      var op := PacketOp(s.nodes, l);
      && WellFormed(s1.nodes)
      && (l.txn.None? ==> r == -1 && s1 == Spent(s, NewFetcher(op)))
      && (l.txn.Some? ==>
            ProtocolOutcome(s.nodes[s.next := NewFetcher(op)], s1.nodes, l.txn.value,
                            ProtocolPairs(op, ctx.autocommit, s.nodes[l.txn.value].kind.cmd),
                            ContextRouting(ctx), s.left - 1, r))
  {
    var op := PacketOp(s.nodes, l);
    SpentFacts(s, NewFetcher(op));
    if l.txn.Some? {
      TxnOnSpent(s, ctx, l);
    }
  }

  /** The protocol builder for the statement's op, run right after its Fetcher was allocated on the next id. */
  ghost predicate TxnBuilt(s: ArenaState, ctx: QueryContext, l: Lookup)
    requires Fresh(s) && s.left > 0 && LookupValid(s.nodes, l) && l.packet.Some? && l.txn.Some?
  {
    var (s1, r) := TxnEffect(s, ctx, l);
    && WellFormed(s1.nodes)
    && ProtocolOutcome(s.nodes[s.next := NewFetcher(PacketOp(s.nodes, l))], s1.nodes, l.txn.value,
                       ProtocolPairs(PacketOp(s.nodes, l), ctx.autocommit, s.nodes[l.txn.value].kind.cmd),
                       ContextRouting(ctx), s.left - 1, r)
  }

  /** TxnBuilt, for each of BEGIN, COMMIT and ROLLBACK. */
  lemma TxnOnSpent(s: ArenaState, ctx: QueryContext, l: Lookup)
    requires WellFormed(s.nodes) && Fresh(s) && s.left > 0 && LookupValid(s.nodes, l) && l.packet.Some? && l.txn.Some?
    requires PacketOp(s.nodes, l) in {OpBegin, OpCommit, OpRollback}
    ensures TxnBuilt(s, ctx, l)
  {
    var op := PacketOp(s.nodes, l);
    if op == OpBegin {
      BeginOnSpent(s, ctx, l);
    } else if op == OpCommit {
      CommitOnSpent(s, ctx, l);
    } else {
      RollbackOnSpent(s, ctx, l);
    }
  }

  /** TxnBuilt for BEGIN. */
  lemma BeginOnSpent(s: ArenaState, ctx: QueryContext, l: Lookup)
    requires WellFormed(s.nodes) && Fresh(s) && s.left > 0 && LookupValid(s.nodes, l) && l.packet.Some? && l.txn.Some?
    requires PacketOp(s.nodes, l) == OpBegin
    ensures TxnBuilt(s, ctx, l)
  {
    var txn := l.txn.value;
    var s1 := Spent(s, NewFetcher(OpBegin));
    SpentFacts(s, NewFetcher(OpBegin));
    assert txn != s.next && s1.nodes[txn] == s.nodes[txn];
    SeparateBeginOutcome(s1, ctx, txn);
    var o := SeparateBeginEffect(s1, ctx, txn);
    assert o == TxnEffect(s, ctx, l);
    TxnBuiltFrom(s, ctx, l, o, [PairSpec(OpBegin, true)]);
  }

  /** TxnBuilt for COMMIT. */
  lemma CommitOnSpent(s: ArenaState, ctx: QueryContext, l: Lookup)
    requires WellFormed(s.nodes) && Fresh(s) && s.left > 0 && LookupValid(s.nodes, l) && l.packet.Some? && l.txn.Some?
    requires PacketOp(s.nodes, l) == OpCommit
    ensures TxnBuilt(s, ctx, l)
  {
    var txn := l.txn.value;
    var s1 := Spent(s, NewFetcher(OpCommit));
    SpentFacts(s, NewFetcher(OpCommit));
    assert txn != s.next && s1.nodes[txn] == s.nodes[txn];
    SeparateCommitOutcome(s1, ctx, txn);
    var o := SeparateCommitEffect(s1, ctx, txn);
    assert o == TxnEffect(s, ctx, l);
    TxnBuiltFrom(s, ctx, l, o, CommitPairs(ctx.autocommit, s1.nodes[txn].kind.cmd));
  }

  /** TxnBuilt for ROLLBACK. */
  lemma RollbackOnSpent(s: ArenaState, ctx: QueryContext, l: Lookup)
    requires WellFormed(s.nodes) && Fresh(s) && s.left > 0 && LookupValid(s.nodes, l) && l.packet.Some? && l.txn.Some?
    requires PacketOp(s.nodes, l) == OpRollback
    ensures TxnBuilt(s, ctx, l)
  {
    var txn := l.txn.value;
    var s1 := Spent(s, NewFetcher(OpRollback));
    SpentFacts(s, NewFetcher(OpRollback));
    assert txn != s.next && s1.nodes[txn] == s.nodes[txn];
    SeparateRollbackOutcome(s1, ctx, txn);
    var o := SeparateRollbackEffect(s1, ctx, txn);
    assert o == TxnEffect(s, ctx, l);
    TxnBuiltFrom(s, ctx, l, o, RollbackPairs(s1.nodes[txn].kind.cmd));
  }

  /** TxnBuilt, from the builder's outcome o on the spent arena and the pairs ps it appends. */
  lemma TxnBuiltFrom(s: ArenaState, ctx: QueryContext, l: Lookup, o: (ArenaState, int), ps: seq<PairSpec>)
    requires Fresh(s) && s.left > 0 && LookupValid(s.nodes, l) && l.packet.Some? && l.txn.Some?
    requires o == TxnEffect(s, ctx, l) && WellFormed(o.0.nodes)
    requires ps == ProtocolPairs(PacketOp(s.nodes, l), ctx.autocommit, s.nodes[l.txn.value].kind.cmd)
    requires ProtocolOutcome(Spent(s, NewFetcher(PacketOp(s.nodes, l))).nodes, o.0.nodes, l.txn.value, ps,
                             ContextRouting(ctx), Spent(s, NewFetcher(PacketOp(s.nodes, l))).left, o.1)
    ensures TxnBuilt(s, ctx, l)
  {
  }

  // ----- SELECT -----

  /** The Fetcher analyze builds for a SELECT statement: routed by the first Scan. */
  function SelectFetcherOf(s: ArenaState, l: Lookup): Node
    requires LookupValid(s.nodes, l) && l.packet.Some? && |l.scans| > 0
  {
    SelectFetcher(PacketOp(s.nodes, l), FirstScanRegions(s.nodes, l))
  }

  /** Analyze on a SELECT statement with a Scan is the dispatch on its routed Fetcher. */
  lemma AnalyzeIsSelect(s: ArenaState, ctx: QueryContext, l: Lookup, needSeparate: bool, bound: nat)
    requires Entered(s, l, needSeparate, bound) && PacketOp(s.nodes, l) == OpSelect && |l.scans| > 0
    ensures SelectPrimed(Spent(s, SelectFetcherOf(s, l)), l, l.packet.value, s.next)
    ensures AnalyzeEffect(s, ctx, l, needSeparate, bound)
         == SelectDispatchEffect(Spent(s, SelectFetcherOf(s, l)), l, l.packet.value, s.next, FirstScanRegions(s.nodes, l))
    ensures WellFormed(Spent(s, SelectFetcherOf(s, l)).nodes) && s.next !in s.nodes
  {
    SelectPrimedFrom(s, l);
    SpentFacts(s, SelectFetcherOf(s, l));
  }

  /**
   * Lines 104-117: a SELECT without a Scan, or without a Join but with several
   * Scans, is an illegal plan: -1, with the statement's Fetcher left unused.
   */
  lemma AnalyzeSelectIllegal(s: ArenaState, ctx: QueryContext, l: Lookup, needSeparate: bool, bound: nat)
    requires Entered(s, l, needSeparate, bound) && PacketOp(s.nodes, l) == OpSelect
    requires |l.scans| == 0 || (l.joins == [] && |l.scans| > 1)
    ensures var (s1, r) := AnalyzeEffect(s, ctx, l, needSeparate, bound);
      && r == -1 && WellFormed(s1.nodes)
      && s1 == Spent(s, if |l.scans| == 0 then NewFetcher(OpSelect) else SelectFetcherOf(s, l))
  {
    if |l.scans| == 0 {
      SpentFacts(s, NewFetcher(OpSelect));
    } else {
      AnalyzeIsSelect(s, ctx, l, needSeparate, bound);
    }
  }

  /**
   * Lines 118-124: one Scan, no Join, one region: the whole plan below the Packet
   * goes under the Fetcher, which becomes the Packet's only child; the result is 0.
   */
  lemma AnalyzeSingleRegion(s: ArenaState, ctx: QueryContext, l: Lookup, needSeparate: bool, bound: nat)
    requires Entered(s, l, needSeparate, bound) && PacketOp(s.nodes, l) == OpSelect
    requires l.joins == [] && |l.scans| == 1 && |FirstScanRegions(s.nodes, l)| == 1
    ensures var (s1, r) := AnalyzeEffect(s, ctx, l, needSeparate, bound);
      && r == 0 && WellFormed(s1.nodes) && Wrapped(s.nodes, s1.nodes, l.packet.value, SelectFetcherOf(s, l))
  {
    var packet := l.packet.value;
    AnalyzeIsSelect(s, ctx, l, needSeparate, bound);
    FirstChild(s.nodes, packet);
    WrapFreshKeepsWellFormed(s.nodes, packet, s.next, SelectFetcherOf(s, l));
    WrapFreshShape(s.nodes, packet, s.next, SelectFetcherOf(s, l));
  }

  /** Adding a node under a fresh id does not change how a listed child of a well-formed arena is classed. */
  lemma ClassifyFresh(m: Nodes, k: int, n: Node, c: int)
    requires WellFormed(m) && k !in m && c in m
    ensures Classify(m[k := n], c) == Classify(m, c)
  {
    if m[c].kind.Filter? && |m[c].children| > 0 {
      assert m[c].children[0] in m[c].children;
    }
  }

  /** Separated and JoinLegal, relative to the arena before a fresh node was added, are the same as relative to the one after. */
  lemma RewrittenFresh(m: Nodes, k: int, n: Node, m2: Nodes, j: int)
    requires WellFormed(m) && k !in m && j in m
    ensures JoinLegal(m[k := n], j) <==> JoinLegal(m, j)
    ensures Separated(m[k := n], m2, j) ==> Separated(m, m2, j)
  {
    var m1 := m[k := n];
    forall p | 0 <= p < |m[j].children|
      ensures Classify(m1, m[j].children[p]) == Classify(m, m[j].children[p])
    {
      assert m[j].children[p] in m[j].children;
      ClassifyFresh(m, k, n, m[j].children[p]);
    }
    if Separated(m1, m2, j) {
      forall p | 0 <= p < |m[j].children|
        ensures ChildRewritten(m, m2, j, m[j].children[p], m2[j].children[p])
      {
        assert ChildRewritten(m1, m2, j, m1[j].children[p], m2[j].children[p]);
      }
      forall p | 0 <= p < |m[j].children| && p < |m2[j].children|
        ensures ScanPointed(m, m2, m[j].children[p], m2[j].children[p])
      {
        assert ScanPointed(m1, m2, m1[j].children[p], m2[j].children[p]);
      }
    }
  }

  /**
   * Lines 128-129: with a Join, seperate_for_join rewrites the Join children and
   * its result is dropped: analyze returns 0 even for a Join child it cannot
   * handle. When every child of every Join can be handled, each Join child that
   * is not a Join is now a new SELECT Fetcher, in its place, over that child,
   * and the child's Scan names that Fetcher as its related Fetcher. In every
   * case no other old node changes beyond what Kept and Framed allow.
   */
  lemma AnalyzeJoin(s: ArenaState, ctx: QueryContext, l: Lookup, needSeparate: bool, bound: nat)
    requires Entered(s, l, needSeparate, bound) && PacketOp(s.nodes, l) == OpSelect
    requires l.joins != [] && |l.scans| > 0
    ensures var (s1, r) := AnalyzeEffect(s, ctx, l, needSeparate, bound);
      && r == 0 && WellFormed(s1.nodes)
      && ((forall t :: 0 <= t < |l.joins| ==> JoinLegal(s.nodes, l.joins[t])) ==>
            forall t :: 0 <= t < |l.joins| ==> Separated(s.nodes, s1.nodes, l.joins[t]))
      && Kept(s.nodes, s1.nodes, l.joins) && Framed(s.nodes, s1.nodes)
  {
    AnalyzeIsSelect(s, ctx, l, needSeparate, bound);
    var f := SelectFetcherOf(s, l);
    var s1 := Spent(s, f);
    JoinsKeepWellFormed(s1, l.joins, 0);
    JoinsSeparated(s1, l.joins);
    JoinsPointScans(s1, l.joins);
    var m := JoinsEffect(s1, l.joins, 0).0.nodes;
    JoinFrameOnSpent(s, l.joins, f, m);
    forall t | 0 <= t < |l.joins|
      ensures JoinLegal(s1.nodes, l.joins[t]) <==> JoinLegal(s.nodes, l.joins[t])
      ensures Separated(s1.nodes, m, l.joins[t]) ==> Separated(s.nodes, m, l.joins[t])
    {
      RewrittenFresh(s.nodes, s.next, f, m, l.joins[t]);
    }
  }

  /** The statement's Fetcher, then the Join rewrite: Kept and Framed from the arena before both. */
  lemma JoinFrameOnSpent(s: ArenaState, joins: seq<int>, f: Node, m: Nodes)
    requires Fresh(s) && s.left > 0 && f.kind.Fetcher? && JoinsIn(Spent(s, f).nodes, joins)
    requires m == JoinsEffect(Spent(s, f), joins, 0).0.nodes
    ensures Kept(s.nodes, m, joins) && Framed(s.nodes, m)
  {
    var s1 := Spent(s, f);
    JoinsFramed(s1, joins, 0);
    FramedFresh(s.nodes, s.next, f, []);
    FramedTrans(s.nodes, s1.nodes, m, [], joins);
    KeptTrans(s.nodes, s1.nodes, m, [], joins);
    assert [] + joins == joins;
  }

  /** Lines 112-125 do not apply: no Join, one Scan, and not exactly one region. */
  ghost predicate PastSingleRegion(s: ArenaState, l: Lookup)
    requires |l.scans| > 0 && l.scans[0] in s.nodes && s.nodes[l.scans[0]].kind.Scan?
  {
    l.joins == [] && |l.scans| == 1 && |FirstScanRegions(s.nodes, l)| != 1
  }

  /**
   * Lines 130-151: without a Join, an Agg node is split. A MERGE_AGG node built
   * from its settings takes the Agg node's place as the only child of the Agg
   * node's parent, over the Fetcher, which is over the Agg node; the result is 0.
   * An Agg node without a parent is -1.
   */
  lemma AnalyzeAgg(s: ArenaState, ctx: QueryContext, l: Lookup, needSeparate: bool, bound: nat)
    requires Entered(s, l, needSeparate, bound) && PacketOp(s.nodes, l) == OpSelect && |l.scans| > 0
    requires PastSingleRegion(s, l) && l.agg.Some?
    ensures AnalyzeEffect(s, ctx, l, needSeparate, bound) == AggEffect(Spent(s, SelectFetcherOf(s, l)), l.agg.value, s.next)
    ensures AggSplit(s, AnalyzeEffect(s, ctx, l, needSeparate, bound), l.agg.value, SelectFetcherOf(s, l))
  {
    AnalyzeIsSelect(s, ctx, l, needSeparate, bound);
    AggOnSpent(s, l.agg.value, SelectFetcherOf(s, l));
  }

  /**
   * From s, with the Fetcher n on the next id and the merge aggregate on the one
   * after: the merge aggregate built from agg's settings hangs where agg hung, as
   * the only child of agg's parent, over the Fetcher, over agg; the result is 0
   * with a parent and -1 without; the arena is well formed and nothing else changed.
   */
  ghost predicate AggSplit(s: ArenaState, o: (ArenaState, int), agg: int, n: Node)
    requires agg in s.nodes
  {
    WellFormed(o.0.nodes) && AggSplitShape(s, o, agg, n)
  }

  /** The shape part of AggSplit. */
  ghost predicate AggSplitShape(s: ArenaState, o: (ArenaState, int), agg: int, n: Node)
    requires agg in s.nodes
  {
    var (s1, r) := o;
    var p := s.nodes[agg].parent;
    var f := s.next;
    var mg := s.next + 1;
    && (r == 0 <==> p.Some?) && (r != 0 ==> r == -1)
    && s1.nodes.Keys == s.nodes.Keys + {f, mg} && mg in s1.nodes && f in s1.nodes && agg in s1.nodes
    && s1.nodes[mg] == MergeAggFor(s.nodes[agg].config).(children := [f], parent := p)
    && s1.nodes[f] == n.(children := [agg], parent := Some(mg))
    && s1.nodes[agg] == s.nodes[agg].(parent := Some(f))
    && (p.Some? ==> p.value in s.nodes && p.value in s1.nodes && s1.nodes[p.value] == s.nodes[p.value].(children := [mg]))
    && Keeps(s.nodes, s1.nodes, {agg} + Ids(p))
  }

  /** The aggregate split, run right after the Fetcher n was allocated on the next id, is AggSplit. */
  lemma AggOnSpent(s: ArenaState, agg: int, n: Node)
    requires WellFormed(s.nodes) && Fresh(s) && s.left > 0 && Detached(n) && agg in s.nodes
    ensures s.next !in s.nodes
    ensures AggSplit(s, AggEffect(Spent(s, n), agg, s.next), agg, n)
  {
    SpentFacts(s, n);
    assert Spent(s, n).nodes[agg] == s.nodes[agg];
    AggKeepsWellFormed(Spent(s, n), agg, s.next);
    AggShapeOnSpent(s, agg, n);
  }

  /** The shape part of AggOnSpent. */
  lemma AggShapeOnSpent(s: ArenaState, agg: int, n: Node)
    requires WellFormed(s.nodes) && Fresh(s) && s.left > 0 && Detached(n) && agg in s.nodes
    ensures AggSplitShape(s, AggEffect(Spent(s, n), agg, s.next), agg, n)
  {
    AggNodesOnSpent(s, agg, n);
    AggKeepsOnSpent(s, agg, n);
  }

  /** The new and moved nodes of the aggregate split, after the Fetcher n was allocated on the next id. */
  lemma AggNodesOnSpent(s: ArenaState, agg: int, n: Node)
    requires WellFormed(s.nodes) && Fresh(s) && s.left > 0 && Detached(n) && agg in s.nodes
    ensures var (s1, r) := AggEffect(Spent(s, n), agg, s.next);
      var p := s.nodes[agg].parent;
      var f := s.next;
      var mg := s.next + 1;
      && (r == 0 <==> p.Some?) && (r != 0 ==> r == -1)
      && s1.nodes.Keys == s.nodes.Keys + {f, mg} && mg in s1.nodes && f in s1.nodes && agg in s1.nodes
      && s1.nodes[mg] == MergeAggFor(s.nodes[agg].config).(children := [f], parent := p)
      && s1.nodes[f] == n.(children := [agg], parent := Some(mg))
      && s1.nodes[agg] == s.nodes[agg].(parent := Some(f))
      && (p.Some? ==> p.value in s.nodes && p.value in s1.nodes && s1.nodes[p.value] == s.nodes[p.value].(children := [mg]))
  {
    var s1 := Spent(s, n);
    SpentFacts(s, n);
    assert s1.nodes[agg] == s.nodes[agg];
    AggShape(s1, agg, s.next);
  }

  /** The aggregate split, after the Fetcher n was allocated on the next id, keeps every old node but agg and its parent. */
  lemma AggKeepsOnSpent(s: ArenaState, agg: int, n: Node)
    requires WellFormed(s.nodes) && Fresh(s) && s.left > 0 && Detached(n) && agg in s.nodes
    ensures Keeps(s.nodes, AggEffect(Spent(s, n), agg, s.next).0.nodes, {agg} + Ids(s.nodes[agg].parent))
  {
    var s1 := Spent(s, n);
    SpentFacts(s, n);
    assert s1.nodes[agg] == s.nodes[agg];
    AggShape(s1, agg, s.next);
    var p := s.nodes[agg].parent;
    var m := AggEffect(s1, agg, s.next).0.nodes;
    forall k | k in s.nodes && k !in {agg} + Ids(p) ensures k in m && m[k] == s.nodes[k] {
      assert k != s.next && k in s1.nodes && s1.nodes[k] == s.nodes[k];
    }
  }

  /**
   * Lines 152-167: without a Join or an Agg node, a Sort node is pushed down.
   * The Fetcher takes the Sort node's ordering settings, adopts the Sort node, and
   * takes its place as the only child of the Sort node's parent; the result is 0.
   * A Sort node without a parent is -1.
   */
  lemma AnalyzeSort(s: ArenaState, ctx: QueryContext, l: Lookup, needSeparate: bool, bound: nat)
    requires Entered(s, l, needSeparate, bound) && PacketOp(s.nodes, l) == OpSelect && |l.scans| > 0
    requires PastSingleRegion(s, l) && l.agg.None? && l.sort.Some?
    ensures AnalyzeEffect(s, ctx, l, needSeparate, bound) == SortEffect(Spent(s, SelectFetcherOf(s, l)), l.sort.value, s.next)
    ensures SortPush(s, AnalyzeEffect(s, ctx, l, needSeparate, bound), l.sort.value, SelectFetcherOf(s, l))
  {
    AnalyzeIsSelect(s, ctx, l, needSeparate, bound);
    SortOnSpent(s, l.sort.value, SelectFetcherOf(s, l));
  }

  /**
   * From s, with the Fetcher n on the next id: the Fetcher takes sort's ordering
   * settings, holds sort and hangs where sort hung, as the only child of sort's
   * parent; the result is 0 with a parent and -1 without; the arena is well
   * formed and nothing else changed.
   */
  ghost predicate SortPush(s: ArenaState, o: (ArenaState, int), sort: int, n: Node)
    requires sort in s.nodes
  {
    WellFormed(o.0.nodes) && SortPushShape(s, o, sort, n)
  }

  /** The shape part of SortPush. */
  ghost predicate SortPushShape(s: ArenaState, o: (ArenaState, int), sort: int, n: Node)
    requires sort in s.nodes
  {
    var (s1, r) := o;
    var p := s.nodes[sort].parent;
    var f := s.next;
    && (r == 0 <==> p.Some?) && (r != 0 ==> r == -1)
    && s1.nodes.Keys == s.nodes.Keys + {f} && f in s1.nodes && sort in s1.nodes && n.kind.Fetcher?
    && s1.nodes[f] == n.(kind := n.kind.(ordering := Some(s.nodes[sort].config)), children := [sort], parent := p)
    && s1.nodes[sort] == s.nodes[sort].(parent := Some(f))
    && (p.Some? ==> p.value in s.nodes && p.value in s1.nodes && s1.nodes[p.value] == s.nodes[p.value].(children := [f]))
    && Keeps(s.nodes, s1.nodes, {sort} + Ids(p))
  }

  /** The Sort push-down, run right after the Fetcher n was allocated on the next id, is SortPush. */
  lemma SortOnSpent(s: ArenaState, sort: int, n: Node)
    requires WellFormed(s.nodes) && Fresh(s) && s.left > 0 && Detached(n) && n.kind.Fetcher? && sort in s.nodes
    ensures s.next !in s.nodes
    ensures SortPush(s, SortEffect(Spent(s, n), sort, s.next), sort, n)
  {
    SpentFacts(s, n);
    assert Spent(s, n).nodes[sort] == s.nodes[sort];
    SortKeepsWellFormed(Spent(s, n), sort, s.next);
    SortShapeOnSpent(s, sort, n);
  }

  /** The shape part of SortOnSpent. */
  lemma SortShapeOnSpent(s: ArenaState, sort: int, n: Node)
    requires WellFormed(s.nodes) && Fresh(s) && s.left > 0 && Detached(n) && n.kind.Fetcher? && sort in s.nodes
    ensures SortPushShape(s, SortEffect(Spent(s, n), sort, s.next), sort, n)
  {
    var s1 := Spent(s, n);
    SpentFacts(s, n);
    assert s1.nodes[sort] == s.nodes[sort];
    SortShape(s1, sort, s.next);
    var p := s.nodes[sort].parent;
    var m := SortEffect(s1, sort, s.next).0.nodes;
    forall k | k in s.nodes && k !in {sort} + Ids(p) ensures k in m && m[k] == s.nodes[k] {
      assert k != s.next && k in s1.nodes && s1.nodes[k] == s.nodes[k];
    }
  }

  /**
   * Lines 168-174: without a Join, Agg or Sort node, a Limit node's first child
   * moves under the Fetcher, which becomes the Limit node's only child; a Limit
   * node without children is left alone. The result is 0.
   */
  lemma AnalyzeLimit(s: ArenaState, ctx: QueryContext, l: Lookup, needSeparate: bool, bound: nat)
    requires Entered(s, l, needSeparate, bound) && PacketOp(s.nodes, l) == OpSelect && |l.scans| > 0
    requires PastSingleRegion(s, l) && l.agg.None? && l.sort.None? && l.limit.Some?
    ensures var (s1, r) := AnalyzeEffect(s, ctx, l, needSeparate, bound);
      var limit := l.limit.value;
      && r == 0 && WellFormed(s1.nodes)
      && (|s.nodes[limit].children| == 0 ==> s1 == Spent(s, SelectFetcherOf(s, l)))
      && (|s.nodes[limit].children| > 0 ==> Wrapped(s.nodes, s1.nodes, limit, SelectFetcherOf(s, l)))
  {
    AnalyzeIsSelect(s, ctx, l, needSeparate, bound);
    var limit := l.limit.value;
    if |s.nodes[limit].children| > 0 {
      FirstChild(s.nodes, limit);
      WrapFreshKeepsWellFormed(s.nodes, limit, s.next, SelectFetcherOf(s, l));
      WrapFreshShape(s.nodes, limit, s.next, SelectFetcherOf(s, l));
    }
  }

  /**
   * Lines 175-179: with none of Join, Agg, Sort and Limit nodes, the plan below
   * the Packet goes under the Fetcher, the Packet's only child; the result is 0.
   */
  lemma AnalyzeDefault(s: ArenaState, ctx: QueryContext, l: Lookup, needSeparate: bool, bound: nat)
    requires Entered(s, l, needSeparate, bound) && PacketOp(s.nodes, l) == OpSelect && |l.scans| > 0
    requires PastSingleRegion(s, l) && l.agg.None? && l.sort.None? && l.limit.None?
    ensures var (s1, r) := AnalyzeEffect(s, ctx, l, needSeparate, bound);
      && r == 0 && WellFormed(s1.nodes) && Wrapped(s.nodes, s1.nodes, l.packet.value, SelectFetcherOf(s, l))
  {
    var packet := l.packet.value;
    AnalyzeIsSelect(s, ctx, l, needSeparate, bound);
    FirstChild(s.nodes, packet);
    WrapFreshKeepsWellFormed(s.nodes, packet, s.next, SelectFetcherOf(s, l));
    WrapFreshShape(s.nodes, packet, s.next, SelectFetcherOf(s, l));
  }

  // ----- Every path -----

  /** Whatever the plan and the context, analyze returns 0 or -1 and leaves the arena WellFormed. */
  lemma AnalyzeKeepsWellFormed(s: ArenaState, ctx: QueryContext, l: Lookup, needSeparate: bool, bound: nat)
    requires Ready(s, l, bound)
    ensures var (s1, r) := AnalyzeEffect(s, ctx, l, needSeparate, bound);
      WellFormed(s1.nodes) && (r == 0 || r == -1)
  {
    if !Proceeds(s, l, needSeparate) {
      AnalyzeGuards(s, ctx, l, needSeparate, bound);
      return;
    }
    var packet := l.packet.value;
    var op := PacketOp(s.nodes, l);
    if IsDml(op) {
      if !ctx.autocommit || op == OpTruncateTable {
        AnalyzeDmlWrap(s, ctx, l, needSeparate, bound);
      } else if ctx.enable2pc {
        var root := s.nodes[packet].children[0];
        FirstChild(s.nodes, packet);
        AnalyzeIsDml(s, ctx, l, needSeparate, bound);
        var leaf := ChainLeafOf(s.nodes, root, bound, packet);
        ChainLeafOfIsLeaf(s.nodes, root, bound, packet, leaf);
        if s.left >= 9 {
          AnalyzeDml2pcSuccess(s, ctx, l, needSeparate, bound, leaf);
        } else {
          AnalyzeDml2pcFailure(s, ctx, l, needSeparate, bound, leaf);
        }
      } else {
        AnalyzeDml1pc(s, ctx, l, needSeparate, bound);
      }
    } else if op in {OpBegin, OpCommit, OpRollback} {
      AnalyzeTxn(s, ctx, l, needSeparate, bound);
      if l.txn.Some? {
        var m1 := s.nodes[s.next := NewFetcher(op)];
        var ps := ProtocolPairs(op, ctx.autocommit, s.nodes[l.txn.value].kind.cmd);
        assert ProtocolOutcome(m1, AnalyzeEffect(s, ctx, l, needSeparate, bound).0.nodes, l.txn.value, ps,
                               ContextRouting(ctx), s.left - 1, AnalyzeEffect(s, ctx, l, needSeparate, bound).1);
      }
    } else if |l.scans| == 0 || (l.joins == [] && |l.scans| > 1) {
      AnalyzeSelectIllegal(s, ctx, l, needSeparate, bound);
    } else if l.joins == [] && |FirstScanRegions(s.nodes, l)| == 1 {
      AnalyzeSingleRegion(s, ctx, l, needSeparate, bound);
    } else if l.joins != [] {
      AnalyzeJoin(s, ctx, l, needSeparate, bound);
    } else if l.agg.Some? {
      AnalyzeAgg(s, ctx, l, needSeparate, bound);
    } else if l.sort.Some? {
      AnalyzeSort(s, ctx, l, needSeparate, bound);
    } else if l.limit.Some? {
      AnalyzeLimit(s, ctx, l, needSeparate, bound);
    } else {
      AnalyzeDefault(s, ctx, l, needSeparate, bound);
    }
  }
}
