/**
 * seperate_for_join: every child of every Join node that is a Scan, or a
 * TABLE_FILTER over a Scan, is moved under a new SELECT Fetcher that takes its
 * place in the Join's child list and carries the Scan's regions; Join children
 * are left alone and any other kind stops the rewrite with -1.
 */
module JoinSeparate {
  import opened Wrappers
  import opened PlanNode
  import opened PlanTree
  import opened PlanArena

  /** What seperate_for_join does with one child of a Join. */
  datatype ChildClass =
    | Nested          // a Join: skipped, the outer loop visits it on its own
    | Illegal         // "illegal plan": the rewrite stops with -1
    | Wrap(scan: int) // a Scan, or a filter over one: wrapped, routed by that Scan

  /**
   * The node-type tests of seperate_for_join on child c. A filter is taken to sit
   * over a Scan; a filter whose first child is missing or is no Scan is classed
   * Illegal, and so is an id that names no node.
   */
  function Classify(m: Nodes, c: int): (r: ChildClass)
    ensures r.Wrap? ==> r.scan in m && m[r.scan].kind.Scan?
    ensures r.Wrap? ==> c in m && (m[c].kind.Scan? || m[c].kind.Filter?)
    ensures r == Nested <==> c in m && m[c].kind.Join?
    ensures c in m && m[c].kind.Scan? ==> r == Wrap(c)
    ensures r == Illegal ==> c !in m || !(m[c].kind.Join? || m[c].kind.Scan?)
  {
    if c !in m then Illegal
    else match m[c].kind
      case Join => Nested
      case Scan(_, _) => Wrap(c)
      case Filter =>
        if |m[c].children| > 0 && m[c].children[0] in m && m[m[c].children[0]].kind.Scan? then Wrap(m[c].children[0])
        else Illegal
      case _ => Illegal
  }

  /** The listed nodes all exist and are Join nodes. */
  ghost predicate JoinsIn(m: Nodes, joins: seq<int>) {
    forall t :: 0 <= t < |joins| ==> joins[t] in m && m[joins[t]].kind.Join?
  }

  /** get_node collects every Join once. */
  ghost predicate Distinct(joins: seq<int>) {
    forall a, b :: 0 <= a < b < |joins| ==> joins[a] != joins[b]
  }

  /** The rewrite changes node kinds only by pointing Scans at their Fetchers. */
  predicate KindKept(k0: Kind, k: Kind) {
    if k0.Scan? then k.Scan? && k.regions == k0.regions else k == k0
  }

  /**
   * From m0 to m, no node was removed, the old nodes kept their kinds (up to a
   * Scan's Fetcher), the old nodes outside js kept their child lists, the old
   * Fetchers were not touched, and the new nodes are Fetchers.
   */
  ghost predicate Kept(m0: Nodes, m: Nodes, js: seq<int>) {
    && (forall x :: x in m0 ==> x in m && KindKept(m0[x].kind, m[x].kind))
    && (forall x :: x in m0 && x !in js ==> m[x].children == m0[x].children)
    && (forall x :: x in m0 && m0[x].kind.Fetcher? ==> m[x] == m0[x])
    && (forall x :: x in m && x !in m0 ==> m[x].kind.Fetcher?)
  }

  /** The Fetcher a wrap creates for a Scan holding regions: SELECT, unbounded, routed by those regions, over c, under j. */
  function JoinFetcher(regions: RegionMap, c: int, j: int): Node {
    Node(Fetcher(OpSelect, Routing(regions, {}), None), -1, NoConfig, [c], Some(j))
  }

  /**
   * The arena after one wrap of child c of Join j over Scan sc with the new
   * Fetcher f: sc points at f, f takes the place of the first occurrence of c in
   * j's list, and c hangs under f.
   */
  function WrapChild(m: Nodes, j: int, c: int, sc: int, f: int): Nodes
    requires j in m && m[j].kind.Join? && c in m && sc in m && m[sc].kind.Scan? && f !in m && j != c
    requires c in m[j].children
  {
    var m1 := m[sc := m[sc].(kind := m[sc].kind.(relatedFetcher := Some(f)))];
    var m2 := m1[j := m[j].(children := m[j].children[IndexOf(m[j].children, c) := f])];
    m2[f := JoinFetcher(m[sc].kind.regions, c, j)][c := m2[c].(parent := Some(f))]
  }

  /** The inner loop of seperate_for_join over the children of j, from position i on, with the loop's success flag. */
  function JoinChildrenEffect(s: ArenaState, j: int, i: nat): (r: (ArenaState, bool))
    requires Fresh(s) && j in s.nodes && s.nodes[j].kind.Join? && i <= |s.nodes[j].children|
    ensures Fresh(r.0)
    decreases |s.nodes[j].children| - i
  {
    if i == |s.nodes[j].children| then (s, true)
    else
      var c := s.nodes[j].children[i];
      match Classify(s.nodes, c)
      case Nested => JoinChildrenEffect(s, j, i + 1)
      case Illegal => (s, false)
      case Wrap(sc) =>
        WrapKept(s.nodes, j, c, sc, s.next);
        JoinChildrenEffect(ArenaState(WrapChild(s.nodes, j, c, sc, s.next), s.next + 1, s.left), j, i + 1)
  }

  /** After the inner loop over join k: stop with -1 on an illegal child, else go on with the next Join. */
  function JoinsRest(p: (ArenaState, bool), joins: seq<int>, k: nat): (r: (ArenaState, int))
    requires Fresh(p.0) && k < |joins| && JoinsIn(p.0.nodes, joins)
    ensures Fresh(r.0) && (r.1 == 0 || r.1 == -1)
    decreases |joins| - k, 0
  {
    if !p.1 then (p.0, -1) else JoinsEffect(p.0, joins, k + 1)
  }

  /** seperate_for_join over the Joins from position k on, with its return code. */
  function JoinsEffect(s: ArenaState, joins: seq<int>, k: nat): (r: (ArenaState, int))
    requires Fresh(s) && k <= |joins| && JoinsIn(s.nodes, joins)
    ensures Fresh(r.0) && (r.1 == 0 || r.1 == -1)
    decreases |joins| - k, 1
  {
    if k == |joins| then (s, 0)
    else
      var p := JoinChildrenEffect(s, joins[k], 0);
      JoinChildrenJoinsIn(s, joins[k], 0, joins);
      JoinsRest(p, joins, k)
  }

  /** seperate_for_join, in place; joins is the list get_node(JOIN_NODE) collected. */
  method SeperateForJoin(a: Arena, joins: seq<int>) returns (r: int)
    requires a.Valid() && JoinsIn(a.nodes, joins)
    modifies a
    ensures a.Valid()
    ensures (a.State(), r) == JoinsEffect(old(a.State()), joins, 0)
  {
    ghost var s0 := a.State();
    var k := 0;
    while k < |joins|
      invariant k <= |joins| && a.Valid() && JoinsIn(a.nodes, joins)
      invariant JoinsEffect(s0, joins, 0) == JoinsEffect(a.State(), joins, k)
    {
      var j := joins[k];
      var i := 0;
      JoinChildrenJoinsIn(a.State(), j, 0, joins);
      while i < |a.nodes[j].children|
        invariant a.Valid() && JoinsIn(a.nodes, joins) && i <= |a.nodes[j].children|
        invariant JoinsIn(JoinChildrenEffect(a.State(), j, i).0.nodes, joins)
        invariant JoinsEffect(s0, joins, 0) == JoinsRest(JoinChildrenEffect(a.State(), j, i), joins, k)
        decreases |a.nodes[j].children| - i
      {
        var child := a.nodes[j].children[i];
        match Classify(a.nodes, child) {
          case Nested =>
            NestedStep(a.State(), j, i);
          case Illegal =>
            return -1;
          case Wrap(sc) =>
            ghost var before := a.State();
            WrapJoinChild(a, j, child, sc);
            WrapStep(before, j, i, sc, a.State(), joins);
        }
        i := i + 1;
      }
      k := k + 1;
    }
    return 0;
  }

  /** The body of the inner loop for a child c to wrap, in place. */
  method WrapJoinChild(a: Arena, j: int, c: int, sc: int)
    requires a.Valid() && j in a.nodes && a.nodes[j].kind.Join? && c in a.nodes && sc in a.nodes && a.nodes[sc].kind.Scan?
    requires j != c && c in a.nodes[j].children
    modifies a
    ensures a.Valid()
    ensures a.State() == ArenaState(WrapChild(old(a.nodes), j, c, sc, old(a.nextId)), old(a.nextId) + 1, old(a.allocLeft))
  {
    ghost var m0 := a.nodes;
    var f := a.Alloc(NewFetcher(OpSelect));
    a.nodes := a.nodes[sc := a.nodes[sc].(kind := a.nodes[sc].kind.(relatedFetcher := Some(f)))];
    a.nodes := SetRegions(a.nodes, f, a.nodes[sc].kind.regions);
    a.nodes := ReplaceChild(a.nodes, j, c, f);
    a.nodes := AddChild(a.nodes, f, c);
    WrapInSteps(m0, j, c, sc, f);
  }

  /** The four updates of the inner loop's body, one after the other, make one wrap. */
  lemma WrapInSteps(m: Nodes, j: int, c: int, sc: int, f: int)
    requires j in m && m[j].kind.Join? && c in m && sc in m && m[sc].kind.Scan? && f !in m && j != c
    requires c in m[j].children
    ensures var m1 := m[f := NewFetcher(OpSelect)];
      var m2 := m1[sc := m1[sc].(kind := m1[sc].kind.(relatedFetcher := Some(f)))];
      var m3 := SetRegions(m2, f, m2[sc].kind.regions);
      AddChild(ReplaceChild(m3, j, c, f), f, c) == WrapChild(m, j, c, sc, f)
  {
    var m1 := m[f := NewFetcher(OpSelect)];
    var m2 := m1[sc := m1[sc].(kind := m1[sc].kind.(relatedFetcher := Some(f)))];
    var m3 := SetRegions(m2, f, m2[sc].kind.regions);
    assert m3[j] == m[j];
    var m4 := ReplaceChild(m3, j, c, f);
    var m5 := AddChild(m4, f, c);
    var w := WrapChild(m, j, c, sc, f);
    assert m5[f] == w[f];
    assert m5[j] == w[j];
    assert m5[c] == w[c];
    forall k | k in m && k != j && k != c
      ensures m5[k] == w[k]
    {
      assert m5[k] == m4[k];
    }
    assert m5 == w;
  }

  /** One wrap keeps kinds (up to the Scan's back-reference), touches only j's child list among old nodes, and adds one Fetcher. */
  lemma WrapKept(m: Nodes, j: int, c: int, sc: int, f: int)
    requires j in m && m[j].kind.Join? && c in m && sc in m && m[sc].kind.Scan? && f !in m && j != c
    requires c in m[j].children && (m[c].kind.Scan? || m[c].kind.Filter?)
    ensures |WrapChild(m, j, c, sc, f)[j].children| == |m[j].children|
    ensures WrapChild(m, j, c, sc, f).Keys == m.Keys + {f}
    ensures Kept(m, WrapChild(m, j, c, sc, f), [j])
  {
  }

  /** Kept composes. */
  lemma KeptTrans(m0: Nodes, m1: Nodes, m2: Nodes, js1: seq<int>, js2: seq<int>)
    requires Kept(m0, m1, js1) && Kept(m1, m2, js2)
    ensures Kept(m0, m2, js1 + js2)
  {
  }

  /** Kept keeps the Joins. */
  lemma KeptJoinsIn(m0: Nodes, m: Nodes, js: seq<int>, joins: seq<int>)
    requires Kept(m0, m, js) && JoinsIn(m0, joins)
    ensures JoinsIn(m, joins)
  {
    forall t | 0 <= t < |joins| ensures joins[t] in m && m[joins[t]].kind.Join? {
      var x := joins[t];
      assert x in m0 && m0[x].kind.Join?;
      assert x in m && KindKept(m0[x].kind, m[x].kind);
    }
  }

  /** The inner loop keeps kinds, changes only j's child list among old nodes, and adds only Fetchers. */
  lemma {:induction false} JoinChildrenKept(s: ArenaState, j: int, i: nat)
    requires Fresh(s) && j in s.nodes && s.nodes[j].kind.Join? && i <= |s.nodes[j].children|
    ensures Kept(s.nodes, JoinChildrenEffect(s, j, i).0.nodes, [j])
    decreases |s.nodes[j].children| - i
  {
    if i == |s.nodes[j].children| || Classify(s.nodes, s.nodes[j].children[i]) == Illegal {
      KeptRefl(s.nodes, [j]);
    } else {
      KeptStep(s, j, i);
      var s1 := NextState(s, j, i);
      JoinChildrenKept(s1, j, i + 1);
      KeptTrans(s.nodes, s1.nodes, JoinChildrenEffect(s1, j, i + 1).0.nodes, [j], [j]);
    }
  }

  /** One step of the inner loop past a legal child keeps kinds and the length of j's list. */
  lemma KeptStep(s: ArenaState, j: int, i: nat)
    requires Fresh(s) && j in s.nodes && s.nodes[j].kind.Join? && i < |s.nodes[j].children|
    requires Classify(s.nodes, s.nodes[j].children[i]) != Illegal
    ensures Fresh(NextState(s, j, i)) && j in NextState(s, j, i).nodes && NextState(s, j, i).nodes[j].kind.Join?
    ensures |NextState(s, j, i).nodes[j].children| == |s.nodes[j].children|
    ensures Kept(s.nodes, NextState(s, j, i).nodes, [j])
    ensures JoinChildrenEffect(s, j, i) == JoinChildrenEffect(NextState(s, j, i), j, i + 1)
  {
    var c := s.nodes[j].children[i];
    match Classify(s.nodes, c)
    case Nested =>
      KeptRefl(s.nodes, [j]);
    case Wrap(sc) =>
      WrapKept(s.nodes, j, c, sc, s.next);
  }

  /** A Join child is skipped. */
  lemma NestedStep(s: ArenaState, j: int, i: nat)
    requires Fresh(s) && j in s.nodes && s.nodes[j].kind.Join? && i < |s.nodes[j].children|
    requires Classify(s.nodes, s.nodes[j].children[i]) == Nested
    ensures JoinChildrenEffect(s, j, i) == JoinChildrenEffect(s, j, i + 1)
  {
  }

  /** A wrapped child: the loop goes on from the state after the wrap, over a child list of the same length. */
  lemma WrapStep(s: ArenaState, j: int, i: nat, sc: int, s1: ArenaState, joins: seq<int>)
    requires Fresh(s) && j in s.nodes && s.nodes[j].kind.Join? && i < |s.nodes[j].children|
    requires Classify(s.nodes, s.nodes[j].children[i]) == Wrap(sc)
    requires s1 == ArenaState(WrapChild(s.nodes, j, s.nodes[j].children[i], sc, s.next), s.next + 1, s.left)
    requires JoinsIn(s.nodes, joins)
    ensures Fresh(s1) && j in s1.nodes && s1.nodes[j].kind.Join?
    ensures |s1.nodes[j].children| == |s.nodes[j].children|
    ensures JoinChildrenEffect(s, j, i) == JoinChildrenEffect(s1, j, i + 1)
    ensures JoinsIn(s1.nodes, joins)
  {
    WrapKept(s.nodes, j, s.nodes[j].children[i], sc, s.next);
    KeptJoinsIn(s.nodes, s1.nodes, [j], joins);
  }

  /** The rewrite does not change how a node is classed. */
  lemma ClassifyKept(m0: Nodes, m: Nodes, js: seq<int>, c: int)
    requires Kept(m0, m, js) && JoinsIn(m0, js)
    ensures Classify(m, c) == Classify(m0, c)
  {
    if c in m0 && m0[c].kind.Filter? {
      assert c !in js by {
        if c in js {
          assert false;
        }
      }
      assert m[c].children == m0[c].children;
      if |m0[c].children| > 0 {
        var y := m0[c].children[0];
        if y in m0 {
          assert y in m && KindKept(m0[y].kind, m[y].kind);
        }
      }
    }
  }

  /** The inner loop keeps the Joins. */
  lemma JoinChildrenJoinsIn(s: ArenaState, j: int, i: nat, joins: seq<int>)
    requires Fresh(s) && j in s.nodes && s.nodes[j].kind.Join? && i <= |s.nodes[j].children|
    requires JoinsIn(s.nodes, joins)
    ensures JoinsIn(JoinChildrenEffect(s, j, i).0.nodes, joins)
  {
    JoinChildrenKept(s, j, i);
    KeptJoinsIn(s.nodes, JoinChildrenEffect(s, j, i).0.nodes, [j], joins);
  }

  /** Kept holds of an unchanged arena. */
  lemma KeptRefl(m: Nodes, js: seq<int>)
    ensures Kept(m, m, js)
  {
  }

  // ----- What the rewrite achieves -----

  /** Every child of Join j is one seperate_for_join can handle. */
  ghost predicate JoinLegal(m: Nodes, j: int)
    requires j in m
  {
    forall p :: 0 <= p < |m[j].children| ==> Classify(m, m[j].children[p]) != Illegal
  }

  /**
   * Child c0 of Join j in m0 is now c in m: a Join stays where it was; anything
   * else is a new SELECT Fetcher over c0, under j, routed by the Scan's regions.
   */
  ghost predicate ChildRewritten(m0: Nodes, m: Nodes, j: int, c0: int, c: int) {
    match Classify(m0, c0)
    case Nested => c == c0
    case Illegal => false
    case Wrap(sc) => c !in m0 && c in m && m[c] == JoinFetcher(m0[sc].kind.regions, c0, j)
  }

  /** Join j of m0 has in m a child list of the same length, each child rewritten at its own position. */
  ghost predicate Rewritten(m0: Nodes, m: Nodes, j: int) {
    && j in m0 && j in m && |m[j].children| == |m0[j].children|
    && forall p :: 0 <= p < |m0[j].children| ==> ChildRewritten(m0, m, j, m0[j].children[p], m[j].children[p])
  }

  /** The inner loop's invariant relative to the arena m0 it started from: positions below i rewritten, the others untouched. */
  ghost predicate InnerInv(m0: Nodes, m: Nodes, j: int, i: nat) {
    && j in m0 && m0[j].kind.Join? && Kept(m0, m, [j]) && j in m
    && |m[j].children| == |m0[j].children| && i <= |m0[j].children|
    && (forall p :: i <= p < |m0[j].children| ==> m[j].children[p] == m0[j].children[p])
    && (forall p :: 0 <= p < i ==> ChildRewritten(m0, m, j, m0[j].children[p], m[j].children[p]))
  }

  lemma InnerInvStart(m: Nodes, j: int)
    requires j in m && m[j].kind.Join?
    ensures InnerInv(m, m, j, 0)
  {
    KeptRefl(m, [j]);
  }

  /** A child to wrap at position i occurs nowhere before i: the earlier positions hold Joins and Fetchers. */
  lemma FirstAt(m0: Nodes, m: Nodes, j: int, i: nat)
    requires InnerInv(m0, m, j, i) && i < |m0[j].children|
    requires Classify(m, m[j].children[i]).Wrap?
    ensures IndexOf(m[j].children, m[j].children[i]) == i
  {
    var s := m[j].children;
    ClassifyKept(m0, m, [j], s[i]);
    forall p | 0 <= p < i
      ensures s[p] != s[i]
    {
      assert ChildRewritten(m0, m, j, m0[j].children[p], s[p]);
      if Classify(m0, m0[j].children[p]) == Nested {
        assert s[p] in m0 && KindKept(m0[s[p]].kind, m[s[p]].kind);
      }
    }
    IndexOfFirst(s, i);
  }

  /** Skipping a Join child keeps the invariant. */
  lemma NestedInv(m0: Nodes, m: Nodes, j: int, i: nat)
    requires InnerInv(m0, m, j, i) && i < |m0[j].children|
    requires Classify(m, m[j].children[i]) == Nested
    ensures InnerInv(m0, m, j, i + 1)
  {
    ClassifyKept(m0, m, [j], m[j].children[i]);
  }

  /** Wrapping the child at position i keeps the invariant. */
  lemma WrapInv(m0: Nodes, m: Nodes, j: int, i: nat, sc: int, f: int)
    requires InnerInv(m0, m, j, i) && i < |m0[j].children| && f !in m
    requires Classify(m, m[j].children[i]) == Wrap(sc)
    ensures InnerInv(m0, WrapChild(m, j, m[j].children[i], sc, f), j, i + 1)
  {
    var c := m[j].children[i];
    ClassifyKept(m0, m, [j], c);
    FirstAt(m0, m, j, i);
    var w := WrapChild(m, j, c, sc, f);
    WrapKept(m, j, c, sc, f);
    KeptTrans(m0, m, w, [j], [j]);
    assert w[j].children == m[j].children[i := f];
    assert sc in m0 && KindKept(m0[sc].kind, m[sc].kind);
    assert ChildRewritten(m0, w, j, m0[j].children[i], w[j].children[i]);
    forall p | 0 <= p < i
      ensures ChildRewritten(m0, w, j, m0[j].children[p], w[j].children[p])
    {
      assert ChildRewritten(m0, m, j, m0[j].children[p], m[j].children[p]);
      assert w[j].children[p] == m[j].children[p];
    }
  }

  /**
   * The inner loop from position i succeeds exactly when no child from i on is
   * Illegal, and then every child of j is rewritten.
   */
  lemma InnerRun(m0: Nodes, s: ArenaState, j: int, i: nat)
    requires Fresh(s) && InnerInv(m0, s.nodes, j, i)
    ensures JoinChildrenEffect(s, j, i).1 <==>
      forall p :: i <= p < |m0[j].children| ==> Classify(m0, m0[j].children[p]) != Illegal
    ensures JoinChildrenEffect(s, j, i).1 ==> InnerInv(m0, JoinChildrenEffect(s, j, i).0.nodes, j, |m0[j].children|)
  {
    InnerRunOk(m0, s, j, i);
    InnerRunInv(m0, s, j, i);
  }

  /** The arena after the inner loop's step at position i, for a child that is not Illegal. */
  function NextState(s: ArenaState, j: int, i: nat): ArenaState
    requires Fresh(s) && j in s.nodes && s.nodes[j].kind.Join? && i < |s.nodes[j].children|
  {
    var c := s.nodes[j].children[i];
    match Classify(s.nodes, c)
    case Wrap(sc) =>
      WrapKept(s.nodes, j, c, sc, s.next);
      ArenaState(WrapChild(s.nodes, j, c, sc, s.next), s.next + 1, s.left)
    case _ => s
  }

  /** The inner loop's step at position i, seen from the arena m0 the loop started from. */
  lemma InnerStep(m0: Nodes, s: ArenaState, j: int, i: nat)
    requires Fresh(s) && InnerInv(m0, s.nodes, j, i) && i < |m0[j].children|
    ensures Classify(s.nodes, s.nodes[j].children[i]) == Classify(m0, m0[j].children[i])
    ensures Classify(m0, m0[j].children[i]) == Illegal ==> !JoinChildrenEffect(s, j, i).1
    ensures Classify(m0, m0[j].children[i]) != Illegal ==>
      && Fresh(NextState(s, j, i)) && InnerInv(m0, NextState(s, j, i).nodes, j, i + 1)
      && JoinChildrenEffect(s, j, i) == JoinChildrenEffect(NextState(s, j, i), j, i + 1)
  {
    var c := s.nodes[j].children[i];
    ClassifyKept(m0, s.nodes, [j], c);
    match Classify(s.nodes, c)
    case Nested =>
      NestedInv(m0, s.nodes, j, i);
      NestedStep(s, j, i);
    case Illegal =>
    case Wrap(sc) =>
      InnerWrap(m0, s, j, i, sc);
  }

  /** The inner loop from position i succeeds exactly when no child from i on is Illegal. */
  lemma {:induction false} InnerRunOk(m0: Nodes, s: ArenaState, j: int, i: nat)
    requires Fresh(s) && InnerInv(m0, s.nodes, j, i)
    ensures JoinChildrenEffect(s, j, i).1 <==>
      forall p :: i <= p < |m0[j].children| ==> Classify(m0, m0[j].children[p]) != Illegal
    decreases |m0[j].children| - i
  {
    if i < |m0[j].children| {
      InnerStep(m0, s, j, i);
      if Classify(m0, m0[j].children[i]) != Illegal {
        InnerRunOk(m0, NextState(s, j, i), j, i + 1);
      }
    }
  }

  /** When the inner loop from position i succeeds, every child of j is rewritten. */
  lemma {:induction false} InnerRunInv(m0: Nodes, s: ArenaState, j: int, i: nat)
    requires Fresh(s) && InnerInv(m0, s.nodes, j, i)
    ensures JoinChildrenEffect(s, j, i).1 ==> InnerInv(m0, JoinChildrenEffect(s, j, i).0.nodes, j, |m0[j].children|)
    decreases |m0[j].children| - i
  {
    if i < |m0[j].children| {
      InnerStep(m0, s, j, i);
      if Classify(m0, m0[j].children[i]) != Illegal {
        InnerRunInv(m0, NextState(s, j, i), j, i + 1);
      }
    }
  }

  /** One wrap of the inner loop, seen from the arena m0 the loop started from. */
  lemma InnerWrap(m0: Nodes, s: ArenaState, j: int, i: nat, sc: int)
    requires Fresh(s) && InnerInv(m0, s.nodes, j, i) && i < |m0[j].children|
    requires Classify(s.nodes, s.nodes[j].children[i]) == Wrap(sc)
    ensures var s1 := ArenaState(WrapChild(s.nodes, j, s.nodes[j].children[i], sc, s.next), s.next + 1, s.left);
      && Fresh(s1) && InnerInv(m0, s1.nodes, j, i + 1)
      && JoinChildrenEffect(s, j, i) == JoinChildrenEffect(s1, j, i + 1)
  {
    WrapInv(m0, s.nodes, j, i, sc, s.next);
    var s1 := ArenaState(WrapChild(s.nodes, j, s.nodes[j].children[i], sc, s.next), s.next + 1, s.left);
    WrapStep(s, j, i, sc, s1, [j]);
  }

  /** Rewritten is unaffected by a later rewrite of other Joins. */
  lemma RewrittenKept(m0: Nodes, m1: Nodes, m2: Nodes, j: int, js: seq<int>)
    requires Rewritten(m0, m1, j) && Kept(m1, m2, js) && j !in js
    ensures Rewritten(m0, m2, j)
  {
    forall p | 0 <= p < |m0[j].children|
      ensures ChildRewritten(m0, m2, j, m0[j].children[p], m2[j].children[p])
    {
      assert ChildRewritten(m0, m1, j, m0[j].children[p], m1[j].children[p]);
    }
  }

  /** Rewritten relative to a state reached by rewriting other Joins is Rewritten relative to the start. */
  lemma RewrittenFrom(m0: Nodes, s: Nodes, m: Nodes, j: int, js: seq<int>)
    requires Rewritten(s, m, j) && Kept(m0, s, js) && JoinsIn(m0, js)
    requires j in m0 && s[j].children == m0[j].children
    ensures Rewritten(m0, m, j)
  {
    forall p | 0 <= p < |m0[j].children|
      ensures ChildRewritten(m0, m, j, m0[j].children[p], m[j].children[p])
    {
      var c0 := m0[j].children[p];
      ClassifyKept(m0, s, js, c0);
      assert ChildRewritten(s, m, j, c0, m[j].children[p]);
      if Classify(m0, c0).Wrap? {
        var sc := Classify(m0, c0).scan;
        assert KindKept(m0[sc].kind, s[sc].kind);
      }
    }
  }

  /** A prefix of a list of Joins is a list of Joins. */
  lemma JoinsInPrefix(m: Nodes, joins: seq<int>, k: nat)
    requires JoinsIn(m, joins) && k <= |joins|
    ensures JoinsIn(m, joins[..k])
  {
    forall t | 0 <= t < k ensures joins[..k][t] in m && m[joins[..k][t]].kind.Join? {
      assert joins[..k][t] == joins[t];
    }
  }

  /** The outer loop from Join k on, relative to the arena m0 the pass started from. */
  lemma {:induction false} JoinsRun(m0: Nodes, s: ArenaState, joins: seq<int>, k: nat)
    requires Fresh(s) && k <= |joins| && JoinsIn(m0, joins) && JoinsIn(s.nodes, joins) && Distinct(joins)
    requires Kept(m0, s.nodes, joins[..k])
    requires forall t :: k <= t < |joins| ==> s.nodes[joins[t]].children == m0[joins[t]].children
    requires forall t :: 0 <= t < k ==> Rewritten(m0, s.nodes, joins[t])
    ensures JoinsEffect(s, joins, k).1 == 0 <==> forall t :: k <= t < |joins| ==> JoinLegal(m0, joins[t])
    ensures JoinsEffect(s, joins, k).1 == 0 ==>
      forall t :: 0 <= t < |joins| ==> Rewritten(m0, JoinsEffect(s, joins, k).0.nodes, joins[t])
    decreases |joins| - k
  {
    if k < |joins| {
      var j := joins[k];
      var p := JoinChildrenEffect(s, j, 0);
      InnerInvStart(s.nodes, j);
      InnerRun(s.nodes, s, j, 0);
      JoinsInPrefix(m0, joins, k);
      forall q | 0 <= q < |m0[j].children|
        ensures Classify(s.nodes, s.nodes[j].children[q]) == Classify(m0, m0[j].children[q])
      {
        ClassifyKept(m0, s.nodes, joins[..k], m0[j].children[q]);
      }
      assert p.1 <==> JoinLegal(m0, j);
      if p.1 {
        JoinChildrenJoinsIn(s, j, 0, joins);
        var m1 := p.0.nodes;
        assert Kept(s.nodes, m1, [j]);
        RewrittenFrom(m0, s.nodes, m1, j, joins[..k]);
        KeptTrans(m0, s.nodes, m1, joins[..k], [j]);
        assert joins[..k] + [j] == joins[..k + 1];
        forall t | 0 <= t < k + 1 ensures Rewritten(m0, m1, joins[t]) {
          if t < k {
            RewrittenKept(m0, s.nodes, m1, joins[t], [j]);
          }
        }
        forall t | k + 1 <= t < |joins| ensures m1[joins[t]].children == m0[joins[t]].children {
          assert joins[t] !in [j];
        }
        JoinsRun(m0, p.0, joins, k + 1);
      }
    }
  }

  /**
   * seperate_for_join returns 0 exactly when every child of every Join is a
   * Join, a Scan or a filter over a Scan, and -1 otherwise; on 0 every Join keeps
   * its child count, its Join children stay in place, and every other child is
   * replaced, at the same position, by a new SELECT Fetcher whose only child is
   * the original child and whose regions are those of the Scan. Either way the
   * other old nodes are left as JoinsFramed says.
   */
  lemma JoinsSeparated(s: ArenaState, joins: seq<int>)
    requires Fresh(s) && JoinsIn(s.nodes, joins) && Distinct(joins)
    ensures JoinsEffect(s, joins, 0).1 == (if forall t :: 0 <= t < |joins| ==> JoinLegal(s.nodes, joins[t]) then 0 else -1)
    ensures JoinsEffect(s, joins, 0).1 == 0 ==>
      forall t :: 0 <= t < |joins| ==> Rewritten(s.nodes, JoinsEffect(s, joins, 0).0.nodes, joins[t])
    ensures Kept(s.nodes, JoinsEffect(s, joins, 0).0.nodes, joins) && Framed(s.nodes, JoinsEffect(s, joins, 0).0.nodes)
  {
    JoinsFramed(s, joins, 0);
    assert joins[..0] == [];
    KeptRefl(s.nodes, []);
    JoinsRun(s.nodes, s, joins, 0);
  }

  // ----- The rewrite keeps the arena WellFormed -----

  /** The Fetcher of a wrap before it is linked. */
  function LoneFetcher(m: Nodes, j: int, c: int, sc: int): Node
    requires sc in m && m[sc].kind.Scan?
  {
    JoinFetcher(m[sc].kind.regions, c, j).(children := [], parent := None)
  }

  /** The arena of a wrap before f is linked in: f inserted alone, and sc pointing at it. */
  function Retagged(m: Nodes, j: int, c: int, sc: int, f: int): Nodes
    requires sc in m && m[sc].kind.Scan?
  {
    var m1 := m[f := LoneFetcher(m, j, c, sc)];
    m1[sc := m1[sc].(kind := m[sc].kind.(relatedFetcher := Some(f)))]
  }

  /** One wrap keeps the arena well formed. */
  lemma WrapChildKeepsWellFormed(m: Nodes, j: int, c: int, sc: int, f: int)
    requires WellFormed(m)
    requires j in m && m[j].kind.Join? && c in m && sc in m && m[sc].kind.Scan? && f !in m && j != c
    requires c in m[j].children
    ensures WellFormed(WrapChild(m, j, c, sc, f))
  {
    var m2 := Retagged(m, j, c, sc, f);
    RetaggedKeepsWellFormed(m, j, c, sc, f);
    var i := IndexOf(m[j].children, c);
    ReplaceWithUnlisted(m2, j, i, f);
    AddUnlistedKeepsWellFormed(Replaced(m2, j, i, f), f, c);
    WrapChildSteps(m, j, c, sc, f);
  }

  /** Inserting the lone Fetcher and pointing sc at it keeps the arena well formed, with f listed by nobody. */
  lemma RetaggedKeepsWellFormed(m: Nodes, j: int, c: int, sc: int, f: int)
    requires WellFormed(m) && j in m && m[j].kind.Join? && sc in m && m[sc].kind.Scan? && f !in m
    requires c in m[j].children
    ensures WellFormed(Retagged(m, j, c, sc, f)) && Unlisted(Retagged(m, j, c, sc, f), f)
    ensures j in Retagged(m, j, c, sc, f) && f in Retagged(m, j, c, sc, f) && j != f
    ensures Retagged(m, j, c, sc, f)[j] == m[j]
  {
    var m1 := m[f := LoneFetcher(m, j, c, sc)];
    InsertDetached(m, f, LoneFetcher(m, j, c, sc));
    RetagKeepsWellFormed(m1, sc, m[sc].kind.(relatedFetcher := Some(f)));
  }

  /** A wrap is the lone Fetcher's insertion, the retag of sc, the replacement of c by f under j, and f's adoption of c. */
  lemma WrapChildSteps(m: Nodes, j: int, c: int, sc: int, f: int)
    requires j in m && m[j].kind.Join? && c in m && sc in m && m[sc].kind.Scan? && f !in m && j != c
    requires c in m[j].children
    ensures var m2 := Retagged(m, j, c, sc, f);
      var i := IndexOf(m[j].children, c);
      && j in m2 && f in m2 && c in m2 && j != f && m2[j] == m[j] && c != f
      && AddChild(Replaced(m2, j, i, f), f, c) == WrapChild(m, j, c, sc, f)
  {
    var m2 := Retagged(m, j, c, sc, f);
    var i := IndexOf(m[j].children, c);
    var m3 := Replaced(m2, j, i, f);
    var m4 := AddChild(m3, f, c);
    var w := WrapChild(m, j, c, sc, f);
    assert m4[f] == w[f];
    assert m4[j] == w[j];
    assert m4[c] == w[c];
    assert m4[sc] == w[sc];
    forall x | x in m && x != j && x != c && x != sc
      ensures m4[x] == w[x]
    {
      assert m4[x] == m3[x];
    }
    assert m4 == w;
  }

  /** The wrap of the inner loop's child at position i keeps the arena well formed. */
  lemma WrapStepKeepsWellFormed(s: ArenaState, j: int, i: nat, sc: int)
    requires Fresh(s) && WellFormed(s.nodes) && j in s.nodes && s.nodes[j].kind.Join? && i < |s.nodes[j].children|
    requires Classify(s.nodes, s.nodes[j].children[i]) == Wrap(sc)
    ensures WellFormed(WrapChild(s.nodes, j, s.nodes[j].children[i], sc, s.next))
  {
    var c := s.nodes[j].children[i];
    assert c in s.nodes[j].children;
    WrapChildKeepsWellFormed(s.nodes, j, c, sc, s.next);
  }

  /** The inner loop keeps the arena well formed. */
  lemma {:induction false} JoinChildrenKeepWellFormed(s: ArenaState, j: int, i: nat)
    requires Fresh(s) && WellFormed(s.nodes) && j in s.nodes && s.nodes[j].kind.Join? && i <= |s.nodes[j].children|
    ensures WellFormed(JoinChildrenEffect(s, j, i).0.nodes)
    decreases |s.nodes[j].children| - i
  {
    if i < |s.nodes[j].children| {
      var c := s.nodes[j].children[i];
      match Classify(s.nodes, c)
      case Nested =>
        JoinChildrenKeepWellFormed(s, j, i + 1);
      case Illegal =>
      case Wrap(sc) =>
        var s1 := ArenaState(WrapChild(s.nodes, j, c, sc, s.next), s.next + 1, s.left);
        WrapStep(s, j, i, sc, s1, []);
        WrapStepKeepsWellFormed(s, j, i, sc);
        JoinChildrenKeepWellFormed(s1, j, i + 1);
    }
  }

  /** seperate_for_join keeps the arena well formed, whether it finishes or stops at an illegal child. */
  lemma {:induction false} JoinsKeepWellFormed(s: ArenaState, joins: seq<int>, k: nat)
    requires Fresh(s) && WellFormed(s.nodes) && k <= |joins| && JoinsIn(s.nodes, joins)
    ensures WellFormed(JoinsEffect(s, joins, k).0.nodes)
    decreases |joins| - k
  {
    if k < |joins| {
      var p := JoinChildrenEffect(s, joins[k], 0);
      JoinChildrenKeepWellFormed(s, joins[k], 0);
      JoinChildrenJoinsIn(s, joins[k], 0, joins);
      if p.1 {
        JoinsKeepWellFormed(p.0, joins, k + 1);
      }
    }
  }

  // ----- Each wrapped Scan points at its Fetcher -----

  /** Fetcher x holds a child whose Scan names x as its related Fetcher. */
  ghost predicate PointedAt(m: Nodes, x: int)
    requires x in m
  {
    && m[x].kind.Fetcher? && |m[x].children| > 0
    && match Classify(m, m[x].children[0])
       case Wrap(sc) => m[sc].kind.relatedFetcher == Some(x)
       case _ => false
  }

  /** Every node of m that m0 lacks is a Fetcher its Scan points at. */
  ghost predicate Pointed(m0: Nodes, m: Nodes) {
    forall x :: x in m && x !in m0 ==> PointedAt(m, x)
  }

  /** Child c0 of a Join in m0, now c in m: when c0 was wrapped, its Scan names c as its related Fetcher. */
  ghost predicate ScanPointed(m0: Nodes, m: Nodes, c0: int, c: int) {
    match Classify(m0, c0)
    case Wrap(sc) => sc in m && m[sc].kind.Scan? && m[sc].kind.relatedFetcher == Some(c)
    case _ => true
  }

  /** Every wrapped child of Join j of m0 has its Scan pointing at the Fetcher now in its place in m. */
  ghost predicate ScansPointed(m0: Nodes, m: Nodes, j: int)
    requires j in m0 && j in m
  {
    forall p :: 0 <= p < |m0[j].children| && p < |m[j].children| ==>
      ScanPointed(m0, m, m0[j].children[p], m[j].children[p])
  }

  /** What seperate_for_join leaves at Join j: every child rewritten, every wrapped Scan pointing at its Fetcher. */
  ghost predicate Separated(m0: Nodes, m: Nodes, j: int) {
    Rewritten(m0, m, j) && ScansPointed(m0, m, j)
  }

  /** In a well-formed arena, two children classed Wrap, one under Join j and one under Fetcher x, have different Scans. */
  lemma ScansApart(m: Nodes, j: int, c: int, sc: int, x: int, scx: int)
    requires WellFormed(m) && j in m && m[j].kind.Join? && c in m[j].children && Classify(m, c) == Wrap(sc)
    requires x in m && m[x].kind.Fetcher? && |m[x].children| > 0 && Classify(m, m[x].children[0]) == Wrap(scx)
    ensures sc != scx
  {
    var cx := m[x].children[0];
    assert cx in m[x].children;
    assert m[c].parent == Some(j) && m[cx].parent == Some(x);
    if m[c].kind.Filter? {
      assert m[c].children[0] in m[c].children;
    }
    if m[cx].kind.Filter? {
      assert m[cx].children[0] in m[cx].children;
    }
  }

  /** A wrap keeps every earlier Fetcher pointed at. */
  lemma PointedKept(m: Nodes, j: int, c: int, sc: int, f: int, x: int)
    requires WellFormed(m) && j in m && m[j].kind.Join? && c in m[j].children && j != c
    requires Classify(m, c) == Wrap(sc) && f !in m && x in m && PointedAt(m, x)
    ensures x in WrapChild(m, j, c, sc, f) && PointedAt(WrapChild(m, j, c, sc, f), x)
  {
    var w := WrapChild(m, j, c, sc, f);
    WrapKept(m, j, c, sc, f);
    assert w[x] == m[x];
    var cx := m[x].children[0];
    ClassifyKept(m, w, [j], cx);
    var scx := Classify(m, cx).scan;
    ScansApart(m, j, c, sc, x, scx);
    assert w[scx].kind == m[scx].kind;
  }

  /** A wrap points the new Fetcher's Scan at it and keeps the earlier Fetchers pointed at. */
  lemma PointedWrap(m0: Nodes, m: Nodes, j: int, c: int, sc: int, f: int)
    requires WellFormed(m) && j in m && m[j].kind.Join? && c in m[j].children && j != c
    requires Classify(m, c) == Wrap(sc) && f !in m && Pointed(m0, m)
    ensures Pointed(m0, WrapChild(m, j, c, sc, f))
  {
    var w := WrapChild(m, j, c, sc, f);
    WrapKept(m, j, c, sc, f);
    ClassifyKept(m, w, [j], c);
    assert w[f].children[0] == c && w[sc].kind.relatedFetcher == Some(f);
    assert PointedAt(w, f);
    forall x | x in w && x !in m0 ensures PointedAt(w, x) {
      if x != f {
        PointedKept(m, j, c, sc, f, x);
      }
    }
  }

  /** The inner loop's step past a legal child keeps the arena well formed and every new Fetcher pointed at. */
  lemma PointedStep(m0: Nodes, s: ArenaState, j: int, i: nat)
    requires Fresh(s) && WellFormed(s.nodes) && j in s.nodes && s.nodes[j].kind.Join? && i < |s.nodes[j].children|
    requires Pointed(m0, s.nodes)
    ensures WellFormed(NextState(s, j, i).nodes) && Pointed(m0, NextState(s, j, i).nodes)
  {
    var c := s.nodes[j].children[i];
    match Classify(s.nodes, c)
    case Wrap(sc) =>
      assert c in s.nodes[j].children;
      WrapStepKeepsWellFormed(s, j, i, sc);
      PointedWrap(m0, s.nodes, j, c, sc, s.next);
    case _ =>
  }

  /** The inner loop keeps every new Fetcher pointed at. */
  lemma {:induction false} InnerPointed(m0: Nodes, s: ArenaState, j: int, i: nat)
    requires Fresh(s) && WellFormed(s.nodes) && j in s.nodes && s.nodes[j].kind.Join? && i <= |s.nodes[j].children|
    requires Pointed(m0, s.nodes)
    ensures Pointed(m0, JoinChildrenEffect(s, j, i).0.nodes)
    decreases |s.nodes[j].children| - i
  {
    if i < |s.nodes[j].children| && Classify(s.nodes, s.nodes[j].children[i]) != Illegal {
      KeptStep(s, j, i);
      PointedStep(m0, s, j, i);
      InnerPointed(m0, NextState(s, j, i), j, i + 1);
    }
  }

  /** seperate_for_join keeps every new Fetcher pointed at. */
  lemma {:induction false} JoinsPointed(m0: Nodes, s: ArenaState, joins: seq<int>, k: nat)
    requires Fresh(s) && WellFormed(s.nodes) && k <= |joins| && JoinsIn(s.nodes, joins) && Pointed(m0, s.nodes)
    ensures Pointed(m0, JoinsEffect(s, joins, k).0.nodes)
    decreases |joins| - k
  {
    if k < |joins| {
      var p := JoinChildrenEffect(s, joins[k], 0);
      InnerPointed(m0, s, joins[k], 0);
      JoinChildrenKeepWellFormed(s, joins[k], 0);
      JoinChildrenJoinsIn(s, joins[k], 0, joins);
      if p.1 {
        JoinsPointed(m0, p.0, joins, k + 1);
      }
    }
  }

  /** Kept for a list of Joins holds for any list naming them all. */
  lemma KeptWiden(m0: Nodes, m: Nodes, js: seq<int>, joins: seq<int>)
    requires Kept(m0, m, js) && forall x :: x in js ==> x in joins
    ensures Kept(m0, m, joins)
  {
  }

  /** seperate_for_join, from Join k on, changes only the child lists of the Joins. */
  lemma {:induction false} JoinsKept(s: ArenaState, joins: seq<int>, k: nat)
    requires Fresh(s) && k <= |joins| && JoinsIn(s.nodes, joins)
    ensures Kept(s.nodes, JoinsEffect(s, joins, k).0.nodes, joins)
    decreases |joins| - k
  {
    if k == |joins| {
      KeptRefl(s.nodes, joins);
    } else {
      var p := JoinChildrenEffect(s, joins[k], 0);
      JoinChildrenKept(s, joins[k], 0);
      JoinChildrenJoinsIn(s, joins[k], 0, joins);
      if p.1 {
        JoinsKept(p.0, joins, k + 1);
        assert JoinsEffect(s, joins, k) == JoinsEffect(p.0, joins, k + 1);
        KeptTrans(s.nodes, p.0.nodes, JoinsEffect(p.0, joins, k + 1).0.nodes, [joins[k]], joins);
        KeptWiden(s.nodes, JoinsEffect(s, joins, k).0.nodes, [joins[k]] + joins, joins);
      } else {
        KeptWiden(s.nodes, p.0.nodes, [joins[k]], joins);
      }
    }
  }

  /** A rewritten child whose Scan is among the pointed ones points at the Fetcher in its place. */
  lemma PointedFrom(m0: Nodes, m: Nodes, joins: seq<int>, j: int, p: nat)
    requires Rewritten(m0, m, j) && Pointed(m0, m) && Kept(m0, m, joins) && JoinsIn(m0, joins)
    requires p < |m0[j].children|
    ensures ScanPointed(m0, m, m0[j].children[p], m[j].children[p])
  {
    var c0 := m0[j].children[p];
    var c := m[j].children[p];
    assert ChildRewritten(m0, m, j, c0, c);
    if Classify(m0, c0).Wrap? {
      assert c in m && c !in m0 && m[c].children == [c0];
      assert PointedAt(m, c);
      ClassifyKept(m0, m, joins, c0);
    }
  }

  /**
   * On 0, seperate_for_join also leaves the Scan of every wrapped child naming
   * the new Fetcher in the child's place as its related Fetcher.
   */
  lemma JoinsPointScans(s: ArenaState, joins: seq<int>)
    requires Fresh(s) && WellFormed(s.nodes) && JoinsIn(s.nodes, joins) && Distinct(joins)
    ensures JoinsEffect(s, joins, 0).1 == 0 ==>
      forall t :: 0 <= t < |joins| ==>
        (joins[t] in JoinsEffect(s, joins, 0).0.nodes && Separated(s.nodes, JoinsEffect(s, joins, 0).0.nodes, joins[t]))
  {
    var m := JoinsEffect(s, joins, 0).0.nodes;
    if JoinsEffect(s, joins, 0).1 == 0 {
      JoinsSeparated(s, joins);
      JoinsPointed(s.nodes, s, joins, 0);
      JoinsKept(s, joins, 0);
      forall t | 0 <= t < |joins| ensures joins[t] in m && Separated(s.nodes, m, joins[t]) {
        var j := joins[t];
        assert Rewritten(s.nodes, m, j);
        forall p | 0 <= p < |s.nodes[j].children| && p < |m[j].children|
          ensures ScanPointed(s.nodes, m, s.nodes[j].children[p], m[j].children[p])
        {
          PointedFrom(s.nodes, m, joins, j, p);
        }
      }
    }
  }

  // ----- What the rewrite leaves alone -----

  /**
   * Old node x of m0 is in m as it was, up to three changes the rewrite makes:
   * a Join's child list (Kept says which nodes may have one), a new parent that is
   * a node the rewrite created and that lists x among its children, and a Scan's
   * related Fetcher, set to a node the rewrite created.
   */
  ghost predicate NodeFramed(m0: Nodes, m: Nodes, x: int)
    requires x in m0 && x in m
  {
    && m[x].limit == m0[x].limit && m[x].config == m0[x].config
    && (m[x].parent != m0[x].parent ==>
          m[x].parent.Some? && m[x].parent.value !in m0 && m[x].parent.value in m
          && x in m[m[x].parent.value].children)
    && (m[x].kind != m0[x].kind ==>
          m0[x].kind.Scan? && m[x].kind.Scan? && m[x].kind.regions == m0[x].kind.regions
          && m[x].kind.relatedFetcher.Some? && m[x].kind.relatedFetcher.value !in m0)
  }

  /** Every old node of m0 is in m and NodeFramed. */
  ghost predicate Framed(m0: Nodes, m: Nodes) {
    forall x :: x in m0 ==> x in m && NodeFramed(m0, m, x)
  }

  /** Framed holds of an unchanged arena. */
  lemma FramedRefl(m: Nodes)
    ensures Framed(m, m)
  {
  }

  /** Adding a Fetcher under a fresh id is Framed and Kept. */
  lemma FramedFresh(m: Nodes, k: int, n: Node, js: seq<int>)
    requires k !in m && n.kind.Fetcher?
    ensures Framed(m, m[k := n]) && Kept(m, m[k := n], js)
  {
  }

  /** One wrap: j's child list, c's parent (now f, which holds c) and sc's related Fetcher (now f) change. */
  lemma WrapFramed(m: Nodes, j: int, c: int, sc: int, f: int)
    requires j in m && m[j].kind.Join? && c in m && sc in m && m[sc].kind.Scan? && f !in m && j != c
    requires c in m[j].children
    ensures Framed(m, WrapChild(m, j, c, sc, f))
  {
    var w := WrapChild(m, j, c, sc, f);
    assert w[f].children == [c];
    forall x | x in m ensures x in w && NodeFramed(m, w, x) {
      if x == c {
        assert w[x].parent == Some(f) && c in w[f].children;
      }
    }
  }

  /** Framed composes along Kept steps: a node a step created is a Fetcher, which the next step leaves alone. */
  lemma FramedTrans(m0: Nodes, m1: Nodes, m2: Nodes, js1: seq<int>, js2: seq<int>)
    requires Framed(m0, m1) && Framed(m1, m2) && Kept(m0, m1, js1) && Kept(m1, m2, js2)
    ensures Framed(m0, m2)
  {
    forall x | x in m0 ensures x in m2 && NodeFramed(m0, m2, x) {
      assert x in m1 && NodeFramed(m0, m1, x);
      assert x in m2 && NodeFramed(m1, m2, x);
      if m1[x].parent != m0[x].parent && m2[x].parent == m1[x].parent {
        var q := m1[x].parent.value;
        assert q in m1 && q !in m0;
        assert m1[q].kind.Fetcher?;
        assert m2[q] == m1[q];
      }
      if m2[x].parent != m1[x].parent {
        var q := m2[x].parent.value;
        assert q in m0 ==> q in m1;
      }
      if m2[x].kind != m1[x].kind {
        var q := m2[x].kind.relatedFetcher.value;
        assert q in m0 ==> q in m1;
      }
    }
  }

  /** The inner loop's step at position i is Framed. */
  lemma FramedStep(s: ArenaState, j: int, i: nat)
    requires Fresh(s) && j in s.nodes && s.nodes[j].kind.Join? && i < |s.nodes[j].children|
    ensures Framed(s.nodes, NextState(s, j, i).nodes)
  {
    var c := s.nodes[j].children[i];
    match Classify(s.nodes, c)
    case Wrap(sc) =>
      WrapFramed(s.nodes, j, c, sc, s.next);
    case _ =>
      FramedRefl(s.nodes);
  }

  /** The inner loop of seperate_for_join is Framed. */
  lemma {:induction false} JoinChildrenFramed(s: ArenaState, j: int, i: nat)
    requires Fresh(s) && j in s.nodes && s.nodes[j].kind.Join? && i <= |s.nodes[j].children|
    ensures Framed(s.nodes, JoinChildrenEffect(s, j, i).0.nodes)
    decreases |s.nodes[j].children| - i
  {
    if i == |s.nodes[j].children| || Classify(s.nodes, s.nodes[j].children[i]) == Illegal {
      FramedRefl(s.nodes);
    } else {
      KeptStep(s, j, i);
      FramedStep(s, j, i);
      var s1 := NextState(s, j, i);
      JoinChildrenFramed(s1, j, i + 1);
      JoinChildrenKept(s1, j, i + 1);
      FramedTrans(s.nodes, s1.nodes, JoinChildrenEffect(s1, j, i + 1).0.nodes, [j], [j]);
    }
  }

  /**
   * seperate_for_join, from Join k on and whatever it returns, leaves every old
   * node as it was except for the Joins' child lists, the parent of each child it
   * moves under a new Fetcher, and the related Fetcher of that child's Scan.
   */
  lemma {:induction false} JoinsFramed(s: ArenaState, joins: seq<int>, k: nat)
    requires Fresh(s) && k <= |joins| && JoinsIn(s.nodes, joins)
    ensures Kept(s.nodes, JoinsEffect(s, joins, k).0.nodes, joins)
    ensures Framed(s.nodes, JoinsEffect(s, joins, k).0.nodes)
    decreases |joins| - k
  {
    JoinsKept(s, joins, k);
    if k == |joins| {
      FramedRefl(s.nodes);
    } else {
      var p := JoinChildrenEffect(s, joins[k], 0);
      JoinChildrenFramed(s, joins[k], 0);
      JoinChildrenKept(s, joins[k], 0);
      JoinChildrenJoinsIn(s, joins[k], 0, joins);
      if p.1 {
        JoinsFramed(p.0, joins, k + 1);
        assert JoinsEffect(s, joins, k) == JoinsEffect(p.0, joins, k + 1);
        FramedTrans(s.nodes, p.0.nodes, JoinsEffect(p.0, joins, k + 1).0.nodes, [joins[k]], joins);
      }
    }
  }
}
