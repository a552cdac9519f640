/**
 * The plan as an arena of nodes addressed by id, its well-formedness
 * invariant, and the three child-list primitives of ExecNode that the
 * separation pass uses (add_child, clear_children, replace_child).
 */
module PlanTree {
  import opened Wrappers
  import opened PlanNode

  type Nodes = map<int, Node>

  /** Every listed child exists and names its lister as parent. */
  ghost predicate ParentLinked(m: Nodes) {
    forall p, c :: p in m && c in m[p].children ==> c in m && m[c].parent == Some(p)
  }

  /** No child list names the same node twice. */
  ghost predicate NoDuplicateChildren(m: Nodes) {
    forall p, i, k :: p in m && 0 <= i < k < |m[p].children| ==> m[p].children[i] != m[p].children[k]
  }

  /** A parent pointer, when set, names another node of the arena. */
  ghost predicate ParentsExist(m: Nodes) {
    forall c :: c in m && m[c].parent.Some? ==> m[c].parent.value in m && m[c].parent.value != c
  }

  /** A Scan's back-reference to its Fetcher names a node of the arena. */
  ghost predicate RelatedFetchersExist(m: Nodes) {
    forall s :: s in m && m[s].kind.Scan? && m[s].kind.relatedFetcher.Some? ==> m[s].kind.relatedFetcher.value in m
  }

  /**
   * The arena invariant. Together, ParentLinked and NoDuplicateChildren say that
   * every node is listed by at most one node, and at most once there. A node
   * dropped by clear_children keeps a stale parent pointer, which is allowed.
   * Acyclicity and a single root are not part of the invariant.
   */
  ghost predicate WellFormed(m: Nodes) {
    ParentLinked(m) && NoDuplicateChildren(m) && ParentsExist(m) && RelatedFetchersExist(m)
  }

  /** A well-formed arena lists a node under at most one parent. */
  lemma SingleLister(m: Nodes, c: int, p: int, q: int)
    requires WellFormed(m) && p in m && q in m
    requires c in m[p].children && c in m[q].children
    ensures p == q
  {
    assert m[c].parent == Some(p) && m[c].parent == Some(q);
  }

  /** In a well-formed arena, a first child exists, is not its lister, and names it as parent. */
  lemma FirstChild(m: Nodes, p: int)
    requires WellFormed(m) && p in m && |m[p].children| > 0
    ensures m[p].children[0] in m && m[p].children[0] != p && m[m[p].children[0]].parent == Some(p)
  {
    assert m[p].children[0] in m[p].children;
  }

  /** add_child: append c to p's children and make p the parent of c. */
  function AddChild(m: Nodes, p: int, c: int): (r: Nodes)
    requires p in m && c in m && p != c
    ensures r.Keys == m.Keys
    ensures r[p] == m[p].(children := m[p].children + [c])
    ensures r[c] == m[c].(parent := Some(p))
    ensures forall k {:trigger r[k]} :: k in m && k != p && k != c ==> r[k] == m[k]
  {
    m[p := m[p].(children := m[p].children + [c])][c := m[c].(parent := Some(p))]
  }

  /** clear_children: empty p's child list; the dropped children's own fields are untouched. */
  function ClearChildren(m: Nodes, p: int): (r: Nodes)
    requires p in m
    ensures r.Keys == m.Keys
    ensures r[p] == m[p].(children := [])
    ensures forall k {:trigger r[k]} :: k in m && k != p ==> r[k] == m[k]
  {
    m[p := m[p].(children := [])]
  }

  /** Position of the first occurrence of x in s, or |s| when x does not occur. */
  function IndexOf(s: seq<int>, x: int): (i: nat)
    ensures i <= |s|
    ensures x in s ==> i < |s| && s[i] == x && x !in s[..i]
    ensures x !in s ==> i == |s|
  {
    if s == [] then 0
    else if s[0] == x then 0
    else
      assert s[1..][..IndexOf(s[1..], x)] == s[1..1 + IndexOf(s[1..], x)];
      1 + IndexOf(s[1..], x)
  }

  /**
   * replace_child: the first occurrence of was in p's children becomes now, at the
   * same position, and p becomes the parent of now; nothing changes if was is not a child.
   */
  function ReplaceChild(m: Nodes, p: int, was: int, now: int): (r: Nodes)
    requires p in m && now in m && p != now
    ensures r.Keys == m.Keys
    ensures |r[p].children| == |m[p].children|
    ensures was in m[p].children ==>
      var i := IndexOf(m[p].children, was);
      && r[p] == m[p].(children := m[p].children[i := now])
      && r[now] == m[now].(parent := Some(p))
    ensures was !in m[p].children ==> r == m
    ensures forall k :: k in m && k != p && k != now ==> r[k] == m[k]
  {
    var i := IndexOf(m[p].children, was);
    if i == |m[p].children| then m
    else m[p := m[p].(children := m[p].children[i := now])][now := m[now].(parent := Some(p))]
  }

  /** The single-child chain from id ends within n steps and never visits avoid. */
  ghost predicate ChainBelow(m: Nodes, id: int, n: nat, avoid: int)
    decreases n
  {
    && id in m && id != avoid
    && (|m[id].children| == 1 ==> n > 0 && ChainBelow(m, m[id].children[0], n - 1, avoid))
  }

  /** The node reached from id by following k single-child links, if every step exists. */
  ghost function Descend(m: Nodes, id: int, k: nat): Option<int>
    decreases k
  {
    if id !in m then None
    else if k == 0 then Some(id)
    else if |m[id].children| == 1 then Descend(m, m[id].children[0], k - 1)
    else None
  }

  /** One more single-child link extends a descent by one step. */
  lemma {:induction false} DescendStep(m: Nodes, id: int, k: nat, x: int)
    requires Descend(m, id, k) == Some(x)
    ensures x in m
    ensures |m[x].children| == 1 ==> Descend(m, id, k + 1) == Descend(m, m[x].children[0], 0)
    decreases k
  {
    if k > 0 {
      DescendStep(m, m[id].children[0], k - 1, x);
    }
  }

  /** The first node on a single-child chain that has other than one child is unique. */
  lemma {:induction false} ChainLeafUnique(m: Nodes, id: int, k1: nat, k2: nat, a: int, b: int)
    requires Descend(m, id, k1) == Some(a) && Descend(m, id, k2) == Some(b)
    requires a in m && b in m && |m[a].children| != 1 && |m[b].children| != 1
    ensures a == b && k1 == k2
    decreases k1
  {
    if k1 > 0 && k2 > 0 {
      ChainLeafUnique(m, m[id].children[0], k1 - 1, k2 - 1, a, b);
    }
  }

  /** No node of the arena lists c as a child. */
  ghost predicate Unlisted(m: Nodes, c: int) {
    forall q :: q in m ==> c !in m[q].children
  }

  /**
   * c has no parent, or its parent does not list it: the local test, needing no
   * quantifier, that the lemmas below turn into Unlisted.
   */
  ghost predicate Orphaned(m: Nodes, c: int) {
    c in m && (m[c].parent.None? || m[c].parent.value !in m || c !in m[m[c].parent.value].children)
  }

  /** In a well-formed arena, an orphaned node is listed by nobody. */
  lemma OrphanedUnlisted(m: Nodes, c: int)
    requires WellFormed(m) && Orphaned(m, c)
    ensures Unlisted(m, c)
  {
    forall q | q in m ensures c !in m[q].children {
    }
  }

  /** add_child of a node without a parent keeps the arena well formed. */
  lemma AddDetachedKeepsWellFormed(m: Nodes, p: int, c: int)
    requires WellFormed(m) && p in m && c in m && p != c && m[c].parent == None
    ensures WellFormed(AddChild(m, p, c))
  {
    OrphanedUnlisted(m, c);
    AddUnlistedKeepsWellFormed(m, p, c);
  }

  /** add_child of an orphaned node keeps the arena well formed. */
  lemma AddOrphanKeepsWellFormed(m: Nodes, p: int, c: int)
    requires WellFormed(m) && p in m && p != c && Orphaned(m, c)
    ensures WellFormed(AddChild(m, p, c))
  {
    OrphanedUnlisted(m, c);
    AddUnlistedKeepsWellFormed(m, p, c);
  }

  /** A node with no parent is listed by nobody. */
  lemma OrphanUnlisted(m: Nodes, c: int)
    requires WellFormed(m) && c in m && m[c].parent == None
    ensures Unlisted(m, c)
  {
  }

  /** Adding a detached node under a fresh id keeps the arena well formed. */
  lemma InsertDetached(m: Nodes, id: int, n: Node)
    requires WellFormed(m) && id !in m && Detached(n)
    ensures WellFormed(m[id := n])
    ensures Unlisted(m[id := n], id)
    ensures forall x :: Unlisted(m, x) ==> Unlisted(m[id := n], x)
  {
    var r := m[id := n];
    forall p, c | p in r && c in r[p].children ensures c in r && r[c].parent == Some(p) {
      assert p != id && c in m[p].children;
    }
  }

  /** Clearing a child list keeps the arena well formed and leaves the dropped children unlisted. */
  lemma ClearKeepsWellFormed(m: Nodes, p: int)
    requires WellFormed(m) && p in m
    ensures WellFormed(ClearChildren(m, p))
    ensures forall c :: c in m[p].children ==> Unlisted(ClearChildren(m, p), c)
    ensures forall x :: Unlisted(m, x) ==> Unlisted(ClearChildren(m, p), x)
  {
    var r := ClearChildren(m, p);
    forall c | c in m[p].children ensures Unlisted(r, c) {
      forall q | q in r ensures c !in r[q].children {
        if q != p && c in r[q].children { SingleLister(m, c, p, q); }
      }
    }
  }

  /** Appending a node nobody lists keeps the arena well formed; other unlisted nodes stay unlisted. */
  lemma AddUnlistedKeepsWellFormed(m: Nodes, p: int, c: int)
    requires WellFormed(m) && p in m && c in m && p != c && Unlisted(m, c)
    ensures WellFormed(AddChild(m, p, c))
    ensures forall x :: x != c && Unlisted(m, x) ==> Unlisted(AddChild(m, p, c), x)
  {
    var r := AddChild(m, p, c);
    forall q, d | q in r && d in r[q].children ensures d in r && r[d].parent == Some(q) {
      if q == p {
        if d != c { assert d in m[p].children; }
      } else {
        assert d in m[q].children;
      }
    }
    forall q, i, k | q in r && 0 <= i < k < |r[q].children| ensures r[q].children[i] != r[q].children[k] {
      if q == p {
        assert c !in m[p].children;
        if k == |m[p].children| { assert r[q].children[i] in m[p].children; }
      }
    }
  }

  /** In a list without duplicates, the first occurrence of s[i] is at i. */
  lemma IndexOfDistinct(s: seq<int>, i: int)
    requires 0 <= i < |s| && forall a, b :: 0 <= a < b < |s| ==> s[a] != s[b]
    ensures IndexOf(s, s[i]) == i
  {
  }

  /** When s[i] does not occur before i, its first occurrence is at i. */
  lemma {:induction false} IndexOfFirst(s: seq<int>, i: int)
    requires 0 <= i < |s| && forall p :: 0 <= p < i ==> s[p] != s[i]
    ensures IndexOf(s, s[i]) == i
  {
    if i > 0 {
      assert s[1..][i - 1] == s[i];
      IndexOfFirst(s[1..], i - 1);
    }
  }

  /** The arena after the child at position i of p is replaced by n. */
  ghost function Replaced(m: Nodes, p: int, i: int, n: int): Nodes
    requires p in m && n in m && 0 <= i < |m[p].children|
  {
    m[p := m[p].(children := m[p].children[i := n])][n := m[n].(parent := Some(p))]
  }

  /**
   * Replacing the child at position i by a node nobody lists keeps the arena well
   * formed; the replaced child is then listed by nobody.
   */
  lemma ReplaceWithUnlisted(m: Nodes, p: int, i: int, n: int)
    requires WellFormed(m) && p in m && n in m && p != n && Unlisted(m, n)
    requires 0 <= i < |m[p].children|
    ensures ReplaceChild(m, p, m[p].children[i], n) == Replaced(m, p, i, n)
    ensures WellFormed(Replaced(m, p, i, n))
    ensures Unlisted(Replaced(m, p, i, n), m[p].children[i])
    ensures forall x :: x != n && Unlisted(m, x) ==> Unlisted(Replaced(m, p, i, n), x)
  {
    IndexOfDistinct(m[p].children, i);
    ReplacedLinked(m, p, i, n);
    ReplacedDistinct(m, p, i, n);
    ReplacedUnlists(m, p, i, n);
  }

  lemma ReplacedLinked(m: Nodes, p: int, i: int, n: int)
    requires WellFormed(m) && p in m && n in m && p != n && Unlisted(m, n)
    requires 0 <= i < |m[p].children|
    ensures ParentLinked(Replaced(m, p, i, n)) && ParentsExist(Replaced(m, p, i, n))
    ensures RelatedFetchersExist(Replaced(m, p, i, n))
  {
    var cs := m[p].children;
    var r := Replaced(m, p, i, n);
    forall q, d | q in r && d in r[q].children ensures d in r && r[d].parent == Some(q) {
      if q == p {
        if d != n {
          var y :| 0 <= y < |r[p].children| && r[p].children[y] == d;
          assert d == cs[y];
        }
      } else {
        assert d in m[q].children;
      }
    }
  }

  lemma ReplacedDistinct(m: Nodes, p: int, i: int, n: int)
    requires WellFormed(m) && p in m && n in m && p != n && Unlisted(m, n)
    requires 0 <= i < |m[p].children|
    ensures NoDuplicateChildren(Replaced(m, p, i, n))
  {
    var cs := m[p].children;
    var r := Replaced(m, p, i, n);
    forall q, a, b | q in r && 0 <= a < b < |r[q].children| ensures r[q].children[a] != r[q].children[b] {
      if q == p {
        assert n !in cs;
        if a != i && b != i { assert r[q].children[a] == cs[a] && r[q].children[b] == cs[b]; }
        else if a == i { assert r[q].children[b] == cs[b]; }
        else { assert r[q].children[a] == cs[a]; }
      }
    }
  }

  lemma ReplacedUnlists(m: Nodes, p: int, i: int, n: int)
    requires WellFormed(m) && p in m && n in m && p != n && Unlisted(m, n)
    requires 0 <= i < |m[p].children|
    ensures Unlisted(Replaced(m, p, i, n), m[p].children[i])
    ensures forall x :: x != n && Unlisted(m, x) ==> Unlisted(Replaced(m, p, i, n), x)
  {
    var cs := m[p].children;
    var c := cs[i];
    var r := Replaced(m, p, i, n);
    forall q | q in r ensures c !in r[q].children {
      if q != p && c in r[q].children {
        assert c in m[q].children;
        SingleLister(m, c, p, q);
      }
    }
  }

  /** Changing a node's kind keeps the arena well formed when a new Scan back-reference names a node of the arena. */
  lemma RetagKeepsWellFormed(m: Nodes, x: int, k: Kind)
    requires WellFormed(m) && x in m
    requires k.Scan? && k.relatedFetcher.Some? ==> k.relatedFetcher.value in m
    ensures WellFormed(m[x := m[x].(kind := k)])
    ensures forall y :: Unlisted(m, y) ==> Unlisted(m[x := m[x].(kind := k)], y)
  {
  }
}
