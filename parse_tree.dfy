/**
 * Parse-tree nodes. A node has a label, a parent, an ordered list of children
 * and, for a terminal leaf, the token it matched. Nodes are objects the driver
 * creates and then updates in place (adding children, setting the token); the
 * model keeps all nodes of one parse in a store and names a node by its
 * position there, so a reference to a node is an index.
 */
module ParseTrees {
  import opened Grammar

  /** A node: its label, its parent's index (none for the root), its
      children's indices in order, and its token once one is set. */
  datatype Node = Node(nodeLabel: Label, parent: Option<nat>, children: seq<nat>, token: Option<Token>)

  /** A freshly created node: no children and no token yet. */
  function Fresh(l: Label, parent: Option<nat>): Node {
    Node(l, parent, [], None)
  }

  /** The nodes after `cs` are appended, in order, to the children of `x`. */
  function WithChildren(nodes: seq<Node>, x: nat, cs: seq<nat>): seq<Node>
    requires x < |nodes|
  {
    nodes[x := nodes[x].(children := nodes[x].children + cs)]
  }

  /** The nodes after the token of `x` is set to `tok`. */
  function WithToken(nodes: seq<Node>, x: nat, tok: Token): seq<Node>
    requires x < |nodes|
  {
    nodes[x := nodes[x].(token := Some(tok))]
  }

  /** Appending no children changes nothing. */
  lemma WithNoChildren(nodes: seq<Node>, x: nat)
    requires x < |nodes|
    ensures WithChildren(nodes, x, []) == nodes
  {
    assert nodes[x].children + [] == nodes[x].children;
  }

  /** Appending `cs` and then `c` is appending `cs + [c]`. */
  lemma WithChildrenSnoc(nodes: seq<Node>, x: nat, cs: seq<nat>, c: nat)
    requires x < |nodes|
    ensures WithChildren(WithChildren(nodes, x, cs), x, [c]) == WithChildren(nodes, x, cs + [c])
  {
    assert nodes[x].children + cs + [c] == nodes[x].children + (cs + [c]);
  }

  /** The nodes created by one parse. */
  class TreeNodes {
    var nodes: seq<Node>

    constructor()
      ensures nodes == []
    {
      nodes := [];
    }

    /** `new TreeNode(l, parent)`: a node with no children and no token. */
    method NewNode(l: Label, parent: Option<nat>) returns (x: nat)
      modifies this
      ensures x == |old(nodes)|
      ensures nodes == old(nodes) + [Fresh(l, parent)]
    {
      x := |nodes|;
      nodes := nodes + [Fresh(l, parent)];
    }

    /** `addChild`: appends `c` to the children of `x`. */
    method AddChild(x: nat, c: nat)
      requires x < |nodes|
      modifies this
      ensures nodes == WithChildren(old(nodes), x, [c])
    {
      nodes := nodes[x := nodes[x].(children := nodes[x].children + [c])];
    }

    /** `setToken`: stores `tok` in node `x`. */
    method SetToken(x: nat, tok: Token)
      requires x < |nodes|
      modifies this
      ensures nodes == WithToken(old(nodes), x, tok)
    {
      nodes := nodes[x := nodes[x].(token := Some(tok))];
    }
  }

  // ---------------------------------------------------------------------------
  // Shape of the store

  /** Every child of a node was created after it and is in the store; so
      following children always reaches higher indices and stops. */
  predicate WellFormed(nodes: seq<Node>) {
    forall x, i | 0 <= x < |nodes| && 0 <= i < |nodes[x].children| ::
      x < nodes[x].children[i] < |nodes|
  }

  /** `nodes'` extends `nodes` and differs from it at most at `x`. */
  predicate SameExcept(nodes: seq<Node>, nodes': seq<Node>, x: nat) {
    |nodes| <= |nodes'| && forall z | 0 <= z < |nodes| && z != x :: nodes'[z] == nodes[z]
  }

  /** `cs` are valid children for node `x`. */
  predicate ChildrenAbove(nodes: seq<Node>, x: nat, cs: seq<nat>) {
    forall i | 0 <= i < |cs| :: x < cs[i] < |nodes|
  }

  /**
   * The frontier of the subtree at `x`: its leaves from left to right, where
   * an epsilon leaf contributes nothing and every other childless node (a
   * terminal leaf, or a non-terminal not yet expanded) contributes itself.
   */
  function Frontier(nodes: seq<Node>, x: nat): seq<nat>
    requires WellFormed(nodes) && x < |nodes|
    decreases |nodes| - x, 1, 0
  {
    if nodes[x].nodeLabel == Epsilon then []
    else if nodes[x].children == [] then [x]
    else FrontierOf(nodes, x, nodes[x].children)
  }

  /** The frontiers of the subtrees at `cs`, children of `x`, concatenated. */
  function FrontierOf(nodes: seq<Node>, x: nat, cs: seq<nat>): seq<nat>
    requires WellFormed(nodes) && x < |nodes| && ChildrenAbove(nodes, x, cs)
    decreases |nodes| - x, 0, |cs|
  {
    if cs == [] then []
    else Frontier(nodes, cs[0]) + FrontierOf(nodes, x, cs[1..])
  }

  /** `s` with every occurrence of `x` replaced by `r`. */
  function Subst(s: seq<nat>, x: nat, r: seq<nat>): seq<nat> {
    if s == [] then []
    else (if s[0] == x then r else [s[0]]) + Subst(s[1..], x, r)
  }

  /** No index occurs twice in `s`. */
  predicate NoDuplicates(s: seq<nat>) {
    forall i, j | 0 <= j < i < |s| :: s[i] != s[j]
  }

  // ---------------------------------------------------------------------------
  // Frontier lemmas

  /** Every member of `s` is a childless, non-epsilon node at index `lo` or above. */
  predicate LeavesFrom(nodes: seq<Node>, lo: nat, s: seq<nat>) {
    forall i | 0 <= i < |s| ::
      lo <= s[i] < |nodes| && nodes[s[i]].children == [] && nodes[s[i]].nodeLabel != Epsilon
  }

  /** The frontier of `x` consists of childless, non-epsilon nodes of the subtree. */
  lemma {:induction false} FrontierLeaves(nodes: seq<Node>, x: nat)
    requires WellFormed(nodes) && x < |nodes|
    ensures LeavesFrom(nodes, x, Frontier(nodes, x))
    decreases |nodes| - x, 1, 0
  {
    if nodes[x].nodeLabel != Epsilon && nodes[x].children != [] {
      FrontierOfLeaves(nodes, x, nodes[x].children);
    }
  }

  lemma {:induction false} FrontierOfLeaves(nodes: seq<Node>, x: nat, cs: seq<nat>)
    requires WellFormed(nodes) && x < |nodes| && ChildrenAbove(nodes, x, cs)
    ensures LeavesFrom(nodes, x + 1, FrontierOf(nodes, x, cs))
    decreases |nodes| - x, 0, |cs|
  {
    if cs != [] {
      FrontierLeaves(nodes, cs[0]);
      FrontierOfLeaves(nodes, x, cs[1..]);
    }
  }

  /**
   * The nodes of the subtree at `x`: `x` and the subtrees of its children.
   * An epsilon node is taken as a leaf, as `Frontier` takes it.
   */
  function Subtree(nodes: seq<Node>, x: nat): (s: set<nat>)
    requires WellFormed(nodes) && x < |nodes|
    ensures x in s && forall y | y in s :: x <= y < |nodes|
    decreases |nodes| - x, 1, 0
  {
    if nodes[x].nodeLabel == Epsilon then {x}
    else {x} + SubtreeOf(nodes, x, nodes[x].children)
  }

  /** The subtrees at `cs`, children of `x`, together. */
  function SubtreeOf(nodes: seq<Node>, x: nat, cs: seq<nat>): (s: set<nat>)
    requires WellFormed(nodes) && x < |nodes| && ChildrenAbove(nodes, x, cs)
    ensures forall y | y in s :: x < y < |nodes|
    decreases |nodes| - x, 0, |cs|
  {
    if cs == [] then {}
    else Subtree(nodes, cs[0]) + SubtreeOf(nodes, x, cs[1..])
  }

  /** Every childless, non-epsilon node of the subtree at `x` is on its
      frontier: the converse of `FrontierLeaves`. */
  lemma {:induction false} LeafOnFrontier(nodes: seq<Node>, x: nat, y: nat)
    requires WellFormed(nodes) && x < |nodes| && y in Subtree(nodes, x)
    requires nodes[y].children == [] && nodes[y].nodeLabel != Epsilon
    ensures y in Frontier(nodes, x)
    decreases |nodes| - x, 1, 0
  {
    if y != x {
      LeafOnFrontierOf(nodes, x, nodes[x].children, y);
    }
  }

  lemma {:induction false} LeafOnFrontierOf(nodes: seq<Node>, x: nat, cs: seq<nat>, y: nat)
    requires WellFormed(nodes) && x < |nodes| && ChildrenAbove(nodes, x, cs) && y in SubtreeOf(nodes, x, cs)
    requires nodes[y].children == [] && nodes[y].nodeLabel != Epsilon
    ensures y in FrontierOf(nodes, x, cs)
    decreases |nodes| - x, 0, |cs|
  {
    if y in Subtree(nodes, cs[0]) {
      LeafOnFrontier(nodes, cs[0], y);
    } else {
      LeafOnFrontierOf(nodes, x, cs[1..], y);
    }
  }

  /** Replacing in a concatenation replaces in each part. */
  lemma {:induction false} SubstAppend(a: seq<nat>, b: seq<nat>, x: nat, r: seq<nat>)
    ensures Subst(a + b, x, r) == Subst(a, x, r) + Subst(b, x, r)
  {
    if a != [] {
      var h := if a[0] == x then r else [a[0]];
      assert (a + b)[0] == a[0] && (a + b)[1..] == a[1..] + b;
      calc {
        Subst(a + b, x, r);
        h + Subst(a[1..] + b, x, r);
        { SubstAppend(a[1..], b, x, r); }
        h + (Subst(a[1..], x, r) + Subst(b, x, r));
        (h + Subst(a[1..], x, r)) + Subst(b, x, r);
        Subst(a, x, r) + Subst(b, x, r);
      }
    } else {
      assert a + b == b;
    }
  }

  /**
   * Giving the childless, non-epsilon node `x` the children `cs` (nodes
   * added after the old ones, with nothing else changed) replaces `x` in
   * every old frontier by the frontier of its new children.
   */
  lemma {:induction false} FrontierExtend(nodes: seq<Node>, nodes': seq<Node>, x: nat, cs: seq<nat>, y: nat)
    requires WellFormed(nodes) && WellFormed(nodes') && x < |nodes| <= |nodes'|
    requires nodes[x].children == [] && nodes[x].nodeLabel != Epsilon
    requires cs != [] && nodes'[x] == nodes[x].(children := cs)
    requires forall z | 0 <= z < |nodes| && z != x :: nodes'[z] == nodes[z]
    requires y < |nodes|
    ensures Frontier(nodes', y) == Subst(Frontier(nodes, y), x, FrontierOf(nodes', x, cs))
    decreases |nodes| - y, 1, 0
  {
    if y == x {
      assert Subst([x], x, FrontierOf(nodes', x, cs)) == FrontierOf(nodes', x, cs) + [];
    } else if nodes[y].nodeLabel != Epsilon && nodes[y].children != [] {
      FrontierOfExtend(nodes, nodes', x, cs, y, nodes[y].children);
    }
  }

  lemma {:induction false} FrontierOfExtend(nodes: seq<Node>, nodes': seq<Node>, x: nat, cs: seq<nat>, y: nat, ds: seq<nat>)
    requires WellFormed(nodes) && WellFormed(nodes') && x < |nodes| <= |nodes'|
    requires nodes[x].children == [] && nodes[x].nodeLabel != Epsilon
    requires cs != [] && nodes'[x] == nodes[x].(children := cs)
    requires forall z | 0 <= z < |nodes| && z != x :: nodes'[z] == nodes[z]
    requires y < |nodes| && ChildrenAbove(nodes, y, ds)
    ensures FrontierOf(nodes', y, ds) == Subst(FrontierOf(nodes, y, ds), x, FrontierOf(nodes', x, cs))
    decreases |nodes| - y, 0, |ds|
  {
    if ds != [] {
      var r := FrontierOf(nodes', x, cs);
      FrontierExtend(nodes, nodes', x, cs, ds[0]);
      FrontierOfExtend(nodes, nodes', x, cs, y, ds[1..]);
      SubstAppend(Frontier(nodes, ds[0]), FrontierOf(nodes, y, ds[1..]), x, r);
    }
  }

  /** Children that are childless and not epsilon are their own frontier. */
  lemma {:induction false} FrontierOfFreshLeaves(nodes: seq<Node>, x: nat, cs: seq<nat>)
    requires WellFormed(nodes) && x < |nodes| && ChildrenAbove(nodes, x, cs)
    requires forall i | 0 <= i < |cs| :: nodes[cs[i]].children == [] && nodes[cs[i]].nodeLabel != Epsilon
    ensures FrontierOf(nodes, x, cs) == cs
    decreases |cs|
  {
    if cs != [] {
      FrontierOfFreshLeaves(nodes, x, cs[1..]);
    }
  }

  /** Setting a token changes no frontier. */
  lemma {:induction false} FrontierWithToken(nodes: seq<Node>, x: nat, tok: Token, y: nat)
    requires WellFormed(nodes) && x < |nodes| && y < |nodes|
    ensures WellFormed(WithToken(nodes, x, tok))
    ensures Frontier(WithToken(nodes, x, tok), y) == Frontier(nodes, y)
    decreases |nodes| - y, 1, 0
  {
    var nodes' := WithToken(nodes, x, tok);
    if nodes[y].nodeLabel != Epsilon && nodes[y].children != [] {
      FrontierOfWithToken(nodes, x, tok, y, nodes[y].children);
    }
  }

  lemma {:induction false} FrontierOfWithToken(nodes: seq<Node>, x: nat, tok: Token, y: nat, ds: seq<nat>)
    requires WellFormed(nodes) && x < |nodes| && y < |nodes| && ChildrenAbove(nodes, y, ds)
    ensures WellFormed(WithToken(nodes, x, tok))
    ensures FrontierOf(WithToken(nodes, x, tok), y, ds) == FrontierOf(nodes, y, ds)
    decreases |nodes| - y, 0, |ds|
  {
    if ds != [] {
      FrontierWithToken(nodes, x, tok, ds[0]);
      FrontierOfWithToken(nodes, x, tok, y, ds[1..]);
    }
  }

  /** Replacing an index that does not occur changes nothing. */
  lemma {:induction false} SubstAbsent(s: seq<nat>, x: nat, r: seq<nat>)
    requires x !in s
    ensures Subst(s, x, r) == s
  {
    if s != [] {
      SubstAbsent(s[1..], x, r);
    }
  }

  /** Replacing the `k`-th index of a sequence without duplicates replaces
      that position only. */
  lemma SubstUnique(s: seq<nat>, k: nat, r: seq<nat>)
    requires k < |s| && NoDuplicates(s)
    ensures Subst(s, s[k], r) == s[..k] + r + s[k + 1..]
  {
    var x, a, b := s[k], s[..k], s[k + 1..];
    var xb := [x] + b;
    assert s == a + xb;
    assert x !in a && x !in b;
    SubstAppend(a, xb, x, r);
    assert xb[0] == x && xb[1..] == b;
    assert Subst(xb, x, r) == r + Subst(b, x, r);
    SubstAbsent(a, x, r);
    SubstAbsent(b, x, r);
  }

  /**
   * Giving the childless, non-epsilon node `x`, the `k`-th of the root's
   * frontier, children `cs` among the newly added childless nodes `added`
   * keeps the store well formed and puts the frontier of `cs` in place of
   * `x` in the root's frontier.
   */
  lemma GrowFrontier(nodes: seq<Node>, added: seq<Node>, x: nat, cs: seq<nat>, k: nat)
    requires WellFormed(nodes) && 0 < |nodes|
    requires x < |nodes| && nodes[x].children == [] && nodes[x].nodeLabel != Epsilon
    requires forall j | 0 <= j < |added| :: added[j].children == []
    requires cs != [] && forall i | 0 <= i < |cs| :: |nodes| <= cs[i] < |nodes| + |added|
    requires k < |Frontier(nodes, 0)| && Frontier(nodes, 0)[k] == x && NoDuplicates(Frontier(nodes, 0))
    ensures WellFormed(WithChildren(nodes + added, x, cs))
    ensures var nodes' := WithChildren(nodes + added, x, cs);
      SameExcept(nodes, nodes', x) && nodes'[0].nodeLabel == nodes[0].nodeLabel && nodes'[0].parent == nodes[0].parent
    ensures var nodes', f := WithChildren(nodes + added, x, cs), Frontier(nodes, 0);
      Frontier(nodes', 0) == f[..k] + FrontierOf(nodes', x, cs) + f[k + 1..]
  {
    var nodes' := WithChildren(nodes + added, x, cs);
    GrowShape(nodes, added, x, cs);
    assert forall z | |nodes| <= z < |nodes'| :: nodes'[z] == added[z - |nodes|];
    FrontierExtend(nodes, nodes', x, cs, 0);
    SubstUnique(Frontier(nodes, 0), k, FrontierOf(nodes', x, cs));
  }

  /** Removing or replacing one position of a sequence without duplicates by
      indices above all of its members keeps it without duplicates. */
  lemma NoDuplicatesReplace(s: seq<nat>, k: nat, r: seq<nat>, bound: nat)
    requires k < |s| && NoDuplicates(s) && NoDuplicates(r)
    requires forall i | 0 <= i < |s| :: s[i] < bound
    requires forall i | 0 <= i < |r| :: bound <= r[i]
    ensures NoDuplicates(s[..k] + r + s[k + 1..])
  {
    var t := s[..k] + r + s[k + 1..];
    forall i, j | 0 <= j < i < |t| ensures t[i] != t[j] {
      if i < k || j >= k + |r| || (k <= j && i < k + |r|) {
        // both from `s`, or both from `r`
      } else if j < k && i >= k + |r| {
        assert t[i] == s[i - |r| + 1] && t[j] == s[j];
      }
    }
  }

  /** The parts of `s` with position `k` replaced by `r`. */
  lemma SpliceParts(s: seq<nat>, k: nat, r: seq<nat>, g: seq<nat>)
    requires k < |s| && g == s[..k] + r + s[k + 1..]
    ensures |g| == |s| - 1 + |r| && g[..k] == s[..k] && g[k..] == r + s[k + 1..]
  {
    assert g == s[..k] + (r + s[k + 1..]);
  }

  /** In a sequence without duplicates, the `k`-th member is not among the first `k`. */
  lemma NoDuplicatesBefore(s: seq<nat>, k: nat)
    requires k < |s| && NoDuplicates(s)
    ensures s[k] !in s[..k]
  {
    forall i | 0 <= i < k ensures s[..k][i] != s[k] {
      assert s[..k][i] == s[i];
    }
  }

  /** Adding nodes and appending children to `x` changes no other old node. */
  lemma GrowShape(nodes: seq<Node>, added: seq<Node>, x: nat, cs: seq<nat>)
    requires x < |nodes|
    ensures var nodes' := WithChildren(nodes + added, x, cs);
      |nodes'| == |nodes| + |added| && SameExcept(nodes, nodes', x) &&
      nodes'[x] == nodes[x].(children := nodes[x].children + cs) &&
      forall j | 0 <= j < |added| :: nodes'[|nodes| + j] == added[j]
  {}

  /** A single epsilon child adds nothing to the frontier. */
  lemma FrontierOfEpsilonChild(nodes: seq<Node>, x: nat, e: nat)
    requires WellFormed(nodes) && x < e < |nodes| && nodes[e].nodeLabel == Epsilon
    ensures FrontierOf(nodes, x, [e]) == []
  {
    assert [e][1..] == [];
  }
}
