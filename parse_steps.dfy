/**
 * The table-driven predictive parse as a specification: a configuration is
 * the node store, the stack of (symbol, node) pairs with its top first, and
 * the index of the current token; `Step` is one iteration of the driver's
 * loop, `Run` iterates it until the stack is empty or an error stops it, and
 * `ParseWith` adds the end marker before and the extra-tokens check after.
 */
module ParseSteps {
  import opened Grammar
  import opened TableRows
  import opened ParsingTableInit
  import opened ParseTrees

  /** Why a parse is rejected. */
  datatype SyntaxError =
    | Mismatch(expected: TokenType, found: TokenType)
    | NoProduction(nonTerminal: Label, found: TokenType)
    | ExtraTokens

  /** A result, or the error that stopped the parse (no tree is returned then). */
  datatype Result<+T> = Ok(value: T) | Fail(error: SyntaxError)

  /** A stack entry: a grammar symbol and the node created for it. */
  type Entry = (Symbol, nat)

  /** The driver's state: the nodes created so far, the stack (top first)
      and the index of the current token. */
  datatype Config = Config(nodes: seq<Node>, stack: seq<Entry>, index: nat)

  /** A parse tree: the node store and its root. */
  datatype ParseTree = ParseTree(nodes: seq<Node>, root: nat)

  /** The driver's copy of the caller's tokens: the same tokens followed by
      exactly one end marker; the caller's sequence is a value and is left
      as it was. */
  function InputTokens(tokens: seq<Token>): (input: seq<Token>)
    ensures |input| == |tokens| + 1
    ensures input[..|tokens|] == tokens && input[|tokens|] == EofToken
  {
    tokens + [EofToken]
  }

  /** The root node labelled `prog`, alone on the stack, before any token. */
  function Initial(): Config {
    Config([Fresh(Prog, None)], [(N(Prog), 0)], 0)
  }

  /** The indices of the children created for a production of length `n`
      when the store holds `base` nodes: the last symbol's node is created
      first, so child `i` has index `base + (n - 1 - i)`. */
  function ChildIds(base: nat, n: nat): (cs: seq<nat>)
    ensures |cs| == n && forall i | 0 <= i < n :: base <= cs[i] < base + n
  {
    seq(n, i requires 0 <= i < n => base + (n - 1 - i))
  }

  /** The nodes created, in creation order, for the symbols of `p` under parent `x`. */
  function ChildNodes(p: Production, x: nat): (ns: seq<Node>)
    ensures |ns| == |p| && forall j | 0 <= j < |p| :: ns[j].children == [] && ns[j].parent == Some(x)
  {
    seq(|p|, j requires 0 <= j < |p| => Fresh(NodeLabel(p[|p| - 1 - j]), Some(x)))
  }

  /** The entries pushed for `p`, top first: symbol `i` with its child node. */
  function Pushed(p: Production, base: nat): seq<Entry> {
    seq(|p|, i requires 0 <= i < |p| => (p[i], base + (|p| - 1 - i)))
  }

  /** The `k+1` first nodes created for `p` are the `k` first and the node for
      symbol `|p|-1-k`. */
  lemma ChildNodesSnoc(p: Production, x: nat, k: nat)
    requires k < |p|
    ensures ChildNodes(p, x)[..k + 1] == ChildNodes(p, x)[..k] + [Fresh(NodeLabel(p[|p| - 1 - k]), Some(x))]
  {
  }

  /** The entries pushed for `p` from symbol `i` on start with symbol `i`. */
  lemma PushedCons(p: Production, base: nat, i: nat)
    requires i < |p|
    ensures Pushed(p, base)[i..] == [(p[i], base + (|p| - 1 - i))] + Pushed(p, base)[i + 1..]
  {
  }

  /** The child ids from position `i` on start with the id of symbol `i`. */
  lemma ChildIdsCons(base: nat, n: nat, i: nat)
    requires i < n
    ensures ChildIds(base, n)[i..] == [base + (n - 1 - i)] + ChildIds(base, n)[i + 1..]
  {
  }

  /** The nodes of the stack entries, top first. */
  function StackIds(st: seq<Entry>): seq<nat> {
    seq(|st|, j requires 0 <= j < |st| => st[j].1)
  }

  /** The stack is not empty, the current token exists and the top's node is in the store. */
  predicate Ready(input: seq<Token>, c: Config) {
    c.stack != [] && c.index < |input| && c.stack[0].1 < |c.nodes|
  }

  /**
   * One iteration of the driver's loop: pop the top entry; a terminal must
   * equal the current token's kind, which is then stored in its node and
   * consumed; a non-terminal is looked up with the current kind, and its
   * node gets an epsilon child, or a child per symbol of the production,
   * whose entries are pushed so that the first symbol is on top.
   */
  function Step(table: map<Key, Production>, input: seq<Token>, c: Config): (r: Result<Config>)
    requires Ready(input, c)
    ensures r.Fail? <==>
      (match c.stack[0].0
       case T(k) => k != input[c.index].kind
       case N(l) => (l, input[c.index].kind) !in table)
    ensures r.Fail? && c.stack[0].0.T? ==> r.error == Mismatch(c.stack[0].0.kind, input[c.index].kind)
    ensures r.Fail? && c.stack[0].0.N? ==> r.error == NoProduction(c.stack[0].0.name, input[c.index].kind)
  {
    var x := c.stack[0].1;
    var rest := c.stack[1..];
    var tok := input[c.index];
    match c.stack[0].0
    case T(k) =>
      if k == tok.kind then Ok(Config(WithToken(c.nodes, x, tok), rest, c.index + 1))
      else Fail(Mismatch(k, tok.kind))
    case N(l) =>
      if (l, tok.kind) !in table then Fail(NoProduction(l, tok.kind))
      else
        var p := table[(l, tok.kind)];
        if IsEpsilonProduction(p) then
          Ok(Config(WithChildren(c.nodes + [Fresh(Epsilon, Some(x))], x, [|c.nodes|]), rest, c.index))
        else
          Ok(Config(WithChildren(c.nodes + ChildNodes(p, x), x, ChildIds(|c.nodes|, |p|)),
                    Pushed(p, |c.nodes|) + rest, c.index))
  }

  // ---------------------------------------------------------------------------
  // What one step does

  /** A terminal that equals the current kind: the token is stored in its
      node, the index advances by one, the entry is popped and nothing else
      changes. */
  lemma TerminalStep(table: map<Key, Production>, input: seq<Token>, c: Config)
    requires Ready(input, c) && c.stack[0].0 == T(input[c.index].kind)
    ensures Step(table, input, c).Ok?
    ensures var c', x := Step(table, input, c).value, c.stack[0].1;
      c'.index == c.index + 1 && c'.stack == c.stack[1..] && |c'.nodes| == |c.nodes| &&
      c'.nodes[x] == c.nodes[x].(token := Some(input[c.index])) &&
      forall z | 0 <= z < |c.nodes| && z != x :: c'.nodes[z] == c.nodes[z]
  {}

  /** A non-terminal whose production is the epsilon one: its node gains
      exactly one child, a new epsilon node, the entry is popped, nothing is
      pushed and no token is consumed. */
  lemma EpsilonStep(table: map<Key, Production>, input: seq<Token>, c: Config, l: Label)
    requires Ready(input, c) && c.stack[0].0 == N(l)
    requires (l, input[c.index].kind) in table && IsEpsilonProduction(table[(l, input[c.index].kind)])
    ensures Step(table, input, c).Ok?
    ensures var c', x, base := Step(table, input, c).value, c.stack[0].1, |c.nodes|;
      c'.index == c.index && c'.stack == c.stack[1..] && |c'.nodes| == base + 1 &&
      c'.nodes[base] == Fresh(Epsilon, Some(x)) &&
      c'.nodes[x] == c.nodes[x].(children := c.nodes[x].children + [base]) &&
      forall z | 0 <= z < base && z != x :: c'.nodes[z] == c.nodes[z]
  {}

  /**
   * A non-terminal whose production `p` is not the epsilon one: its node
   * gains `|p|` new children, in the order of `p`, each labelled by its
   * symbol (`Terminal` for a terminal) with the node as parent; the entries
   * for `p` replace the top so that the first symbol is on top; no token is
   * consumed and no other node changes.
   */
  lemma ExpansionStep(table: map<Key, Production>, input: seq<Token>, c: Config, l: Label)
    requires Ready(input, c) && c.stack[0].0 == N(l)
    requires (l, input[c.index].kind) in table && !IsEpsilonProduction(table[(l, input[c.index].kind)])
    ensures Step(table, input, c).Ok?
    ensures var c', x, base := Step(table, input, c).value, c.stack[0].1, |c.nodes|;
      var p := table[(l, input[c.index].kind)];
      var cs := c'.nodes[x].children[|c.nodes[x].children|..];
      c'.index == c.index && |c'.nodes| == base + |p| &&
      c'.nodes[x] == c.nodes[x].(children := c.nodes[x].children + cs) &&
      |cs| == |p| &&
      (forall i | 0 <= i < |p| :: base <= cs[i] < base + |p| && c'.nodes[cs[i]] == Fresh(NodeLabel(p[i]), Some(x))) &&
      (forall i, j | 0 <= j < i < |p| :: cs[i] != cs[j]) &&
      c'.stack == seq(|p|, i requires 0 <= i < |p| => (p[i], cs[i])) + c.stack[1..] &&
      forall z | 0 <= z < base && z != x :: c'.nodes[z] == c.nodes[z]
  {
    var c', x, base := Step(table, input, c).value, c.stack[0].1, |c.nodes|;
    var p := table[(l, input[c.index].kind)];
    var cs := c'.nodes[x].children[|c.nodes[x].children|..];
    assert cs == ChildIds(base, |p|);
  }

  // ---------------------------------------------------------------------------
  // The loop invariant

  /** An entry the driver can have on its stack: its node is in the store
      and labelled for its symbol, and the symbol is neither the end marker
      nor one of the two structural labels. */
  predicate OnStack(nodes: seq<Node>, e: Entry) {
    e.1 < |nodes| && nodes[e.1].nodeLabel == NodeLabel(e.0) &&
    e.0 != T(EOF) && e.0 != N(Epsilon) && e.0 != N(Terminal)
  }

  /** Every entry of `st` is one the driver can have on its stack. */
  predicate StackOK(nodes: seq<Node>, st: seq<Entry>) {
    forall j | 0 <= j < |st| :: OnStack(nodes, st[j])
  }

  /** The first `n` nodes of `f` are terminal leaves holding the first `n` tokens. */
  predicate Consumed(input: seq<Token>, nodes: seq<Node>, f: seq<nat>, n: nat)
    requires n <= |f| && n <= |input|
  {
    forall i | 0 <= i < n ::
      f[i] < |nodes| && nodes[f[i]].nodeLabel == Terminal && nodes[f[i]].token == Some(input[i])
  }

  /** The root's frontier is the nodes of the tokens consumed so far, each a
      terminal leaf holding its token, followed by the nodes of the stack
      entries, top first; no node occurs twice. */
  predicate FrontierMatches(input: seq<Token>, c: Config)
    requires WellFormed(c.nodes) && 0 < |c.nodes| && c.index <= |input|
  {
    var f := Frontier(c.nodes, 0);
    |f| == c.index + |c.stack| && NoDuplicates(f) &&
    f[c.index..] == StackIds(c.stack) && Consumed(input, c.nodes, f, c.index)
  }

  /** What holds before every iteration of the driver's loop. */
  predicate Inv(input: seq<Token>, c: Config) {
    0 < |input| && input[|input| - 1].kind == EOF && c.index < |input| &&
    WellFormed(c.nodes) && 0 < |c.nodes| &&
    c.nodes[0].nodeLabel == Prog && c.nodes[0].parent == None &&
    StackOK(c.nodes, c.stack) && FrontierMatches(input, c)
  }

  lemma StackIdsAppend(a: seq<Entry>, b: seq<Entry>)
    ensures StackIds(a + b) == StackIds(a) + StackIds(b)
  {}

  /** Entries whose nodes did not change stay fine. */
  lemma StackKept(nodes: seq<Node>, nodes': seq<Node>, x: nat, st: seq<Entry>)
    requires StackOK(nodes, st) && SameExcept(nodes, nodes', x)
    requires x !in StackIds(st)
    ensures StackOK(nodes', st)
  {
    forall j | 0 <= j < |st| ensures OnStack(nodes', st[j]) {
      assert StackIds(st)[j] == st[j].1;
    }
  }

  /** Consumed leaves whose nodes did not change stay consumed. */
  lemma ConsumedKept(input: seq<Token>, nodes: seq<Node>, nodes': seq<Node>, x: nat, f: seq<nat>, f': seq<nat>, n: nat)
    requires n <= |f| && n <= |f'| && n <= |input| && f'[..n] == f[..n]
    requires Consumed(input, nodes, f, n) && SameExcept(nodes, nodes', x)
    requires x !in f[..n]
    ensures Consumed(input, nodes', f', n)
  {
    forall i | 0 <= i < n
      ensures f'[i] < |nodes'| && nodes'[f'[i]].nodeLabel == Terminal && nodes'[f'[i]].token == Some(input[i])
    {
      assert f'[i] == f[..n][i] == f[i];
    }
  }

  /** The invariant holds at the start, for any input ending in the end marker. */
  lemma InitialInv(input: seq<Token>)
    requires 0 < |input| && input[|input| - 1].kind == EOF
    ensures Inv(input, Initial())
  {
    assert Frontier(Initial().nodes, 0) == [0];
  }

  /** Matching a terminal keeps the invariant. */
  lemma TerminalPreserves(table: map<Key, Production>, input: seq<Token>, c: Config)
    requires Inv(input, c) && c.stack != [] && c.stack[0].0 == T(input[c.index].kind)
    ensures Ready(input, c) && Step(table, input, c).Ok?
    ensures Inv(input, Step(table, input, c).value)
  {
    assert OnStack(c.nodes, c.stack[0]);
    MatchPreserves(input, c);
  }

  lemma MatchPreserves(input: seq<Token>, c: Config)
    requires Inv(input, c) && c.stack != [] && c.stack[0].0 == T(input[c.index].kind)
    requires c.stack[0].1 < |c.nodes|
    ensures Inv(input, Config(WithToken(c.nodes, c.stack[0].1, input[c.index]), c.stack[1..], c.index + 1))
  {
    var x, tok := c.stack[0].1, input[c.index];
    var nodes' := WithToken(c.nodes, x, tok);
    var f := Frontier(c.nodes, 0);
    assert OnStack(c.nodes, c.stack[0]);
    FrontierWithToken(c.nodes, x, tok, 0);
    SplitAtTop(f, c.index, c.stack);
    ConsumedKept(input, c.nodes, nodes', x, f, f, c.index);
    ConsumedNext(input, nodes', f, c.index);
    StackTail(c.nodes, c.stack);
    StackKept(c.nodes, nodes', x, c.stack[1..]);
  }

  /** The frontier from position `k` on holds the stack's nodes, top first:
      the top node stands at `k`, the other entries' nodes follow it, and the
      top node occurs nowhere else. */
  lemma SplitAtTop(f: seq<nat>, k: nat, st: seq<Entry>)
    requires st != [] && k <= |f| && f[k..] == StackIds(st) && NoDuplicates(f)
    ensures k < |f| && f[k] == st[0].1 && f[k + 1..] == StackIds(st[1..])
    ensures st[0].1 !in f[..k] && st[0].1 !in StackIds(st[1..])
  {
    assert f[k..][0] == StackIds(st)[0];
    assert st == st[..1] + st[1..];
    StackIdsAppend(st[..1], st[1..]);
    assert f[k + 1..] == f[k..][1..];
    NoDuplicatesBefore(f, k);
    forall j | 0 <= j < |st| - 1 ensures StackIds(st[1..])[j] != st[0].1 {
      assert StackIds(st[1..])[j] == f[k + 1 + j];
    }
  }

  /** The entries below the top one are fine when the whole stack is. */
  lemma StackTail(nodes: seq<Node>, st: seq<Entry>)
    requires st != [] && StackOK(nodes, st)
    ensures StackOK(nodes, st[1..])
  {
    forall j | 0 <= j < |st| - 1 ensures OnStack(nodes, st[1..][j]) {
      assert st[1..][j] == st[j + 1];
    }
  }

  /** A terminal leaf holding token `n` at position `n` extends the consumed
      prefix by one. */
  lemma ConsumedNext(input: seq<Token>, nodes: seq<Node>, f: seq<nat>, n: nat)
    requires n < |f| && n < |input| && Consumed(input, nodes, f, n)
    requires f[n] < |nodes| && nodes[f[n]].nodeLabel == Terminal && nodes[f[n]].token == Some(input[n])
    ensures Consumed(input, nodes, f, n + 1)
  {
  }

  /**
   * Replacing the top entry's node `x`, a frontier leaf, by the entries
   * `pushed` keeps the invariant when the new nodes are above all old ones,
   * no old node other than `x` changes, `x` keeps its label and parent, and
   * the frontier now has the nodes of `pushed` where `x` was.
   */
  lemma ReplaceTopPreserves(input: seq<Token>, c: Config, c': Config, pushed: seq<Entry>)
    requires Inv(input, c) && c.stack != []
    requires c'.index == c.index && c'.stack == pushed + c.stack[1..]
    requires WellFormed(c'.nodes) && SameExcept(c.nodes, c'.nodes, c.stack[0].1)
    requires c'.nodes[0].nodeLabel == c.nodes[0].nodeLabel && c'.nodes[0].parent == c.nodes[0].parent
    requires StackOK(c'.nodes, pushed)
    requires forall j | 0 <= j < |pushed| :: |c.nodes| <= pushed[j].1
    requires NoDuplicates(StackIds(pushed))
    requires Frontier(c'.nodes, 0) ==
      Frontier(c.nodes, 0)[..c.index] + StackIds(pushed) + Frontier(c.nodes, 0)[c.index + 1..]
    ensures Inv(input, c')
  {
    var x, rest := c.stack[0].1, c.stack[1..];
    var f := Frontier(c.nodes, 0);
    SplitAtTop(f, c.index, c.stack);
    StackTail(c.nodes, c.stack);
    FrontierLeaves(c.nodes, 0);
    assert forall i | 0 <= i < |StackIds(pushed)| :: |c.nodes| <= StackIds(pushed)[i];
    ReplaceTopFrontier(input, c.nodes, c'.nodes, x, c.index, f, StackIds(pushed), Frontier(c'.nodes, 0));
    StackIdsAppend(pushed, rest);
    ReplaceTopStack(c.nodes, c'.nodes, x, pushed, rest);
  }

  /** Splicing the fresh nodes `r` into the frontier `f` in place of its
      `k`-th node keeps it free of duplicates and keeps the consumed prefix. */
  lemma ReplaceTopFrontier(input: seq<Token>, nodes: seq<Node>, nodes': seq<Node>, x: nat, k: nat,
                           f: seq<nat>, r: seq<nat>, f': seq<nat>)
    requires k < |f| && f[k] == x && NoDuplicates(f) && NoDuplicates(r)
    requires f' == f[..k] + r + f[k + 1..]
    requires LeavesFrom(nodes, 0, f)
    requires forall i | 0 <= i < |r| :: |nodes| <= r[i]
    requires k <= |input| && Consumed(input, nodes, f, k) && SameExcept(nodes, nodes', x)
    ensures |f'| == |f| - 1 + |r| && NoDuplicates(f') && f'[k..] == r + f[k + 1..]
    ensures Consumed(input, nodes', f', k)
  {
    NoDuplicatesReplace(f, k, r, |nodes|);
    SpliceParts(f, k, r, f');
    NoDuplicatesBefore(f, k);
    ConsumedKept(input, nodes, nodes', x, f, f', k);
  }

  /** Entries pushed onto an unchanged rest keep the stack fine. */
  lemma ReplaceTopStack(nodes: seq<Node>, nodes': seq<Node>, x: nat, pushed: seq<Entry>, rest: seq<Entry>)
    requires StackOK(nodes, rest) && x !in StackIds(rest)
    requires SameExcept(nodes, nodes', x) && StackOK(nodes', pushed)
    ensures StackOK(nodes', pushed + rest)
  {
    StackKept(nodes, nodes', x, rest);
    forall j | 0 <= j < |pushed + rest| ensures OnStack(nodes', (pushed + rest)[j]) {
      if j >= |pushed| {
        assert (pushed + rest)[j] == rest[j - |pushed|];
      }
    }
  }

  /** An epsilon production keeps the invariant. */
  lemma EpsilonPreserves(table: map<Key, Production>, input: seq<Token>, c: Config, l: Label)
    requires Inv(input, c) && c.stack != [] && c.stack[0].0 == N(l)
    requires (l, input[c.index].kind) in table && IsEpsilonProduction(table[(l, input[c.index].kind)])
    ensures Ready(input, c) && Step(table, input, c).Ok?
    ensures Inv(input, Step(table, input, c).value)
  {
    assert OnStack(c.nodes, c.stack[0]);
    ErasePreserves(input, c);
  }

  /** The top entry's node is a leaf of the frontier, standing at the
      position of the current token. */
  lemma TopLeaf(input: seq<Token>, c: Config)
    requires Inv(input, c) && c.stack != []
    ensures var x, f := c.stack[0].1, Frontier(c.nodes, 0);
      x < |c.nodes| && c.nodes[x].children == [] && c.nodes[x].nodeLabel != Epsilon &&
      c.index < |f| && f[c.index] == x
  {
    assert OnStack(c.nodes, c.stack[0]);
    var f := Frontier(c.nodes, 0);
    assert f[c.index] == StackIds(c.stack)[0];
    FrontierLeaves(c.nodes, 0);
  }

  /** Giving the top node an epsilon child and popping it keeps the invariant. */
  lemma ErasePreserves(input: seq<Token>, c: Config)
    requires Inv(input, c) && c.stack != [] && c.stack[0].0.N? && c.stack[0].1 < |c.nodes|
    ensures var x := c.stack[0].1;
      Inv(input, Config(WithChildren(c.nodes + [Fresh(Epsilon, Some(x))], x, [|c.nodes|]), c.stack[1..], c.index))
  {
    var x := c.stack[0].1;
    var c' := Config(WithChildren(c.nodes + [Fresh(Epsilon, Some(x))], x, [|c.nodes|]), c.stack[1..], c.index);
    TopLeaf(input, c);
    EraseFrontier(c.nodes, x, c.index);
    assert c'.stack == [] + c.stack[1..];
    ReplaceTopPreserves(input, c, c', []);
  }

  /** Giving the leaf `x` at position `k` of the frontier a single epsilon
      child removes it from the frontier and changes nothing else. */
  lemma EraseFrontier(nodes: seq<Node>, x: nat, k: nat)
    requires WellFormed(nodes) && 0 < |nodes|
    requires x < |nodes| && nodes[x].children == [] && nodes[x].nodeLabel != Epsilon
    requires k < |Frontier(nodes, 0)| && Frontier(nodes, 0)[k] == x && NoDuplicates(Frontier(nodes, 0))
    ensures var nodes' := WithChildren(nodes + [Fresh(Epsilon, Some(x))], x, [|nodes|]);
      WellFormed(nodes') && SameExcept(nodes, nodes', x) &&
      nodes'[0].nodeLabel == nodes[0].nodeLabel && nodes'[0].parent == nodes[0].parent
    ensures var nodes', f := WithChildren(nodes + [Fresh(Epsilon, Some(x))], x, [|nodes|]), Frontier(nodes, 0);
      Frontier(nodes', 0) == f[..k] + StackIds([]) + f[k + 1..]
  {
    var base, added := |nodes|, [Fresh(Epsilon, Some(x))];
    var nodes' := WithChildren(nodes + added, x, [base]);
    GrowShape(nodes, added, x, [base]);
    GrowFrontier(nodes, added, x, [base], k);
    FrontierOfEpsilonChild(nodes', x, base);
    assert StackIds([]) == [];
  }

  /** A production the driver may expand with: not empty, and mentioning
      neither the end marker nor either structural label. */
  predicate Expandable(p: Production) {
    p != [] && N(Epsilon) !in p && T(EOF) !in p && N(Terminal) !in p
  }

  /** The entries pushed for `p` carry the new child ids, top first, all
      distinct and at or above `base`. */
  lemma PushedIds(p: Production, base: nat)
    ensures StackIds(Pushed(p, base)) == ChildIds(base, |p|)
    ensures NoDuplicates(ChildIds(base, |p|))
    ensures forall j | 0 <= j < |p| :: base <= Pushed(p, base)[j].1
  {
  }

  /** After the expansion, the `i`-th new child of `x` is a fresh node
      labelled for symbol `i`. */
  lemma ChildrenFresh(nodes: seq<Node>, p: Production, x: nat)
    requires x < |nodes|
    ensures var nodes', cs := WithChildren(nodes + ChildNodes(p, x), x, ChildIds(|nodes|, |p|)), ChildIds(|nodes|, |p|);
      forall i | 0 <= i < |p| :: nodes'[cs[i]] == Fresh(NodeLabel(p[i]), Some(x))
  {
    var base, n := |nodes|, |p|;
    var nodes' := WithChildren(nodes + ChildNodes(p, x), x, ChildIds(base, n));
    GrowShape(nodes, ChildNodes(p, x), x, ChildIds(base, n));
    forall i | 0 <= i < n
      ensures nodes'[ChildIds(base, n)[i]] == Fresh(NodeLabel(p[i]), Some(x))
    {
      assert nodes'[base + (n - 1 - i)] == ChildNodes(p, x)[n - 1 - i];
    }
  }

  /** The entries pushed for `p` hold the new children of `x`, top first,
      each labelled for its symbol; together they are the frontier of the
      new children. */
  lemma PushedFacts(nodes: seq<Node>, p: Production, x: nat)
    requires x < |nodes| && Expandable(p)
    requires WellFormed(WithChildren(nodes + ChildNodes(p, x), x, ChildIds(|nodes|, |p|)))
    ensures var nodes', base := WithChildren(nodes + ChildNodes(p, x), x, ChildIds(|nodes|, |p|)), |nodes|;
      StackIds(Pushed(p, base)) == ChildIds(base, |p|) &&
      NoDuplicates(ChildIds(base, |p|)) &&
      (forall j | 0 <= j < |p| :: base <= Pushed(p, base)[j].1) &&
      StackOK(nodes', Pushed(p, base)) &&
      FrontierOf(nodes', x, ChildIds(base, |p|)) == ChildIds(base, |p|)
  {
    var base, n := |nodes|, |p|;
    var nodes' := WithChildren(nodes + ChildNodes(p, x), x, ChildIds(base, n));
    var cs := ChildIds(base, n);
    PushedIds(p, base);
    ChildrenFresh(nodes, p, x);
    forall j | 0 <= j < n
      ensures OnStack(nodes', Pushed(p, base)[j])
    {
      assert p[j] in p;
    }
    FrontierOfFreshLeaves(nodes', x, cs);
  }

  /** Expanding the top non-terminal's node by an expandable production keeps
      the invariant. */
  lemma ExpandPreserves(input: seq<Token>, c: Config, p: Production)
    requires Inv(input, c) && c.stack != [] && c.stack[0].0.N? && c.stack[0].1 < |c.nodes|
    requires Expandable(p)
    ensures var x, base := c.stack[0].1, |c.nodes|;
      Inv(input, Config(WithChildren(c.nodes + ChildNodes(p, x), x, ChildIds(base, |p|)),
                        Pushed(p, base) + c.stack[1..], c.index))
  {
    var x, base := c.stack[0].1, |c.nodes|;
    var cs := ChildIds(base, |p|);
    var c' := Config(WithChildren(c.nodes + ChildNodes(p, x), x, cs), Pushed(p, base) + c.stack[1..], c.index);
    TopLeaf(input, c);
    GrowFrontier(c.nodes, ChildNodes(p, x), x, cs, c.index);
    PushedFacts(c.nodes, p, x);
    ReplaceTopPreserves(input, c, c', Pushed(p, base));
  }

  /** Expanding by a production of a well-formed table keeps the invariant. */
  lemma ExpansionPreserves(table: map<Key, Production>, input: seq<Token>, c: Config, l: Label)
    requires WellFormedTable(table)
    requires Inv(input, c) && c.stack != [] && c.stack[0].0 == N(l)
    requires (l, input[c.index].kind) in table && !IsEpsilonProduction(table[(l, input[c.index].kind)])
    ensures Ready(input, c) && Step(table, input, c).Ok?
    ensures Inv(input, Step(table, input, c).value)
  {
    assert OnStack(c.nodes, c.stack[0]);
    var p := table[(l, input[c.index].kind)];
    assert EntryOK(l, input[c.index].kind, p);
    ExpandPreserves(input, c, p);
  }

  /** Every step of a well-formed table keeps the invariant. */
  lemma StepPreservesInv(table: map<Key, Production>, input: seq<Token>, c: Config)
    requires WellFormedTable(table) && Inv(input, c) && c.stack != []
    ensures Ready(input, c)
    ensures Step(table, input, c).Ok? ==> Inv(input, Step(table, input, c).value)
  {
    assert OnStack(c.nodes, c.stack[0]);
    var t := input[c.index].kind;
    match c.stack[0].0
    case T(k) =>
      if k == t {
        TerminalPreserves(table, input, c);
      }
    case N(l) =>
      if (l, t) in table {
        if IsEpsilonProduction(table[(l, t)]) {
          EpsilonPreserves(table, input, c, l);
        } else {
          ExpansionPreserves(table, input, c, l);
        }
      }
  }

  // ---------------------------------------------------------------------------
  // Termination

  /** `s` is a non-terminal that the table expands to the epsilon production
      under lookahead `t`. */
  predicate ErasedUnder(table: map<Key, Production>, s: Symbol, t: TokenType) {
    s.N? && (s.name, t) in table && IsEpsilonProduction(table[(s.name, t)])
  }

  /** How many entries from the top of `st` are erased under `t`. */
  function LeadingErased(table: map<Key, Production>, st: seq<Entry>, t: TokenType): nat {
    if st == [] || !ErasedUnder(table, st[0].0, t) then 0
    else 1 + LeadingErased(table, st[1..], t)
  }

  /** The level of the first entry of `st` not erased under `t` (0 if none). */
  function HeadLevel(table: map<Key, Production>, st: seq<Entry>, t: TokenType): nat {
    if st == [] then 0
    else if ErasedUnder(table, st[0].0, t) then HeadLevel(table, st[1..], t)
    else SymbolLevel(st[0].0)
  }

  /**
   * Every successful step decreases, lexicographically, the number of tokens
   * left, the number of erased entries on top, and the level of the first
   * entry that is not erased: a match consumes a token, an epsilon
   * production pops an erased entry, and any other production starts with
   * the lookahead itself or with a lower non-terminal that is not erased
   * under it.
   */
  lemma StepDecreases(table: map<Key, Production>, input: seq<Token>, c: Config)
    requires WellFormedTable(table) && Ready(input, c) && Step(table, input, c).Ok?
    ensures var c', t := Step(table, input, c).value, input[c.index].kind;
      c'.index > c.index ||
      (c'.index == c.index &&
       LeadingErased(table, c'.stack, t) < LeadingErased(table, c.stack, t)) ||
      (c'.index == c.index &&
       LeadingErased(table, c'.stack, t) == LeadingErased(table, c.stack, t) &&
       HeadLevel(table, c'.stack, t) < HeadLevel(table, c.stack, t))
  {
    var t := input[c.index].kind;
    if c.stack[0].0.N? {
      var l := c.stack[0].0.name;
      var p := table[(l, t)];
      if !IsEpsilonProduction(p) {
        var c' := Step(table, input, c).value;
        assert EntryOK(l, t, p);
        assert c'.stack[0].0 == p[0];
        match p[0]
        case T(k) =>
        case N(d) =>
          assert (d, t) in table && !IsEpsilonProduction(table[(d, t)]);
      }
    }
  }

  // ---------------------------------------------------------------------------
  // The whole parse

  /** A genuine rejection: a terminal that differs from the current kind, or
      a key the table has no production for. */
  predicate Genuine(table: map<Key, Production>, e: SyntaxError) {
    match e
    case Mismatch(expected, found) => expected != found
    case NoProduction(l, found) => (l, found) !in table
    case ExtraTokens => false
  }

  /**
   * The driver's loop: steps until the stack is empty or a step fails. It
   * stops for every input, it never reads past the end marker, a run that
   * empties the stack leaves the invariant holding, and a run that fails
   * does so for a genuine reason.
   */
  function Run(table: map<Key, Production>, input: seq<Token>, c: Config): (r: Result<Config>)
    requires WellFormedTable(table) && Inv(input, c)
    ensures r.Ok? ==> r.value.stack == [] && Inv(input, r.value)
    ensures r.Fail? ==> Genuine(table, r.error)
    decreases |input| - c.index,
      LeadingErased(table, c.stack, input[c.index].kind),
      HeadLevel(table, c.stack, input[c.index].kind)
  {
    if c.stack == [] then Ok(c)
    else
      StepPreservesInv(table, input, c);
      match Step(table, input, c)
      case Fail(e) => Fail(e)
      case Ok(c') =>
        StepDecreases(table, input, c);
        Run(table, input, c')
  }

  /** One turn of the loop: a failing step ends the run with its error;
      otherwise the run goes on from the next configuration, which keeps the
      invariant and is smaller in the termination measure. */
  lemma RunStep(table: map<Key, Production>, input: seq<Token>, c: Config)
    requires WellFormedTable(table) && Inv(input, c) && c.stack != []
    ensures Ready(input, c)
    ensures Step(table, input, c).Fail? ==> Run(table, input, c) == Step(table, input, c)
    ensures Step(table, input, c).Ok? ==>
      var c' := Step(table, input, c).value;
      Inv(input, c') && Run(table, input, c) == Run(table, input, c')
    ensures Step(table, input, c).Ok? ==>
      var c', t := Step(table, input, c).value, input[c.index].kind;
      c'.index > c.index ||
      (c'.index == c.index &&
       LeadingErased(table, c'.stack, t) < LeadingErased(table, c.stack, t)) ||
      (c'.index == c.index &&
       LeadingErased(table, c'.stack, t) == LeadingErased(table, c.stack, t) &&
       HeadLevel(table, c'.stack, t) < HeadLevel(table, c.stack, t))
  {
    StepPreservesInv(table, input, c);
    if Step(table, input, c).Ok? {
      StepDecreases(table, input, c);
    }
  }

  /** `tree`'s frontier, read from left to right, is terminal leaves holding
      exactly `tokens`, in order. */
  predicate Yields(tree: ParseTree, tokens: seq<Token>) {
    WellFormed(tree.nodes) && tree.root < |tree.nodes| &&
    var f := Frontier(tree.nodes, tree.root);
    |f| == |tokens| &&
    forall i | 0 <= i < |tokens| ::
      f[i] < |tree.nodes| && tree.nodes[f[i]].nodeLabel == Terminal && tree.nodes[f[i]].token == Some(tokens[i])
  }

  /** In a tree that yields tokens, every node under the root labelled by a
      non-terminal other than `epsilon` has at least one child: each was
      expanded, since a leaf on the frontier holds a token. */
  lemma NonTerminalsExpanded(tree: ParseTree, tokens: seq<Token>, y: nat)
    requires Yields(tree, tokens) && y in Subtree(tree.nodes, tree.root)
    requires tree.nodes[y].nodeLabel != Terminal && tree.nodes[y].nodeLabel != Epsilon
    ensures tree.nodes[y].children != []
  {
    if tree.nodes[y].children == [] {
      LeafOnFrontier(tree.nodes, tree.root, y);
      assert false;
    }
  }

  /** Once the stack is empty with only the end marker left, the tree
      yields exactly the tokens before the end marker. */
  lemma FinalYields(tokens: seq<Token>, c: Config)
    requires Inv(InputTokens(tokens), c) && c.stack == [] && c.index == |tokens|
    ensures Yields(ParseTree(c.nodes, 0), tokens)
    ensures c.nodes[0].nodeLabel == Prog && c.nodes[0].parent == None
  {
    var input := InputTokens(tokens);
    assert forall i | 0 <= i < |tokens| :: input[i] == tokens[i] by {
      assert input[..|tokens|] == tokens;
    }
  }

  /** What the driver's loop does with `tokens` followed by the end marker,
      started from the root alone on the stack. */
  function Outcome(table: map<Key, Production>, tokens: seq<Token>): Result<Config>
    requires WellFormedTable(table)
  {
    InitialInv(InputTokens(tokens));
    Run(table, InputTokens(tokens), Initial())
  }

  /** The loop emptied its stack while a token of the caller was still
      unconsumed. */
  predicate StoppedEarly(table: map<Key, Production>, tokens: seq<Token>)
    requires WellFormedTable(table)
  {
    Outcome(table, tokens).Ok? && Outcome(table, tokens).value.index < |tokens|
  }

  /** Once the stack is empty, the tree built so far yields exactly the tokens
      consumed; when the loop stopped early these are a proper prefix of the
      caller's tokens. */
  lemma StoppedEarlyYieldsPrefix(table: map<Key, Production>, tokens: seq<Token>)
    requires WellFormedTable(table) && StoppedEarly(table, tokens)
    ensures var c := Outcome(table, tokens).value;
      c.index < |tokens| && Yields(ParseTree(c.nodes, 0), tokens[..c.index])
  {
    var c := Outcome(table, tokens).value;
    var input := InputTokens(tokens);
    assert forall i | 0 <= i < c.index :: input[i] == tokens[..c.index][i] by {
      assert input[..|tokens|] == tokens;
    }
  }

  /**
   * The parse of `tokens` with `table`: run the loop on the tokens followed
   * by the end marker from the root alone on the stack; when the stack
   * empties before the end marker is reached the tokens left over are an
   * error. A tree is returned exactly when the loop empties the stack at the
   * end marker, and it yields the caller's tokens under a root labelled
   * `prog`.
   */
  function ParseWith(table: map<Key, Production>, tokens: seq<Token>): (r: Result<ParseTree>)
    requires WellFormedTable(table)
    ensures r.Ok? <==> Outcome(table, tokens).Ok? && Outcome(table, tokens).value.index == |tokens|
    ensures r.Ok? ==> Yields(r.value, tokens)
    ensures r.Ok? ==> r.value.nodes[r.value.root].nodeLabel == Prog && r.value.nodes[r.value.root].parent == None
    ensures r == Fail(ExtraTokens) <==> StoppedEarly(table, tokens)
    ensures r.Fail? ==> Genuine(table, r.error) || StoppedEarly(table, tokens)
    ensures Outcome(table, tokens).Fail? ==> r == Fail(Outcome(table, tokens).error)
  {
    var input := InputTokens(tokens);
    match Outcome(table, tokens)
    case Fail(e) => Fail(e)
    case Ok(c) =>
      if c.index != |input| - 1 then Fail(ExtraTokens)
      else
        FinalYields(tokens, c);
        Ok(ParseTree(c.nodes, 0))
  }

  /** The parse with the initialiser's table: it succeeds exactly when the
      loop empties its stack at the end marker, and a returned tree yields
      the tokens under a root labelled `prog`; a failure is the loop's own
      genuine mismatch or missing key, or else tokens left over after the
      stack emptied. */
  function ParseSpec(tokens: seq<Token>): (r: Result<ParseTree>)
    ensures r.Ok? <==> (TableWellFormed();
      Outcome(ParsingTable(), tokens).Ok? && Outcome(ParsingTable(), tokens).value.index == |tokens|)
    ensures r.Ok? ==> Yields(r.value, tokens)
    ensures r.Ok? ==> r.value.nodes[r.value.root].nodeLabel == Prog && r.value.nodes[r.value.root].parent == None
    ensures r == Fail(ExtraTokens) <==> (TableWellFormed(); StoppedEarly(ParsingTable(), tokens))
    ensures r.Fail? ==> Genuine(ParsingTable(), r.error) || (TableWellFormed(); StoppedEarly(ParsingTable(), tokens))
    ensures (TableWellFormed();
      Outcome(ParsingTable(), tokens).Fail? ==> r == Fail(Outcome(ParsingTable(), tokens).error))
  {
    TableWellFormed();
    ParseWith(ParsingTable(), tokens)
  }
}
