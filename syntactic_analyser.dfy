/**
 * The syntactic analyser: the parsing table built once by the initialiser,
 * and `Parse`, the explicit-stack loop that builds the parse tree node by
 * node, proved to compute `ParseWith` of its table.
 */
module Analyser {
  import opened Grammar
  import opened TableRows
  import opened ParsingTableInit
  import opened ParseTrees
  import opened ParseSteps

  class SyntacticAnalyser {
    /** The parsing table, filled once when the analyser is set up. */
    const parsingTable: map<Key, Production>

    /** Runs the table initialiser. */
    constructor()
      ensures parsingTable == ParsingTable()
      ensures WellFormedTable(parsingTable)
    {
      var table := InitialiseParsingTable();
      TableWellFormed();
      parsingTable := table;
    }

    /**
     * Parses `tokens`: copies them with the end marker appended, then pops
     * one stack entry per iteration, matching terminals against the current
     * token and expanding non-terminals by the table, until the stack is
     * empty or an error stops it; rejects the input when tokens are left.
     */
    method Parse(tokens: seq<Token>) returns (result: Result<ParseTree>)
      requires WellFormedTable(parsingTable)
      ensures result == ParseWith(parsingTable, tokens)
    {
      var inputTokens := tokens + [EofToken];
      var tree := new TreeNodes();
      var root := tree.NewNode(Prog, None);
      var stack: seq<Entry> := [(N(Prog), root)];
      var index := 0;
      InitialInv(inputTokens);
      assert Config(tree.nodes, stack, index) == Initial();
      while stack != []
        invariant Inv(inputTokens, Config(tree.nodes, stack, index))
        invariant Run(parsingTable, inputTokens, Config(tree.nodes, stack, index))
               == Run(parsingTable, inputTokens, Initial())
        decreases |inputTokens| - index,
          LeadingErased(parsingTable, stack, inputTokens[index].kind),
          HeadLevel(parsingTable, stack, inputTokens[index].kind)
      {
        RunStep(parsingTable, inputTokens, Config(tree.nodes, stack, index));
        var error;
        stack, index, error := Advance(tree, inputTokens, stack, index);
        if error.Some? {
          return Fail(error.value);
        }
      }
      if index != |inputTokens| - 1 {
        return Fail(ExtraTokens);
      }
      return Ok(ParseTree(tree.nodes, root));
    }

    /**
     * One turn of the loop: pops the top entry; a terminal must equal the
     * kind of the current token, which is then stored in its node and
     * consumed; a non-terminal is looked up with the current token's kind
     * and its node expanded by the production found. The error the loop
     * throws is returned instead.
     */
    method Advance(tree: TreeNodes, inputTokens: seq<Token>, stack: seq<Entry>, index: nat)
      returns (stack': seq<Entry>, index': nat, error: Option<SyntaxError>)
      requires Ready(inputTokens, Config(tree.nodes, stack, index))
      modifies tree
      ensures error.Some? ==>
        Step(parsingTable, inputTokens, Config(old(tree.nodes), stack, index)) == Fail(error.value)
      ensures error.None? ==>
        Step(parsingTable, inputTokens, Config(old(tree.nodes), stack, index)) == Ok(Config(tree.nodes, stack', index'))
    {
      var top := stack[0];
      stack', index', error := stack[1..], index, None;
      var symbol, node := top.0, top.1;
      var currentToken := inputTokens[index];
      if !symbol.IsVariable() {
        if symbol.kind == currentToken.kind {
          tree.SetToken(node, currentToken);
          index' := index + 1;
        } else {
          error := Some(Mismatch(symbol.kind, currentToken.kind));
        }
      } else {
        var key := (symbol.name, currentToken.kind);
        if key in parsingTable {
          var production := parsingTable[key];
          if |production| == 1 && production[0] == N(Epsilon) {
            var epsilonNode := tree.NewNode(Epsilon, Some(node));
            tree.AddChild(node, epsilonNode);
          } else {
            stack' := ExpandNode(tree, node, production, stack');
          }
        } else {
          error := Some(NoProduction(symbol.name, currentToken.kind));
        }
      }
    }

    /**
     * Expands `node` by the non-epsilon production `p`: creates and pushes
     * the children, then appends them to `node` in the order of `p`.
     */
    method ExpandNode(tree: TreeNodes, node: nat, p: Production, stack: seq<Entry>) returns (stack': seq<Entry>)
      requires node < |tree.nodes|
      modifies tree
      ensures tree.nodes == WithChildren(old(tree.nodes) + ChildNodes(p, node), node, ChildIds(|old(tree.nodes)|, |p|))
      ensures stack' == Pushed(p, |old(tree.nodes)|) + stack
    {
      var children;
      stack', children := CreateChildren(tree, node, p, stack);
      AttachChildren(tree, node, children);
    }

    /**
     * Walks `p` from its last symbol to its first, creating a child node of
     * `node` per symbol and pushing the symbol with it, so that the first
     * symbol ends on top; returns the new nodes in the order of `p`.
     */
    method CreateChildren(tree: TreeNodes, node: nat, p: Production, stack: seq<Entry>)
      returns (stack': seq<Entry>, children: seq<nat>)
      modifies tree
      ensures tree.nodes == old(tree.nodes) + ChildNodes(p, node)
      ensures stack' == Pushed(p, |old(tree.nodes)|) + stack
      ensures children == ChildIds(|old(tree.nodes)|, |p|)
    {
      ghost var nodes0 := tree.nodes;
      var base, n := |tree.nodes|, |p|;
      children := [];
      stack' := stack;
      var i := n;
      while i > 0
        invariant 0 <= i <= n
        invariant tree.nodes == nodes0 + ChildNodes(p, node)[..n - i]
        invariant stack' == Pushed(p, base)[i..] + stack
        invariant children == ChildIds(base, n)[i..]
      {
        i := i - 1;
        var prodSymbol := p[i];
        var childNode;
        if !prodSymbol.IsVariable() {
          childNode := tree.NewNode(Terminal, Some(node));
        } else {
          childNode := tree.NewNode(prodSymbol.name, Some(node));
        }
        stack' := [(prodSymbol, childNode)] + stack';
        children := [childNode] + children;
        ChildNodesSnoc(p, node, n - 1 - i);
        PushedCons(p, base, i);
        ChildIdsCons(base, n, i);
      }
      assert ChildNodes(p, node)[..n] == ChildNodes(p, node);
    }

    /** Appends `children`, one at a time and in order, to the children of `node`. */
    method AttachChildren(tree: TreeNodes, node: nat, children: seq<nat>)
      requires node < |tree.nodes|
      modifies tree
      ensures tree.nodes == WithChildren(old(tree.nodes), node, children)
    {
      ghost var nodes1 := tree.nodes;
      WithNoChildren(nodes1, node);
      for j := 0 to |children|
        invariant tree.nodes == WithChildren(nodes1, node, children[..j])
      {
        WithChildrenSnoc(nodes1, node, children[..j], children[j]);
        assert children[..j + 1] == children[..j] + [children[j]];
        tree.AddChild(node, children[j]);
      }
      assert children[..|children|] == children;
    }
  }
}
