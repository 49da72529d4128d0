# LL(1) syntactic analyser: a verified model

This project models the syntactic analyser of a small compiler for a teaching
subset of Java. The analyser is a table-driven LL(1) predictive parser, and
the model has the same two parts:

- **The parsing table.** `initialiseParsingTable` fills a map from
  (non-terminal, lookahead token kind) to a production with one `put` call per
  entry. Among them is the loop that puts `stat los` under every kind in the
  FIRST set of `los`. The model keeps the rows as data, in the order of the
  source (`TableRows`). It folds the puts into a map with `HashMap.put`
  semantics, where a later put replaces an earlier one (`ParsingTableInit`). It
  also has a method that issues the puts one at a time, proved equal to that
  fold. On this table the model proves the following by computation:
  - the table is LL(1): no key is put twice, so no put is overwritten;
  - productions are non-empty;
  - `epsilon` occurs only as the whole production `[epsilon]`;
  - no production mentions `EOF` or the `terminal` label;
  - a production's first symbol is the lookahead itself, or a non-terminal of
    lower level that has a real production for the same lookahead. This
    second case rules out left recursion.
- **The explicit-stack driver.** `parse` copies the tokens and appends one
  `EOF` token. It pushes `(prog, root)` and loops until the stack is empty:
  - it pops the top entry;
  - a terminal must equal the kind of the current token, which is then stored
    in the popped node and consumed;
  - a non-terminal is looked up with the current token's kind, and its node
    gets either one `epsilon` child, or one child per symbol of the
    production. For the latter, the children are created from the last symbol
    to the first, each is pushed with its symbol, and they are attached in
    production order.

  When the stack is empty, the tokens must be used up except for the `EOF`
  token.

  `ParseSteps` states this as a specification: `Step` is one turn of the loop,
  `Run` iterates it, and `ParseWith` wraps it. Termination is proved with a
  measure, so there is no fuel and no unbounded loop. The measure has three
  parts, compared in order:
  1. the tokens left;
  2. the number of stack entries, from the top, that the table would erase to
     `epsilon` under the current lookahead;
  3. the level of the first entry that it would not erase.

  `Analyser.SyntacticAnalyser.Parse` is the imperative loop. It works on a node
  store object (`ParseTrees.TreeNodes`) through `NewNode`, `AddChild` and
  `SetToken`, and is proved to return exactly `ParseWith` of its table.

The main theorem is in the contract of `ParseWith`, which carries over to
`Parse`. It holds for every token sequence. A successful parse returns a tree
with these properties:
- its root is labelled `prog` and has no parent;
- every child index is above its parent's index;
- its frontier is the childless nodes other than `epsilon` ones, read left to
  right. The frontier consists of exactly the caller's tokens, in order, each
  held by a leaf labelled `terminal`;
- hence every node under the root that is labelled by a non-terminal other
  than `epsilon` has at least one child (`NonTerminalsExpanded`).

A failure is one of three errors:
- a mismatch, whose expected kind differs from the found kind;
- a key missing from the table;
- tokens left over (`ExtraTokens`). This is returned exactly when the loop
  empties its stack before it reaches the `EOF` token. The tokens consumed up
  to then, a proper prefix of the caller's tokens, already form a complete
  tree under `prog` (`StoppedEarlyYieldsPrefix`).

The loop invariant behind this is that the root's frontier always consists of
the leaves of the tokens consumed so far, followed by the nodes of the stack
entries, top first, with no node twice. It also shows that the driver never
reads past the `EOF` token.

`Scenarios` proves how the initialiser's table handles concrete inputs. Each
lemma covers any tokens whose kinds are the ones given; the tokens' texts play
no part. The lemmas state:
- the smallest program, `public class Id { public static void main (
  String[] args ) { } }`, is accepted;
- any token after it is left over;
- `while ( true ;` fails with a mismatch that expects `RPAREN`, since
  `boolexpr` is erased under `;`;
- `while ( true {` fails with a missing key for `boolexpr` under `{`;
- the empty token list fails with a missing key for `prog` under `EOF`.

These proofs follow the stack's symbols and the token kinds alone, through
`SymbolRun`. `SymbolRunAgrees` proves that this symbol-level loop ends the
way the driver's loop does.

The model follows the code where a generic description of such a parser
differs from it:
- Only `(prog, root)` is pushed; no end-marker entry goes below it.
- A matched token is stored in the placeholder node labelled `terminal`, which
  was created when its parent was expanded. It is not attached as a new child.
- Success means that the index stops exactly at the appended `EOF` token.

## Model

| member | source | states |
|---|---|---|
| Analyser.SyntacticAnalyser.constructor | SyntacticAnalyser.java:5-9 | the analyser's table is the one the initialiser builds, and it is well formed |
| Analyser.SyntacticAnalyser.Parse | SyntacticAnalyser.java:11-91 | the loop returns exactly `ParseWith(parsingTable, tokens)`. On success that is a tree whose leaves hold the caller's tokens in order; otherwise it is the first error met |
| Analyser.SyntacticAnalyser.Advance | SyntacticAnalyser.java:28-80 | one turn of the loop (pop, then match or expand) changes the node store, the stack and the index exactly as `Step` does, or returns the error `Step` fails with |
| Analyser.SyntacticAnalyser.ExpandNode | SyntacticAnalyser.java:53-74 | expanding by a real production adds the children in creation order, appends their ids to the node in production order, and pushes the entries with the first symbol on top |
| Analyser.SyntacticAnalyser.CreateChildren | SyntacticAnalyser.java:54-69 | the reverse walk creates one node per symbol, last symbol first, and pushes `(symbol, node)` each time. It returns the node ids in production order, so that `(s1, c1)` ends up on top |
| Analyser.SyntacticAnalyser.AttachChildren | SyntacticAnalyser.java:72-74 | appending the children one at a time appends the whole list, in order, to the node's children |
| ParseTrees.TreeNodes.NewNode | SyntacticAnalyser.java:59-65 | a new node is appended to the store, childless and tokenless, with the given label and parent; it gets the next index, and no other node changes |
| ParseTrees.TreeNodes.AddChild | SyntacticAnalyser.java:51 | `addChild` appends one child id to one node, and no other node changes |
| ParseTrees.TreeNodes.SetToken | SyntacticAnalyser.java:37 | `setToken` sets the token of one node, and no other node changes |
| ParsingTableInit.InitialiseParsingTable | SyntacticAnalyser.java:93-408 | issuing every put in source order yields `ParsingTable()`, the fold of the puts with overwrite |
| ParsingTableInit.PutAll | SyntacticAnalyser.java:93-408 | a loop of `put` calls on an empty map yields the left fold of the puts, where a later put for a key wins |
| ParsingTableInit.NoKeyPutTwice | SyntacticAnalyser.java:97-407 | the LL(1) property: no (non-terminal, kind) key is put twice |
| ParsingTableInit.NoPutOverwritten | SyntacticAnalyser.java:97-407 | every production put is the one the table holds for its key, so no overwrite loses one |
| ParsingTableInit.PutsOfDistinct | SyntacticAnalyser.java:97-407 | puts issued row after row have distinct keys when the rows' non-terminals are distinct and each row's lookaheads are distinct |
| ParsingTableInit.TableMatchesRows | SyntacticAnalyser.java:97-407 | the table's lookup for (l, t) is the production listed for t in the row of l, or none when that row has no entry for t |
| ParsingTableInit.LookupWellFormed | SyntacticAnalyser.java:97-407 | every production found is well formed for its key (non-empty; either `[epsilon]` or free of `epsilon`, `EOF` and `terminal`; starts right). A key has a production other than `[epsilon]` if and only if its kind is in the FIRST set of its non-terminal |
| ParsingTableInit.NoEofInTable | SyntacticAnalyser.java:97-407 | no production in the table mentions `EOF` |
| ParsingTableInit.TableWellFormed | SyntacticAnalyser.java:93-408 | the initialiser's table satisfies `WellFormedTable`, the facts about the table that the driver relies on |
| TableRows.RowOKAt | SyntacticAnalyser.java:97-407 | every row puts each lookahead at most once, and each of its entries is well formed and agrees with the row's FIRST set |
| TableRows.LosRowFromFirstSet | SyntacticAnalyser.java:118-130 | the loop over `losFirstSet` puts `stat los` under each of its kinds, and these kinds are the FIRST set of `los` |
| ParseSteps.InputTokens | SyntacticAnalyser.java:13-14 | the copy is the caller's tokens followed by exactly one `EOF` token; the caller's sequence is a value and is not changed |
| ParseSteps.Step | SyntacticAnalyser.java:28-80 | a turn fails exactly when a terminal differs from the current kind (error `Mismatch(expected, found)`), or when a non-terminal's key is missing (error `NoProduction(label, found)`) |
| ParseSteps.TerminalStep | SyntacticAnalyser.java:34-42 | on a match, the token is stored in the popped node, the index rises by exactly 1, the entry is popped, and nothing else changes |
| ParseSteps.EpsilonStep | SyntacticAnalyser.java:49-51 | `[epsilon]` gives the node exactly one new `epsilon` child. Nothing is pushed, no token is consumed, and no other node changes |
| ParseSteps.ExpansionStep | SyntacticAnalyser.java:54-74 | for `s1..sn` the node gains n new distinct children in order, child i labelled `terminal` or `si` with the node as parent. The stack becomes `(s1,c1)..(sn,cn)` above the old rest, the index is kept, and no other node changes |
| ParseSteps.InitialInv | SyntacticAnalyser.java:13-25 | the start configuration (root `prog`, alone on the stack, index 0) satisfies the loop invariant |
| ParseSteps.TerminalPreserves | SyntacticAnalyser.java:34-38 | matching a terminal keeps the invariant: the matched leaf joins the consumed prefix of the frontier |
| ParseSteps.EpsilonPreserves | SyntacticAnalyser.java:49-51 | an epsilon expansion keeps the invariant: the node leaves the frontier |
| ParseSteps.ExpansionPreserves | SyntacticAnalyser.java:54-74 | a real expansion keeps the invariant: the node is replaced in the frontier by its new children, in production order, exactly as on the stack |
| ParseSteps.StepPreservesInv | SyntacticAnalyser.java:27-81 | with a well-formed table, every successful turn keeps the invariant, including the index staying before or at `EOF` |
| ParseSteps.StepDecreases | SyntacticAnalyser.java:27-81 | with a well-formed table, every successful turn decreases the termination measure (tokens left, erasable entries on top, level of the first other entry) |
| ParseSteps.Run | SyntacticAnalyser.java:27-81 | the loop ends. If it empties the stack, the invariant holds at the end; if it stops, the error is genuine |
| ParseSteps.RunStep | SyntacticAnalyser.java:27-81 | a failing turn ends the run with its error; otherwise the run continues from the next configuration, which keeps the invariant and is smaller in the measure |
| ParseSteps.FinalYields | SyntacticAnalyser.java:83-90 | with an empty stack and the index at `EOF`, the tree yields exactly the caller's tokens under a `prog` root |
| ParseSteps.ParseWith | SyntacticAnalyser.java:11-91 | success holds exactly when the loop empties its stack with the index at `EOF`, and the tree then yields exactly the caller's tokens, in order, as `terminal` leaves under a `prog` root without parent. `ExtraTokens` is returned exactly when the loop empties its stack before `EOF`. Any other failure is a genuine mismatch or missing key. The error of a failing run is returned unchanged, so a mismatch names the expected and found kinds and a missing key names its label and kind, as `Step` states |
| ParseSteps.StoppedEarlyYieldsPrefix | SyntacticAnalyser.java:83-87 | when the loop empties its stack before `EOF`, the tree built so far yields exactly the tokens consumed, a proper prefix of the caller's tokens |
| ParseSteps.NonTerminalsExpanded | SyntacticAnalyser.java:47-74 | in a tree that yields tokens, every node under the root labelled by a non-terminal other than `epsilon` has at least one child |
| ParseTrees.LeafOnFrontier | SyntacticAnalyser.java:47-74 | every childless node of a subtree that is not an `epsilon` node is on the subtree's frontier, the converse of `FrontierLeaves` |
| ParseTrees.LeafOnFrontierOf | SyntacticAnalyser.java:47-74 | the same for the subtrees of a list of children: such a node is on their concatenated frontiers |
| ParseSteps.ParseSpec | SyntacticAnalyser.java:11-91 | with the initialiser's table, a parse either yields the tokens under a `prog` root without parent, or fails. It fails with `ExtraTokens` exactly when the loop empties its stack before `EOF`; any other failure is a genuine mismatch or missing key. Success holds exactly when the loop empties its stack with the index at `EOF`, and the error of a failing run is returned unchanged |
| Scenarios.StepSymbols | SyntacticAnalyser.java:28-80 | a successful turn pops the top symbol and pushes the production's symbols unless it is `[epsilon]`; only a matched terminal advances the index |
| Scenarios.SymbolRunStep | SyntacticAnalyser.java:28-80 | one turn of the symbol-level loop stops with the driver's error, or continues from the symbols and index of the driver's next configuration |
| Scenarios.SymbolRunAgrees | SyntacticAnalyser.java:27-81 | when the symbol-level loop empties the stack, the driver's loop ends with the same index; when it stops, the driver's loop fails with the same error |
| Scenarios.InputKinds | SyntacticAnalyser.java:13-14 | the input's kinds are the caller's kinds followed by `EOF` |
| Scenarios.MatchSymbols | SyntacticAnalyser.java:34-38 | terminals on the stack that equal the next kinds are all matched, one token each |
| Scenarios.TerminalSymbols | SyntacticAnalyser.java:34-38 | a terminal equal to the current kind is popped and its token consumed |
| Scenarios.ExpandSymbols | SyntacticAnalyser.java:44-74 | a non-terminal with an entry is replaced by its production, or erased by `[epsilon]`, and no token is consumed |
| Scenarios.HeaderSymbols | SyntacticAnalyser.java:97-114 | `prog` expands under `public`, and the 13 kinds before the main body's statements are matched, leaving `los } }` |
| Scenarios.MinimalSymbols | SyntacticAnalyser.java:97-133 | on the smallest program, `los` is erased under `}` and both `}` are matched: the stack empties at index 15 |
| Scenarios.WhileExpandSymbols | SyntacticAnalyser.java:128-155 | under `while`, `los`, `stat` and `whilestat` expand in turn to the `while` statement's production |
| Scenarios.WhileOpenSymbols | SyntacticAnalyser.java:34-38 | `while (` is matched |
| Scenarios.WhileConditionSymbols | SyntacticAnalyser.java:315 | `relexpr` expands to `true` under `true`, which is then matched, leaving `boolexpr` on top |
| Scenarios.WhileSymbols | SyntacticAnalyser.java:97-155 | after the header and `while ( true`, `boolexpr` is on top with the condition's `)` below it, at index 16 |
| Scenarios.MissingRparenSymbols | SyntacticAnalyser.java:34-42 | with `boolexpr` erased under `;`, the `)` is compared with `;` and the run stops with `Mismatch(RPAREN, SEMICOLON)` |
| Scenarios.MissingRparenBraceSymbols | SyntacticAnalyser.java:76-79 | without an entry for `boolexpr` under `{`, the run stops with `NoProduction(BoolExpr, LBRACE)` |
| Scenarios.StoppedParse | SyntacticAnalyser.java:11-91 | a symbol-level run from `prog` that stops with an error is a parse that fails with that error |
| Scenarios.EmptiedParse | SyntacticAnalyser.java:83-90 | a symbol-level run from `prog` that empties the stack at the number of tokens is a success, and one that empties it earlier is `ExtraTokens` |
| Scenarios.MinimalParse | SyntacticAnalyser.java:11-91 | a well-formed table with the entries the smallest program uses accepts exactly its 15 tokens, and gives `ExtraTokens` for any longer input that starts with them |
| Scenarios.EmptyParse | SyntacticAnalyser.java:44-79 | a well-formed table without `(prog, EOF)` rejects the empty token list with that missing key |
| Scenarios.MissingRparenParse | SyntacticAnalyser.java:11-91 | `while ( true ;` after the header fails with `Mismatch(RPAREN, SEMICOLON)` |
| Scenarios.MissingRparenBraceParse | SyntacticAnalyser.java:11-91 | `while ( true {` after the header fails with `NoProduction(BoolExpr, LBRACE)` |
| Scenarios.TableHasAt | SyntacticAnalyser.java:97-407 | entry k of a row is in the table under its key, with its production |
| Scenarios.MinimalEntries | SyntacticAnalyser.java:97-133 | the table has the `prog` production under `public`, and erases `los` under `}` |
| Scenarios.WhileEntries | SyntacticAnalyser.java:97-315 | the table has the entries a `while ( true` run uses: `prog`, `los`, `stat` and `whilestat` under their first kinds, and `relexpr` under `true` |
| Scenarios.BoolExprErased | SyntacticAnalyser.java:290 | the table erases `boolexpr` under `;` |
| Scenarios.BoolExprRowWithoutBrace | SyntacticAnalyser.java:286-291 | the row of `boolexpr` has no entry for `{` |
| Scenarios.BoolExprNotBeforeBrace | SyntacticAnalyser.java:286-291 | the table has no key `(boolexpr, LBRACE)` |
| Scenarios.ProgRowWithoutEof | SyntacticAnalyser.java:97-114 | the row of `prog` has no entry for `EOF` |
| Scenarios.ProgNotAtEof | SyntacticAnalyser.java:97-114 | the table has no key `(prog, EOF)` |
| Scenarios.MinimalProgramAccepted | SyntacticAnalyser.java:11-91 | tokens whose kinds are the smallest program are parsed successfully |
| Scenarios.TokensAfterProgramLeftOver | SyntacticAnalyser.java:83-87 | tokens after a complete smallest program make the parse fail with `ExtraTokens` |
| Scenarios.WhileWithoutRparenMismatch | SyntacticAnalyser.java:34-42 | a `while` condition followed by `;` instead of `)` fails with a mismatch that expects `RPAREN` and found `SEMICOLON` |
| Scenarios.WhileWithoutRparenBeforeBrace | SyntacticAnalyser.java:76-79 | a `while` condition followed by `{` instead of `)` fails with the missing key `(boolexpr, LBRACE)` |
| Scenarios.EmptyInputRejected | SyntacticAnalyser.java:44-79 | the empty token list fails with the missing key `(prog, EOF)` |

## Left out

- `TreeNode.java`, `ParseTree.java`, `Token.java` and `SyntaxException.java` are not part of this model. The model takes them to behave as follows:
  - a tree node is a label, a parent, a list of children and an optional token;
  - `addChild` appends to the list, and `setToken` sets the token;
  - a token is a kind with an optional text;
  - an exception carries one of the three errors.
- Object references are modelled as indices into a node store held by one `TreeNodes` object. A parse tree is the store with its root index. The Java heap and its aliasing are left out.
- The message strings of the exceptions are left out; each error is modelled as the kinds or labels it names.
- Exceptions are modelled as a `Fail` result. `Advance` returns the error, and `Parse` returns it at once.
- The static field and the static initialiser are modelled as a `const` field filled by the constructor. The specification functions take the table as a parameter.
- `Pair` is modelled as a tuple with component-wise equality; its `hashCode` and `toString` and the `HashMap` internals are left out.
- `Runner.java` is left out: it is a demo entry point that calls the lexical analyser and prints the result.
- The contents of `Token.TokenType` and `TreeNode.Label` are not part of this model. Their members are the names the table and the driver use.
- SymbolRun: the symbol-level loop has a bound on its turns, used only to follow concrete runs. A run that needs more turns than its bound ends `Unfinished`, and `SymbolRunAgrees` promises nothing about it. The driver's own loop (`Run`, `Parse`) has no such bound.
- MinimalProgramAccepted: states that the parse succeeds and, through `ParseSpec`, that the tree yields the tokens. It does not state the tree's shape, such as the single `epsilon` child of the `los` node; `ParseSteps.EpsilonStep` states that child for every turn that erases a non-terminal.
