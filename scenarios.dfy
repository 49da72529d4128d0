/**
 * Concrete parses with the initialiser's table: the smallest program is
 * accepted, a token after it is left over, a `while` condition without its
 * closing parenthesis is rejected, and so is the empty token list. The runs
 * are built from three moves over any well-formed table (match terminals,
 * expand, erase), so that only the entries a run uses are looked up in the
 * literal table.
 */
module Scenarios {
  import opened Grammar
  import opened TableRows
  import opened ParsingTableInit
  import opened ParseTrees
  import opened ParseSteps

  /** The kinds of a token sequence. */
  function Kinds(ts: seq<Token>): seq<TokenType> {
    seq(|ts|, i requires 0 <= i < |ts| => ts[i].kind)
  }

  /** The symbols of the stack entries, top first. */
  function Symbols(st: seq<Entry>): seq<Symbol> {
    seq(|st|, j requires 0 <= j < |st| => st[j].0)
  }

  /** `public class Id { public static void main ( String[] args ) {`: the
      kinds before the statements of the main body. */
  const Header: seq<TokenType> :=
    [PUBLIC, CLASS, ID, LBRACE, PUBLIC, STATIC, VOID, MAIN, LPAREN, STRINGARR, ARGS, RPAREN, LBRACE]

  /** The smallest program: a main body without statements. */
  const MinimalProgram: seq<TokenType> := Header + [RBRACE, RBRACE]

  /** A main body that starts `while ( true ;`, the condition's `)` missing. */
  const WhileWithoutRparen: seq<TokenType> := Header + [WHILE, LPAREN, TRUE, SEMICOLON]

  /** A main body that starts `while ( true {`, the condition's `)` missing. */
  const WhileWithoutRparenBrace: seq<TokenType> := Header + [WHILE, LPAREN, TRUE, LBRACE]

  // ---------------------------------------------------------------------------
  // The loop on symbols and kinds only

  /** How a run on symbols ends: the stack emptied at a token index, an
      error stopped it, or the turns allowed ran out first. */
  datatype Verdict = Emptied(index: nat) | Stopped(error: SyntaxError) | Unfinished

  /**
   * The driver's loop with the nodes left out, for at most `fuel` turns:
   * what it pops, compares, looks up and pushes depends only on the stack's
   * symbols, the token kinds and the index. The fuel only bounds how far a
   * concrete run is followed; `Run` itself needs none.
   */
  function SymbolRun(table: map<Key, Production>, kinds: seq<TokenType>, syms: seq<Symbol>, index: nat, fuel: nat): Verdict
    decreases fuel
  {
    if syms == [] then Emptied(index)
    else if fuel == 0 || |kinds| <= index then Unfinished
    else
      var t := kinds[index];
      match syms[0]
      case T(k) =>
        if k == t then SymbolRun(table, kinds, syms[1..], index + 1, fuel - 1)
        else Stopped(Mismatch(k, t))
      case N(l) =>
        if (l, t) !in table then Stopped(NoProduction(l, t))
        else
          var p := table[(l, t)];
          SymbolRun(table, kinds, (if IsEpsilonProduction(p) then [] else p) + syms[1..], index, fuel - 1)
  }

  /** A successful step pops the top symbol, pushes the production's symbols
      for a non-terminal that is not erased, and advances the index past a
      matched terminal. */
  lemma StepSymbols(table: map<Key, Production>, input: seq<Token>, c: Config)
    requires Ready(input, c) && Step(table, input, c).Ok?
    ensures var c', t := Step(table, input, c).value, input[c.index].kind;
      match c.stack[0].0
      case T(k) => Symbols(c'.stack) == Symbols(c.stack[1..]) && c'.index == c.index + 1
      case N(l) =>
        var p := table[(l, t)];
        Symbols(c'.stack) == (if IsEpsilonProduction(p) then [] else p) + Symbols(c.stack[1..]) &&
        c'.index == c.index
  {
    var t := input[c.index].kind;
    if c.stack[0].0.N? {
      var p := table[(c.stack[0].0.name, t)];
      if !IsEpsilonProduction(p) {
        var c' := Step(table, input, c).value;
        assert c'.stack == Pushed(p, |c.nodes|) + c.stack[1..];
        assert Symbols(c'.stack) == p + Symbols(c.stack[1..]);
      }
    }
  }

  /** One turn of the loop on symbols does what one step of the driver does
      to the stack's symbols and the index, or stops with its error. */
  lemma SymbolRunStep(table: map<Key, Production>, input: seq<Token>, c: Config, fuel: nat)
    requires Ready(input, c) && fuel > 0
    ensures Step(table, input, c).Fail? ==>
      SymbolRun(table, Kinds(input), Symbols(c.stack), c.index, fuel) == Stopped(Step(table, input, c).error)
    ensures Step(table, input, c).Ok? ==>
      var c' := Step(table, input, c).value;
      SymbolRun(table, Kinds(input), Symbols(c.stack), c.index, fuel) ==
      SymbolRun(table, Kinds(input), Symbols(c'.stack), c'.index, fuel - 1)
  {
    assert Symbols(c.stack) == [c.stack[0].0] + Symbols(c.stack[1..]);
    assert Kinds(input)[c.index] == input[c.index].kind;
    if Step(table, input, c).Ok? {
      StepSymbols(table, input, c);
    }
  }

  /**
   * The loop on symbols agrees with the driver's loop: when it empties the
   * stack, `Run` returns a configuration with the same index, and when it
   * stops, `Run` fails with the same error.
   */
  lemma {:induction false} SymbolRunAgrees(table: map<Key, Production>, input: seq<Token>, c: Config, fuel: nat)
    requires WellFormedTable(table) && Inv(input, c)
    ensures var v := SymbolRun(table, Kinds(input), Symbols(c.stack), c.index, fuel);
      (v.Emptied? ==> Run(table, input, c).Ok? && Run(table, input, c).value.index == v.index) &&
      (v.Stopped? ==> Run(table, input, c) == Fail(v.error))
    decreases fuel
  {
    if c.stack != [] && fuel > 0 {
      RunStep(table, input, c);
      SymbolRunStep(table, input, c, fuel);
      if Step(table, input, c).Ok? {
        SymbolRunAgrees(table, input, Step(table, input, c).value, fuel - 1);
      }
    }
  }

  /** The tokens' kinds before the end marker are the caller's kinds. */
  lemma InputKinds(tokens: seq<Token>)
    ensures Kinds(InputTokens(tokens)) == Kinds(tokens) + [EOF]
  {
  }

  /** The terminal symbols of a sequence of kinds. */
  function Terminals(ks: seq<TokenType>): seq<Symbol> {
    seq(|ks|, i requires 0 <= i < |ks| => T(ks[i]))
  }

  /** Terminals on top of the stack that equal the next kinds are matched
      one turn each. */
  lemma {:induction false} MatchSymbols(table: map<Key, Production>, kinds: seq<TokenType>, syms: seq<Symbol>,
                                        index: nat, fuel: nat, m: nat)
    requires m <= |syms| && m <= fuel && index + m <= |kinds|
    requires syms[..m] == Terminals(kinds[index..index + m])
    ensures SymbolRun(table, kinds, syms, index, fuel) == SymbolRun(table, kinds, syms[m..], index + m, fuel - m)
    decreases m
  {
    if m > 0 {
      assert syms[0] == syms[..m][0];
      assert syms[1..][..m - 1] == syms[..m][1..];
      assert syms[1..][m - 1..] == syms[m..];
      MatchSymbols(table, kinds, syms[1..], index + 1, fuel - 1, m - 1);
    }
  }

  /** A terminal on top that equals the current kind is matched. */
  lemma TerminalSymbols(table: map<Key, Production>, kinds: seq<TokenType>, syms: seq<Symbol>, index: nat, fuel: nat)
    requires syms != [] && index < |kinds| && 0 < fuel && syms[0] == T(kinds[index])
    ensures SymbolRun(table, kinds, syms, index, fuel) == SymbolRun(table, kinds, syms[1..], index + 1, fuel - 1)
  {
  }

  /** A non-terminal on top is replaced by its production's symbols, or only
      popped when the production is the epsilon one. */
  lemma ExpandSymbols(table: map<Key, Production>, kinds: seq<TokenType>, syms: seq<Symbol>, index: nat, fuel: nat)
    requires syms != [] && syms[0].N? && index < |kinds| && 0 < fuel && (syms[0].name, kinds[index]) in table
    ensures var p := table[(syms[0].name, kinds[index])];
      SymbolRun(table, kinds, syms, index, fuel) ==
      SymbolRun(table, kinds, (if IsEpsilonProduction(p) then [] else p) + syms[1..], index, fuel - 1)
  {
  }

  /** The production of `prog`: the header's terminals, `los` and two `}`. */
  lemma ProgShape()
    ensures ProgRow()[0].1 == Terminals(Header) + [N(Los), T(RBRACE), T(RBRACE)]
  {
  }

  /** The production of `whilestat`: `while (`, the condition, then the
      `)` and the braced body. */
  lemma WhileShape()
    ensures WhileStatRow()[0].1 ==
      Terminals([WHILE, LPAREN]) + [N(RelExpr), N(BoolExpr), T(RPAREN), T(LBRACE), N(Los), T(RBRACE)]
  {
  }

  // ---------------------------------------------------------------------------
  // Concrete runs over any table with the entries they use

  /** On kinds that start with the header, the loop expands `prog` and
      matches the 13 kinds of the header, leaving `los` and the two closing
      braces at index 13. */
  lemma HeaderSymbols(table: map<Key, Production>, kinds: seq<TokenType>, fuel: nat)
    requires |kinds| > 13 && kinds[..13] == Header && 14 <= fuel
    requires (Prog, PUBLIC) in table && table[(Prog, PUBLIC)] == ProgRow()[0].1
    ensures SymbolRun(table, kinds, [N(Prog)], 0, fuel) ==
      SymbolRun(table, kinds, [N(Los), T(RBRACE), T(RBRACE)], 13, fuel - 14)
  {
    var prog := ProgRow()[0].1;
    ProgShape();
    assert kinds[0] == kinds[..13][0] == PUBLIC;
    ExpandSymbols(table, kinds, [N(Prog)], 0, fuel);
    assert prog + [N(Prog)][1..] == prog;
    assert prog[..13] == Terminals(Header) && kinds[0..13] == kinds[..13];
    MatchSymbols(table, kinds, prog, 0, fuel - 1, 13);
    assert prog[13..] == [N(Los), T(RBRACE), T(RBRACE)];
  }

  /** On kinds that start with the smallest program, the loop expands
      `prog`, matches the header, erases `los` under `}` and matches the two
      `}`: the stack empties at index 15. */
  lemma MinimalSymbols(table: map<Key, Production>, kinds: seq<TokenType>)
    requires |kinds| > 15 && kinds[..13] == Header && kinds[13] == RBRACE && kinds[14] == RBRACE
    requires (Prog, PUBLIC) in table && table[(Prog, PUBLIC)] == ProgRow()[0].1
    requires (Los, RBRACE) in table && IsEpsilonProduction(table[(Los, RBRACE)])
    ensures SymbolRun(table, kinds, [N(Prog)], 0, 17) == Emptied(15)
  {
    var s := [N(Los), T(RBRACE), T(RBRACE)];
    HeaderSymbols(table, kinds, 17);
    ExpandSymbols(table, kinds, s, 13, 3);
    assert [] + s[1..] == [T(RBRACE), T(RBRACE)];
    TerminalSymbols(table, kinds, [T(RBRACE), T(RBRACE)], 13, 2);
    assert [T(RBRACE), T(RBRACE)][1..] == [T(RBRACE)];
    TerminalSymbols(table, kinds, [T(RBRACE)], 14, 1);
    assert [T(RBRACE)][1..] == [];
  }

  /** Under `while`, `los` expands to `stat los`, `stat` to `whilestat` and
      `whilestat` to its production: three turns that consume nothing. */
  lemma WhileExpandSymbols(table: map<Key, Production>, kinds: seq<TokenType>)
    requires |kinds| > 16 && kinds[13] == WHILE
    requires (Los, WHILE) in table && table[(Los, WHILE)] == [N(Stat), N(Los)]
    requires (Stat, WHILE) in table && table[(Stat, WHILE)] == [N(WhileStat)]
    requires (WhileStat, WHILE) in table && table[(WhileStat, WHILE)] == WhileStatRow()[0].1
    ensures SymbolRun(table, kinds, [N(Los), T(RBRACE), T(RBRACE)], 13, 9) ==
      SymbolRun(table, kinds, [T(WHILE), T(LPAREN), N(RelExpr)] + WhileTail, 13, 6)
  {
    var rest := [N(Los), T(RBRACE), T(RBRACE)];
    ExpandSymbols(table, kinds, rest, 13, 9);
    assert [N(Stat), N(Los)] + rest[1..] == [N(Stat)] + rest;
    ExpandSymbols(table, kinds, [N(Stat)] + rest, 13, 8);
    assert [N(WhileStat)] + ([N(Stat)] + rest)[1..] == [N(WhileStat)] + rest;
    ExpandSymbols(table, kinds, [N(WhileStat)] + rest, 13, 7);
    WhileShape();
    assert WhileStatRow()[0].1 + ([N(WhileStat)] + rest)[1..] == [T(WHILE), T(LPAREN), N(RelExpr)] + WhileTail;
  }

  /** `while (` is matched: two turns that consume two tokens. */
  lemma WhileOpenSymbols(table: map<Key, Production>, kinds: seq<TokenType>)
    requires |kinds| > 16 && kinds[13] == WHILE && kinds[14] == LPAREN
    ensures SymbolRun(table, kinds, [T(WHILE), T(LPAREN), N(RelExpr)] + WhileTail, 13, 6) ==
      SymbolRun(table, kinds, [N(RelExpr)] + WhileTail, 15, 4)
  {
    var s := [T(WHILE), T(LPAREN), N(RelExpr)] + WhileTail;
    TerminalSymbols(table, kinds, s, 13, 6);
    assert s[1..] == [T(LPAREN), N(RelExpr)] + WhileTail;
    TerminalSymbols(table, kinds, s[1..], 14, 5);
    assert s[1..][1..] == [N(RelExpr)] + WhileTail;
  }

  /** `relexpr` expands to `true` under `true`, and `true` is matched: two
      turns that consume one token. */
  lemma WhileConditionSymbols(table: map<Key, Production>, kinds: seq<TokenType>)
    requires |kinds| > 16 && kinds[15] == TRUE
    requires (RelExpr, TRUE) in table && table[(RelExpr, TRUE)] == [T(TRUE)]
    ensures SymbolRun(table, kinds, [N(RelExpr)] + WhileTail, 15, 4) ==
      SymbolRun(table, kinds, WhileTail, 16, 2)
  {
    ExpandSymbols(table, kinds, [N(RelExpr)] + WhileTail, 15, 4);
    assert [T(TRUE)] + ([N(RelExpr)] + WhileTail)[1..] == [T(TRUE)] + WhileTail;
    TerminalSymbols(table, kinds, [T(TRUE)] + WhileTail, 15, 3);
    assert ([T(TRUE)] + WhileTail)[1..] == WhileTail;
  }

  /** The symbols below the condition of `while ( true`: `boolexpr`, the
      rest of the `while` statement, the rest of `los`, and the two `}`. */
  const WhileTail: seq<Symbol> :=
    [N(BoolExpr), T(RPAREN), T(LBRACE), N(Los), T(RBRACE), N(Los), T(RBRACE), T(RBRACE)]

  /** On kinds that start with the header and `while ( true`, the loop
      expands `prog`, matches the header, expands `los`, `stat` and
      `whilestat`, matches `while (`, expands `relexpr` to `true` and matches
      it: 21 turns leave `boolexpr` on top, with the condition's `)` below
      it, at index 16. */
  lemma WhileSymbols(table: map<Key, Production>, kinds: seq<TokenType>)
    requires |kinds| > 16 && kinds[..13] == Header && kinds[13] == WHILE && kinds[14] == LPAREN && kinds[15] == TRUE
    requires (Prog, PUBLIC) in table && table[(Prog, PUBLIC)] == ProgRow()[0].1
    requires (Los, WHILE) in table && table[(Los, WHILE)] == [N(Stat), N(Los)]
    requires (Stat, WHILE) in table && table[(Stat, WHILE)] == [N(WhileStat)]
    requires (WhileStat, WHILE) in table && table[(WhileStat, WHILE)] == WhileStatRow()[0].1
    requires (RelExpr, TRUE) in table && table[(RelExpr, TRUE)] == [T(TRUE)]
    ensures SymbolRun(table, kinds, [N(Prog)], 0, 23) == SymbolRun(table, kinds, WhileTail, 16, 2)
  {
    HeaderSymbols(table, kinds, 23);
    WhileExpandSymbols(table, kinds);
    WhileOpenSymbols(table, kinds);
    WhileConditionSymbols(table, kinds);
  }

  /** Followed by `;`, the condition's `boolexpr` is erased and `)` is
      compared with `;`: the run stops with a mismatch naming `RPAREN`. */
  lemma MissingRparenSymbols(table: map<Key, Production>, kinds: seq<TokenType>)
    requires |kinds| > 16 && kinds[..13] == Header && kinds[13] == WHILE && kinds[14] == LPAREN && kinds[15] == TRUE
    requires kinds[16] == SEMICOLON
    requires (Prog, PUBLIC) in table && table[(Prog, PUBLIC)] == ProgRow()[0].1
    requires (Los, WHILE) in table && table[(Los, WHILE)] == [N(Stat), N(Los)]
    requires (Stat, WHILE) in table && table[(Stat, WHILE)] == [N(WhileStat)]
    requires (WhileStat, WHILE) in table && table[(WhileStat, WHILE)] == WhileStatRow()[0].1
    requires (RelExpr, TRUE) in table && table[(RelExpr, TRUE)] == [T(TRUE)]
    requires (BoolExpr, SEMICOLON) in table && IsEpsilonProduction(table[(BoolExpr, SEMICOLON)])
    ensures SymbolRun(table, kinds, [N(Prog)], 0, 23) == Stopped(Mismatch(RPAREN, SEMICOLON))
  {
    var s := WhileTail;
    WhileSymbols(table, kinds);
    ExpandSymbols(table, kinds, s, 16, 2);
    assert [] + s[1..] == s[1..] && s[1..][0] == T(RPAREN);
  }

  /** Followed by `{`, the condition's `boolexpr` has no entry: the run
      stops before `)` is compared. */
  lemma MissingRparenBraceSymbols(table: map<Key, Production>, kinds: seq<TokenType>)
    requires |kinds| > 16 && kinds[..13] == Header && kinds[13] == WHILE && kinds[14] == LPAREN && kinds[15] == TRUE
    requires kinds[16] == LBRACE
    requires (Prog, PUBLIC) in table && table[(Prog, PUBLIC)] == ProgRow()[0].1
    requires (Los, WHILE) in table && table[(Los, WHILE)] == [N(Stat), N(Los)]
    requires (Stat, WHILE) in table && table[(Stat, WHILE)] == [N(WhileStat)]
    requires (WhileStat, WHILE) in table && table[(WhileStat, WHILE)] == WhileStatRow()[0].1
    requires (RelExpr, TRUE) in table && table[(RelExpr, TRUE)] == [T(TRUE)]
    requires (BoolExpr, LBRACE) !in table
    ensures SymbolRun(table, kinds, [N(Prog)], 0, 23) == Stopped(NoProduction(BoolExpr, LBRACE))
  {
    WhileSymbols(table, kinds);
  }

  // ---------------------------------------------------------------------------
  // The same runs through the driver's loop

  /** A symbol-level run from `prog` that stops with an error is a parse
      that fails with that error. */
  lemma StoppedParse(table: map<Key, Production>, tokens: seq<Token>, fuel: nat, e: SyntaxError)
    requires WellFormedTable(table)
    requires SymbolRun(table, Kinds(InputTokens(tokens)), [N(Prog)], 0, fuel) == Stopped(e)
    ensures ParseWith(table, tokens) == Fail(e)
  {
    InitialInv(InputTokens(tokens));
    assert Symbols(Initial().stack) == [N(Prog)];
    SymbolRunAgrees(table, InputTokens(tokens), Initial(), fuel);
  }

  /** A symbol-level run from `prog` that empties the stack at `index` is
      a successful parse when `index` is the number of tokens, and a parse
      with tokens left over when it is smaller. */
  lemma EmptiedParse(table: map<Key, Production>, tokens: seq<Token>, fuel: nat, index: nat)
    requires WellFormedTable(table)
    requires SymbolRun(table, Kinds(InputTokens(tokens)), [N(Prog)], 0, fuel) == Emptied(index)
    ensures index == |tokens| ==> ParseWith(table, tokens).Ok?
    ensures index < |tokens| ==> ParseWith(table, tokens) == Fail(ExtraTokens)
  {
    InitialInv(InputTokens(tokens));
    assert Symbols(Initial().stack) == [N(Prog)];
    SymbolRunAgrees(table, InputTokens(tokens), Initial(), fuel);
  }

  /** A well-formed table with the entries the smallest program uses
      accepts it, and rejects any tokens after it as left over. */
  lemma MinimalParse(table: map<Key, Production>, tokens: seq<Token>)
    requires WellFormedTable(table)
    requires (Prog, PUBLIC) in table && table[(Prog, PUBLIC)] == ProgRow()[0].1
    requires (Los, RBRACE) in table && IsEpsilonProduction(table[(Los, RBRACE)])
    requires |tokens| >= 15 && Kinds(tokens[..15]) == MinimalProgram
    ensures |tokens| == 15 ==> ParseWith(table, tokens).Ok?
    ensures |tokens| > 15 ==> ParseWith(table, tokens) == Fail(ExtraTokens)
  {
    var kinds := Kinds(InputTokens(tokens));
    InputKinds(tokens);
    assert kinds[..15] == Kinds(tokens[..15]);
    assert kinds[..13] == kinds[..15][..13];
    MinimalSymbols(table, kinds);
    EmptiedParse(table, tokens, 17, 15);
  }

  /** A well-formed table without an entry for `prog` under `EOF` rejects
      the empty token list at the first turn. */
  lemma EmptyParse(table: map<Key, Production>)
    requires WellFormedTable(table) && (Prog, EOF) !in table
    ensures ParseWith(table, []) == Fail(NoProduction(Prog, EOF))
  {
    var kinds := Kinds(InputTokens([]));
    InputKinds([]);
    assert kinds[0] == EOF;
    assert SymbolRun(table, kinds, [N(Prog)], 0, 1) == Stopped(NoProduction(Prog, EOF));
    StoppedParse(table, [], 1, NoProduction(Prog, EOF));
  }

  /** The kinds of the driver's input, for tokens whose first 17 kinds are
      the header, `while ( true` and `k`. */
  lemma WhileKinds(tokens: seq<Token>, k: TokenType)
    requires |tokens| > 16 && Kinds(tokens[..17]) == Header + [WHILE, LPAREN, TRUE, k]
    ensures var kinds := Kinds(InputTokens(tokens));
      |kinds| > 16 && kinds[..13] == Header && kinds[13] == WHILE && kinds[14] == LPAREN &&
      kinds[15] == TRUE && kinds[16] == k
  {
    var kinds := Kinds(InputTokens(tokens));
    InputKinds(tokens);
    assert kinds[..17] == Kinds(tokens[..17]);
    assert kinds[..13] == kinds[..17][..13];
  }

  /** A well-formed table with the entries a `while ( true` run uses, and
      with `boolexpr` erased under `;`, rejects `while ( true ;` with a
      mismatch that names `RPAREN`. */
  lemma MissingRparenParse(table: map<Key, Production>, tokens: seq<Token>)
    requires WellFormedTable(table)
    requires (Prog, PUBLIC) in table && table[(Prog, PUBLIC)] == ProgRow()[0].1
    requires (Los, WHILE) in table && table[(Los, WHILE)] == [N(Stat), N(Los)]
    requires (Stat, WHILE) in table && table[(Stat, WHILE)] == [N(WhileStat)]
    requires (WhileStat, WHILE) in table && table[(WhileStat, WHILE)] == WhileStatRow()[0].1
    requires (RelExpr, TRUE) in table && table[(RelExpr, TRUE)] == [T(TRUE)]
    requires (BoolExpr, SEMICOLON) in table && IsEpsilonProduction(table[(BoolExpr, SEMICOLON)])
    requires |tokens| > 16 && Kinds(tokens[..17]) == WhileWithoutRparen
    ensures ParseWith(table, tokens) == Fail(Mismatch(RPAREN, SEMICOLON))
  {
    WhileKinds(tokens, SEMICOLON);
    MissingRparenSymbols(table, Kinds(InputTokens(tokens)));
    StoppedParse(table, tokens, 23, Mismatch(RPAREN, SEMICOLON));
  }

  /** The same table, without an entry for `boolexpr` under `{`, rejects
      `while ( true {` with that missing entry. */
  lemma MissingRparenBraceParse(table: map<Key, Production>, tokens: seq<Token>)
    requires WellFormedTable(table)
    requires (Prog, PUBLIC) in table && table[(Prog, PUBLIC)] == ProgRow()[0].1
    requires (Los, WHILE) in table && table[(Los, WHILE)] == [N(Stat), N(Los)]
    requires (Stat, WHILE) in table && table[(Stat, WHILE)] == [N(WhileStat)]
    requires (WhileStat, WHILE) in table && table[(WhileStat, WHILE)] == WhileStatRow()[0].1
    requires (RelExpr, TRUE) in table && table[(RelExpr, TRUE)] == [T(TRUE)]
    requires (BoolExpr, LBRACE) !in table
    requires |tokens| > 16 && Kinds(tokens[..17]) == WhileWithoutRparenBrace
    ensures ParseWith(table, tokens) == Fail(NoProduction(BoolExpr, LBRACE))
  {
    WhileKinds(tokens, LBRACE);
    MissingRparenBraceSymbols(table, Kinds(InputTokens(tokens)));
    StoppedParse(table, tokens, 23, NoProduction(BoolExpr, LBRACE));
  }

  // ---------------------------------------------------------------------------
  // The entries these runs use, in the initialiser's table

  /** Entry `k` of the row of `l` is the table's production for its lookahead. */
  lemma TableHasAt(l: Label, k: nat)
    requires k < |Row(l)|
    ensures (l, Row(l)[k].0) in ParsingTable() && ParsingTable()[(l, Row(l)[k].0)] == Row(l)[k].1
  {
    RowOKAt(l);
    RowLookupAt(Row(l), k);
    TableMatchesRows(l, Row(l)[k].0);
  }

  /** A row none of whose entries has lookahead `t` finds nothing for `t`. */
  lemma {:induction false} RowLookupNone(r: seq<(TokenType, Production)>, t: TokenType)
    requires forall i | 0 <= i < |r| :: r[i].0 != t
    ensures RowLookup(r, t) == None
  {
    if r != [] {
      assert forall i | 0 <= i < |r| - 1 :: r[1..][i] == r[i + 1];
      RowLookupNone(r[1..], t);
    }
  }

  /** `prog` under `public`, and `los` erased under `}`. */
  lemma MinimalEntries()
    ensures (Prog, PUBLIC) in ParsingTable() && ParsingTable()[(Prog, PUBLIC)] == ProgRow()[0].1
    ensures (Los, RBRACE) in ParsingTable() && IsEpsilonProduction(ParsingTable()[(Los, RBRACE)])
  {
    assert Row(Prog) == ProgRow() && Row(Los) == LosRow();
    TableHasAt(Prog, 0);
    TableHasAt(Los, 7);
  }

  /** The entries a `while ( true` run uses. */
  lemma WhileEntries()
    ensures (Prog, PUBLIC) in ParsingTable() && ParsingTable()[(Prog, PUBLIC)] == ProgRow()[0].1
    ensures (Los, WHILE) in ParsingTable() && ParsingTable()[(Los, WHILE)] == [N(Stat), N(Los)]
    ensures (Stat, WHILE) in ParsingTable() && ParsingTable()[(Stat, WHILE)] == [N(WhileStat)]
    ensures (WhileStat, WHILE) in ParsingTable() && ParsingTable()[(WhileStat, WHILE)] == WhileStatRow()[0].1
    ensures (RelExpr, TRUE) in ParsingTable() && ParsingTable()[(RelExpr, TRUE)] == [T(TRUE)]
  {
    assert Row(Prog) == ProgRow() && Row(Los) == LosRow() && Row(Stat) == StatRow();
    assert Row(WhileStat) == WhileStatRow() && Row(RelExpr) == RelExprRow();
    TableHasAt(Prog, 0);
    TableHasAt(Los, 0);
    TableHasAt(Stat, 0);
    TableHasAt(WhileStat, 0);
    TableHasAt(RelExpr, 3);
  }

  /** `boolexpr` is erased under `;`. */
  lemma BoolExprErased()
    ensures (BoolExpr, SEMICOLON) in ParsingTable() && IsEpsilonProduction(ParsingTable()[(BoolExpr, SEMICOLON)])
  {
    assert Row(BoolExpr) == BoolExprRow();
    TableHasAt(BoolExpr, 4);
  }

  /** `boolexpr` has no entry under `{`. */
  lemma BoolExprNotBeforeBrace()
    ensures (BoolExpr, LBRACE) !in ParsingTable()
  {
    BoolExprRowWithoutBrace();
    TableMatchesRows(BoolExpr, LBRACE);
  }

  /** The row of `boolexpr` has no entry for `{`. */
  lemma BoolExprRowWithoutBrace()
    ensures RowLookup(Row(BoolExpr), LBRACE) == None
  {
    var r := BoolExprRow();
    assert Row(BoolExpr) == r;
    assert forall i | 0 <= i < |r| :: r[i].0 != LBRACE;
    RowLookupNone(r, LBRACE);
  }

  /** Tokens whose kinds are the smallest program are 15 tokens. */
  lemma MinimalProgramKinds(tokens: seq<Token>)
    requires Kinds(tokens) == MinimalProgram
    ensures |tokens| == 15 && Kinds(tokens[..15]) == MinimalProgram
  {
    assert |tokens| == |Kinds(tokens)| == 15;
    assert tokens[..15] == tokens;
  }

  /** `prog` has no entry under `EOF`. */
  lemma ProgNotAtEof()
    ensures (Prog, EOF) !in ParsingTable()
  {
    ProgRowWithoutEof();
    TableMatchesRows(Prog, EOF);
  }

  /** The row of `prog` has no entry for `EOF`. */
  lemma ProgRowWithoutEof()
    ensures RowLookup(Row(Prog), EOF) == None
  {
    var r := ProgRow();
    assert Row(Prog) == r;
    assert forall i | 0 <= i < |r| :: r[i].0 != EOF;
    RowLookupNone(r, EOF);
  }

  /** An empty token list is not a program: `prog` is looked up with the
      appended `EOF`, and that key is missing. */
  lemma EmptyInputRejected()
    ensures ParseSpec([]) == Fail(NoProduction(Prog, EOF))
  {
    TableWellFormed();
    ProgNotAtEof();
    EmptyParse(ParsingTable());
  }

  /** The smallest program, `public class Id { public static void main (
      String[] args ) { } }`, is accepted, whatever the tokens' texts. */
  lemma MinimalProgramAccepted(tokens: seq<Token>)
    requires Kinds(tokens) == MinimalProgram
    ensures ParseSpec(tokens).Ok?
  {
    TableWellFormed();
    MinimalEntries();
    MinimalProgramKinds(tokens);
    MinimalParse(ParsingTable(), tokens);
  }

  /** Tokens after a complete program are left over: the loop empties its
      stack at the first of them, and the parse fails with `ExtraTokens`. */
  lemma TokensAfterProgramLeftOver(tokens: seq<Token>)
    requires |tokens| > 15 && Kinds(tokens[..15]) == MinimalProgram
    ensures ParseSpec(tokens) == Fail(ExtraTokens)
  {
    TableWellFormed();
    MinimalEntries();
    MinimalParse(ParsingTable(), tokens);
  }

  /** A `while` condition followed by `;` instead of its `)` is a mismatch
      that names `RPAREN` as expected: `boolexpr` is erased under `;`, and
      `)` is then compared with `;`. */
  lemma WhileWithoutRparenMismatch(tokens: seq<Token>)
    requires |tokens| > 16 && Kinds(tokens[..17]) == WhileWithoutRparen
    ensures ParseSpec(tokens) == Fail(Mismatch(RPAREN, SEMICOLON))
  {
    TableWellFormed();
    WhileEntries();
    BoolExprErased();
    MissingRparenParse(ParsingTable(), tokens);
  }

  /** A `while` condition followed by `{` instead of its `)` is rejected too,
      but as a missing entry: the table has no production for `boolexpr`
      under `{`, so the driver stops before it compares `)`. */
  lemma WhileWithoutRparenBeforeBrace(tokens: seq<Token>)
    requires |tokens| > 16 && Kinds(tokens[..17]) == WhileWithoutRparenBrace
    ensures ParseSpec(tokens) == Fail(NoProduction(BoolExpr, LBRACE))
  {
    TableWellFormed();
    WhileEntries();
    BoolExprNotBeforeBrace();
    MissingRparenBraceParse(ParsingTable(), tokens);
  }
}
