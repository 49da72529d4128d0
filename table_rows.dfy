/**
 * The LL(1) parsing table of the teaching grammar, as data: for every
 * non-terminal the (lookahead, production) pairs the initialiser puts, in
 * the order it puts them, together with the facts about each row that the
 * driver relies on, checked row by row.
 */
module TableRows {
  import opened Grammar

  type Production = seq<Symbol>

  /** The production that derives nothing. */
  const EpsilonProduction: Production := [N(Epsilon)]

  /** The driver's test for the production that derives nothing: a single
      `Epsilon` symbol. */
  predicate IsEpsilonProduction(p: Production) {
    |p| == 1 && p[0] == N(Epsilon)
  }

  /** The kinds that start a statement; `los` expands to `stat los` on each. */
  const LosFirstSet: seq<TokenType> := [WHILE, FOR, IF, ID, TYPE, PRINT, SEMICOLON]

  /** The non-terminals in the order the initialiser fills their rows. */
  const PutOrder: seq<Label> := [
    Prog, Los, Stat, WhileStat, ForStat, ForStart, ForArith, IfStat, ElseIfStat,
    ElseOrElseIf, PossIf, Assign, Decl, PossAssign, Print, Type, Expr, CharExpr,
    BoolExpr, BoolOp, BoolEq, BoolLog, RelExpr, RelExprPrime, RelOp, ArithExpr,
    ArithExprPrime, Term, TermPrime, Factor, PrintExpr]

  /** The (lookahead, production) pairs put for non-terminal `l`, in source order;
      `Epsilon` and `Terminal` name no grammar rule and have no row. */
  function Row(l: Label): seq<(TokenType, Production)> {
    match l
    case Prog => ProgRow()
    case Los => LosRow()
    case Stat => StatRow()
    case WhileStat => WhileStatRow()
    case ForStat => ForStatRow()
    case ForStart => ForStartRow()
    case ForArith => ForArithRow()
    case IfStat => IfStatRow()
    case ElseIfStat => ElseIfStatRow()
    case ElseOrElseIf => ElseOrElseIfRow()
    case PossIf => PossIfRow()
    case Assign => AssignRow()
    case Decl => DeclRow()
    case PossAssign => PossAssignRow()
    case Print => PrintRow()
    case Type => TypeRow()
    case Expr => ExprRow()
    case CharExpr => CharExprRow()
    case BoolExpr => BoolExprRow()
    case BoolOp => BoolOpRow()
    case BoolEq => BoolEqRow()
    case BoolLog => BoolLogRow()
    case RelExpr => RelExprRow()
    case RelExprPrime => RelExprPrimeRow()
    case RelOp => RelOpRow()
    case ArithExpr => ArithExprRow()
    case ArithExprPrime => ArithExprPrimeRow()
    case Term => TermRow()
    case TermPrime => TermPrimeRow()
    case Factor => FactorRow()
    case PrintExpr => PrintExprRow()
    case Epsilon | Terminal => []
  }

  /** prog → public class id { public static void main ( String[] args ) { los } } */
  function ProgRow(): seq<(TokenType, Production)> {
    [
    (PUBLIC, [T(PUBLIC), T(CLASS), T(ID), T(LBRACE), T(PUBLIC), T(STATIC), T(VOID), T(MAIN),
              T(LPAREN), T(STRINGARR), T(ARGS), T(RPAREN), T(LBRACE), N(Los), T(RBRACE), T(RBRACE)])]
  }

  /** los → stat los | ε */
  function LosRow(): seq<(TokenType, Production)> {
    [
    (WHILE, [N(Stat), N(Los)]), (FOR, [N(Stat), N(Los)]), (IF, [N(Stat), N(Los)]),
    (ID, [N(Stat), N(Los)]), (TYPE, [N(Stat), N(Los)]), (PRINT, [N(Stat), N(Los)]),
    (SEMICOLON, [N(Stat), N(Los)]),
    (RBRACE, EpsilonProduction), (EOF, EpsilonProduction)]
  }

  /** stat → whilestat | forstat | ifstat | assign ; | decl ; | print ; | ; */
  function StatRow(): seq<(TokenType, Production)> {
    [
    (WHILE, [N(WhileStat)]), (FOR, [N(ForStat)]), (IF, [N(IfStat)]),
    (ID, [N(Assign), T(SEMICOLON)]), (TYPE, [N(Decl), T(SEMICOLON)]),
    (PRINT, [N(Print), T(SEMICOLON)]), (SEMICOLON, [T(SEMICOLON)])]
  }

  /** whilestat → while ( relexpr boolexpr ) { los } */
  function WhileStatRow(): seq<(TokenType, Production)> {
    [
    (WHILE, [T(WHILE), T(LPAREN), N(RelExpr), N(BoolExpr), T(RPAREN), T(LBRACE), N(Los), T(RBRACE)])]
  }

  /** forstat → for ( forstart ; relexpr boolexpr ; forarith ) { los } */
  function ForStatRow(): seq<(TokenType, Production)> {
    [
    (FOR, [T(FOR), T(LPAREN), N(ForStart), T(SEMICOLON), N(RelExpr), N(BoolExpr), T(SEMICOLON),
           N(ForArith), T(RPAREN), T(LBRACE), N(Los), T(RBRACE)])]
  }

  /** forstart → decl | assign | ε */
  function ForStartRow(): seq<(TokenType, Production)> {
    [(TYPE, [N(Decl)]), (ID, [N(Assign)]), (SEMICOLON, EpsilonProduction)]
  }

  /** forarith → arithexpr | ε */
  function ForArithRow(): seq<(TokenType, Production)> {
    [
    (LPAREN, [N(ArithExpr)]), (ID, [N(ArithExpr)]), (NUM, [N(ArithExpr)]), (RPAREN, EpsilonProduction)]
  }

  /** ifstat → if ( relexpr boolexpr ) { los } elseifstat */
  function IfStatRow(): seq<(TokenType, Production)> {
    [
    (IF, [T(IF), T(LPAREN), N(RelExpr), N(BoolExpr), T(RPAREN), T(LBRACE), N(Los), T(RBRACE),
          N(ElseIfStat)])]
  }

  /** elseifstat → elseorelseif { los } elseifstat | ε */
  function ElseIfStatRow(): seq<(TokenType, Production)> {
    [
    (ELSE, [N(ElseOrElseIf), T(LBRACE), N(Los), T(RBRACE), N(ElseIfStat)]),
    (WHILE, EpsilonProduction), (FOR, EpsilonProduction), (IF, EpsilonProduction),
    (ID, EpsilonProduction), (TYPE, EpsilonProduction), (PRINT, EpsilonProduction),
    (SEMICOLON, EpsilonProduction), (RBRACE, EpsilonProduction), (EOF, EpsilonProduction)]
  }

  /** elseorelseif → else possif */
  function ElseOrElseIfRow(): seq<(TokenType, Production)> {
    [(ELSE, [T(ELSE), N(PossIf)])]
  }

  /** possif → if ( relexpr boolexpr ) | ε */
  function PossIfRow(): seq<(TokenType, Production)> {
    [
    (IF, [T(IF), T(LPAREN), N(RelExpr), N(BoolExpr), T(RPAREN)]), (LBRACE, EpsilonProduction)]
  }

  /** assign → id = expr */
  function AssignRow(): seq<(TokenType, Production)> {
    [(ID, [T(ID), T(ASSIGN), N(Expr)])]
  }

  /** decl → type id possassign */
  function DeclRow(): seq<(TokenType, Production)> {
    [(TYPE, [N(Type), T(ID), N(PossAssign)])]
  }

  /** possassign → = expr | ε */
  function PossAssignRow(): seq<(TokenType, Production)> {
    [(ASSIGN, [T(ASSIGN), N(Expr)]), (SEMICOLON, EpsilonProduction)]
  }

  /** print → print ( printexpr ) */
  function PrintRow(): seq<(TokenType, Production)> {
    [(PRINT, [T(PRINT), T(LPAREN), N(PrintExpr), T(RPAREN)])]
  }

  /** type → type-keyword */
  function TypeRow(): seq<(TokenType, Production)> {
    [(TYPE, [T(TYPE)])]
  }

  /** expr → relexpr boolexpr | charexpr */
  function ExprRow(): seq<(TokenType, Production)> {
    [
    (LPAREN, [N(RelExpr), N(BoolExpr)]), (ID, [N(RelExpr), N(BoolExpr)]),
    (NUM, [N(RelExpr), N(BoolExpr)]), (TRUE, [N(RelExpr), N(BoolExpr)]),
    (FALSE, [N(RelExpr), N(BoolExpr)]), (SQUOTE, [N(CharExpr)])]
  }

  /** charexpr → ' charlit ' */
  function CharExprRow(): seq<(TokenType, Production)> {
    [(SQUOTE, [T(SQUOTE), T(CHARLIT), T(SQUOTE)])]
  }

  /** boolexpr → boolop relexpr boolexpr | ε */
  function BoolExprRow(): seq<(TokenType, Production)> {
    [
    (EQUAL, [N(BoolOp), N(RelExpr), N(BoolExpr)]), (NEQUAL, [N(BoolOp), N(RelExpr), N(BoolExpr)]),
    (AND, [N(BoolOp), N(RelExpr), N(BoolExpr)]), (OR, [N(BoolOp), N(RelExpr), N(BoolExpr)]),
    (SEMICOLON, EpsilonProduction), (RPAREN, EpsilonProduction)]
  }

  /** boolop → booleq | boollog */
  function BoolOpRow(): seq<(TokenType, Production)> {
    [(EQUAL, [N(BoolEq)]), (NEQUAL, [N(BoolEq)]), (AND, [N(BoolLog)]), (OR, [N(BoolLog)])]
  }

  /** booleq → == | != */
  function BoolEqRow(): seq<(TokenType, Production)> {
    [(EQUAL, [T(EQUAL)]), (NEQUAL, [T(NEQUAL)])]
  }

  /** boollog → && | || */
  function BoolLogRow(): seq<(TokenType, Production)> {
    [(AND, [T(AND)]), (OR, [T(OR)])]
  }

  /** relexpr → arithexpr relexpr' | true | false */
  function RelExprRow(): seq<(TokenType, Production)> {
    [
    (LPAREN, [N(ArithExpr), N(RelExprPrime)]), (ID, [N(ArithExpr), N(RelExprPrime)]),
    (NUM, [N(ArithExpr), N(RelExprPrime)]), (TRUE, [T(TRUE)]), (FALSE, [T(FALSE)])]
  }

  /** relexpr' → relop arithexpr | ε */
  function RelExprPrimeRow(): seq<(TokenType, Production)> {
    [
    (LT, [N(RelOp), N(ArithExpr)]), (LE, [N(RelOp), N(ArithExpr)]),
    (GT, [N(RelOp), N(ArithExpr)]), (GE, [N(RelOp), N(ArithExpr)]),
    (EQUAL, EpsilonProduction), (NEQUAL, EpsilonProduction), (AND, EpsilonProduction),
    (OR, EpsilonProduction), (SEMICOLON, EpsilonProduction), (RPAREN, EpsilonProduction)]
  }

  /** relop → < | <= | > | >= */
  function RelOpRow(): seq<(TokenType, Production)> {
    [(LT, [T(LT)]), (LE, [T(LE)]), (GT, [T(GT)]), (GE, [T(GE)])]
  }

  /** arithexpr → term arithexpr' */
  function ArithExprRow(): seq<(TokenType, Production)> {
    [
    (LPAREN, [N(Term), N(ArithExprPrime)]), (ID, [N(Term), N(ArithExprPrime)]),
    (NUM, [N(Term), N(ArithExprPrime)])]
  }

  /** arithexpr' → + term arithexpr' | - term arithexpr' | ε */
  function ArithExprPrimeRow(): seq<(TokenType, Production)> {
    [
    (PLUS, [T(PLUS), N(Term), N(ArithExprPrime)]), (MINUS, [T(MINUS), N(Term), N(ArithExprPrime)]),
    (LT, EpsilonProduction), (LE, EpsilonProduction), (GT, EpsilonProduction), (GE, EpsilonProduction),
    (EQUAL, EpsilonProduction), (NEQUAL, EpsilonProduction), (SEMICOLON, EpsilonProduction),
    (RPAREN, EpsilonProduction), (AND, EpsilonProduction), (OR, EpsilonProduction)]
  }

  /** term → factor term' */
  function TermRow(): seq<(TokenType, Production)> {
    [
    (LPAREN, [N(Factor), N(TermPrime)]), (ID, [N(Factor), N(TermPrime)]), (NUM, [N(Factor), N(TermPrime)])]
  }

  /** term' → * factor term' | / factor term' | % factor term' | ε */
  function TermPrimeRow(): seq<(TokenType, Production)> {
    [
    (TIMES, [T(TIMES), N(Factor), N(TermPrime)]), (DIVIDE, [T(DIVIDE), N(Factor), N(TermPrime)]),
    (MOD, [T(MOD), N(Factor), N(TermPrime)]),
    (PLUS, EpsilonProduction), (MINUS, EpsilonProduction), (LT, EpsilonProduction),
    (LE, EpsilonProduction), (GT, EpsilonProduction), (GE, EpsilonProduction),
    (EQUAL, EpsilonProduction), (NEQUAL, EpsilonProduction), (SEMICOLON, EpsilonProduction),
    (RPAREN, EpsilonProduction), (AND, EpsilonProduction), (OR, EpsilonProduction)]
  }

  /** factor → ( arithexpr ) | id | num */
  function FactorRow(): seq<(TokenType, Production)> {
    [(LPAREN, [T(LPAREN), N(ArithExpr), T(RPAREN)]), (ID, [T(ID)]), (NUM, [T(NUM)])]
  }

  /** printexpr → relexpr boolexpr | " stringlit " */
  function PrintExprRow(): seq<(TokenType, Production)> {
    [
    (LPAREN, [N(RelExpr), N(BoolExpr)]), (ID, [N(RelExpr), N(BoolExpr)]),
    (NUM, [N(RelExpr), N(BoolExpr)]), (TRUE, [N(RelExpr), N(BoolExpr)]),
    (FALSE, [N(RelExpr), N(BoolExpr)]), (DQUOTE, [T(DQUOTE), T(STRINGLIT), T(DQUOTE)])]
  }

  /**
   * The FIRST set of each non-terminal: the lookaheads under which its row
   * holds a production other than the epsilon one, in the order they are put.
   * `RowOK` checks it against the row.
   */
  function First(l: Label): seq<TokenType> {
    match l
    case Prog => [PUBLIC]
    case Los => [WHILE, FOR, IF, ID, TYPE, PRINT, SEMICOLON]
    case Stat => [WHILE, FOR, IF, ID, TYPE, PRINT, SEMICOLON]
    case WhileStat => [WHILE]
    case ForStat => [FOR]
    case ForStart => [TYPE, ID]
    case ForArith => [LPAREN, ID, NUM]
    case IfStat => [IF]
    case ElseIfStat => [ELSE]
    case ElseOrElseIf => [ELSE]
    case PossIf => [IF]
    case Assign => [ID]
    case Decl => [TYPE]
    case PossAssign => [ASSIGN]
    case Print => [PRINT]
    case Type => [TYPE]
    case Expr => [LPAREN, ID, NUM, TRUE, FALSE, SQUOTE]
    case CharExpr => [SQUOTE]
    case BoolExpr => [EQUAL, NEQUAL, AND, OR]
    case BoolOp => [EQUAL, NEQUAL, AND, OR]
    case BoolEq => [EQUAL, NEQUAL]
    case BoolLog => [AND, OR]
    case RelExpr => [LPAREN, ID, NUM, TRUE, FALSE]
    case RelExprPrime => [LT, LE, GT, GE]
    case RelOp => [LT, LE, GT, GE]
    case ArithExpr => [LPAREN, ID, NUM]
    case ArithExprPrime => [PLUS, MINUS]
    case Term => [LPAREN, ID, NUM]
    case TermPrime => [TIMES, DIVIDE, MOD]
    case Factor => [LPAREN, ID, NUM]
    case PrintExpr => [LPAREN, ID, NUM, TRUE, FALSE, DQUOTE]
    case Epsilon | Terminal => []
  }

  /** The first production put for lookahead `t` in row `r`, if any. */
  function RowLookup(r: seq<(TokenType, Production)>, t: TokenType): Option<Production> {
    if r == [] then None
    else if r[0].0 == t then Some(r[0].1)
    else RowLookup(r[1..], t)
  }

  /**
   * The depth of a non-terminal in the "first symbol" relation: a production
   * for `l` that does not start with a terminal starts with a non-terminal of
   * smaller level. The driver's termination measure uses it.
   */
  function Level(l: Label): nat {
    match l
    case Prog | WhileStat | ForStat | IfStat | ElseOrElseIf | PossIf | Assign | PossAssign
      | Print | Type | CharExpr | BoolEq | BoolLog | RelOp | ArithExprPrime | TermPrime | Factor => 1
    case Term | Decl | ElseIfStat | BoolOp | RelExprPrime => 2
    case ArithExpr | Stat | BoolExpr | ForStart => 3
    case Los | ForArith | RelExpr => 4
    case Expr | PrintExpr => 5
    case Epsilon | Terminal => 0
  }

  function SymbolLevel(s: Symbol): nat {
    match s
    case T(_) => 0
    case N(x) => Level(x)
  }

  // ---------------------------------------------------------------------------
  // Well-formedness of the table, checked row by row

  /** No lookahead is put twice in row `r`. */
  predicate LookaheadsDistinct(r: seq<(TokenType, Production)>) {
    forall i, j | 0 <= j < i < |r| :: r[i].0 != r[j].0
  }

  /** The first symbol `s` of a real production for key `(l, t)` is the
      terminal `t` itself, or a non-terminal of smaller level that has a real
      production for the same lookahead. */
  predicate StartsRight(l: Label, t: TokenType, s: Symbol) {
    SymbolLevel(s) < Level(l) &&
    match s
    case T(k) => k == t
    case N(c) => t in First(c)
  }

  /** What every put of the table satisfies: the production is non-empty; it is
      either the epsilon production, or it mentions neither `Epsilon`, `EOF`
      nor `Terminal` and starts right. */
  predicate EntryOK(l: Label, t: TokenType, p: Production) {
    |p| > 0 &&
    (IsEpsilonProduction(p) ||
     (N(Epsilon) !in p && T(EOF) !in p && N(Terminal) !in p && StartsRight(l, t, p[0])))
  }

  /** Entry `k` of row `r` for non-terminal `l` is well formed, and it is a
      real entry exactly when `k` indexes the FIRST set `f`, whose `k`-th
      kind is then its lookahead. */
  predicate EntryFacts(l: Label, r: seq<(TokenType, Production)>, f: seq<TokenType>, k: nat)
    requires k < |r|
  {
    EntryOK(l, r[k].0, r[k].1) &&
    (k < |f| <==> !IsEpsilonProduction(r[k].1)) &&
    (k < |f| ==> r[k].0 == f[k])
  }

  /** Row `l` puts each lookahead once, each of its entries is well formed,
      and its real entries come first, under the lookaheads of `First(l)`. */
  predicate RowOK(l: Label) {
    DistinctChecked(Row(l), |Row(l)|) && EntriesChecked(l, Row(l), |Row(l)|)
  }

  // The checks below are stated for a row of known length `n`, which lets the
  // verifier decide them by evaluating the literal rows one position at a time.

  predicate DistinctChecked(r: seq<(TokenType, Production)>, n: nat) {
    |r| == n && forall i, j | 0 <= j < i < n :: r[i].0 != r[j].0
  }

  predicate EntriesChecked(l: Label, r: seq<(TokenType, Production)>, n: nat) {
    |r| == n && |First(l)| <= n && forall k | 0 <= k < n :: EntryFacts(l, r, First(l), k)
  }

  lemma ProgDistinct() ensures DistinctChecked(ProgRow(), 1) {}
  lemma ProgEntries() ensures EntriesChecked(Prog, ProgRow(), 1) {}
  lemma LosDistinct() ensures DistinctChecked(LosRow(), 9) {}
  lemma LosEntries() ensures EntriesChecked(Los, LosRow(), 9) {}
  lemma StatDistinct() ensures DistinctChecked(StatRow(), 7) {}
  lemma StatEntries() ensures EntriesChecked(Stat, StatRow(), 7) { StatEntriesBelow(); StatEntriesAbove(); }
  lemma StatEntriesBelow() ensures forall k | 0 <= k < 4 :: EntryFacts(Stat, StatRow(), First(Stat), k) {}
  lemma StatEntriesAbove() ensures forall k | 4 <= k < 7 :: EntryFacts(Stat, StatRow(), First(Stat), k) {}
  lemma WhileStatDistinct() ensures DistinctChecked(WhileStatRow(), 1) {}
  lemma WhileStatEntries() ensures EntriesChecked(WhileStat, WhileStatRow(), 1) {}
  lemma ForStatDistinct() ensures DistinctChecked(ForStatRow(), 1) {}
  lemma ForStatEntries() ensures EntriesChecked(ForStat, ForStatRow(), 1) {}
  lemma ForStartDistinct() ensures DistinctChecked(ForStartRow(), 3) {}
  lemma ForStartEntries() ensures EntriesChecked(ForStart, ForStartRow(), 3) {}
  lemma ForArithDistinct() ensures DistinctChecked(ForArithRow(), 4) {}
  lemma ForArithEntries() ensures EntriesChecked(ForArith, ForArithRow(), 4) {}
  lemma IfStatDistinct() ensures DistinctChecked(IfStatRow(), 1) {}
  lemma IfStatEntries() ensures EntriesChecked(IfStat, IfStatRow(), 1) {}
  lemma ElseIfStatDistinct() ensures DistinctChecked(ElseIfStatRow(), 10) {}
  lemma ElseIfStatEntries() ensures EntriesChecked(ElseIfStat, ElseIfStatRow(), 10) {}
  lemma ElseOrElseIfDistinct() ensures DistinctChecked(ElseOrElseIfRow(), 1) {}
  lemma ElseOrElseIfEntries() ensures EntriesChecked(ElseOrElseIf, ElseOrElseIfRow(), 1) {}
  lemma PossIfDistinct() ensures DistinctChecked(PossIfRow(), 2) {}
  lemma PossIfEntries() ensures EntriesChecked(PossIf, PossIfRow(), 2) {}
  lemma AssignDistinct() ensures DistinctChecked(AssignRow(), 1) {}
  lemma AssignEntries() ensures EntriesChecked(Assign, AssignRow(), 1) {}
  lemma DeclDistinct() ensures DistinctChecked(DeclRow(), 1) {}
  lemma DeclEntries() ensures EntriesChecked(Decl, DeclRow(), 1) {}
  lemma PossAssignDistinct() ensures DistinctChecked(PossAssignRow(), 2) {}
  lemma PossAssignEntries() ensures EntriesChecked(PossAssign, PossAssignRow(), 2) {}
  lemma PrintDistinct() ensures DistinctChecked(PrintRow(), 1) {}
  lemma PrintEntries() ensures EntriesChecked(Print, PrintRow(), 1) {}
  lemma TypeDistinct() ensures DistinctChecked(TypeRow(), 1) {}
  lemma TypeEntries() ensures EntriesChecked(Type, TypeRow(), 1) {}
  lemma ExprDistinct() ensures DistinctChecked(ExprRow(), 6) {}
  lemma ExprEntries() ensures EntriesChecked(Expr, ExprRow(), 6) {}
  lemma CharExprDistinct() ensures DistinctChecked(CharExprRow(), 1) {}
  lemma CharExprEntries() ensures EntriesChecked(CharExpr, CharExprRow(), 1) {}
  lemma BoolExprDistinct() ensures DistinctChecked(BoolExprRow(), 6) {}
  lemma BoolExprEntries() ensures EntriesChecked(BoolExpr, BoolExprRow(), 6) {}
  lemma BoolOpDistinct() ensures DistinctChecked(BoolOpRow(), 4) {}
  lemma BoolOpEntries() ensures EntriesChecked(BoolOp, BoolOpRow(), 4) {}
  lemma BoolEqDistinct() ensures DistinctChecked(BoolEqRow(), 2) {}
  lemma BoolEqEntries() ensures EntriesChecked(BoolEq, BoolEqRow(), 2) {}
  lemma BoolLogDistinct() ensures DistinctChecked(BoolLogRow(), 2) {}
  lemma BoolLogEntries() ensures EntriesChecked(BoolLog, BoolLogRow(), 2) {}
  lemma RelExprDistinct() ensures DistinctChecked(RelExprRow(), 5) {}
  lemma RelExprEntries() ensures EntriesChecked(RelExpr, RelExprRow(), 5) {}
  lemma RelExprPrimeDistinct() ensures DistinctChecked(RelExprPrimeRow(), 10) {}
  lemma RelExprPrimeEntries() ensures EntriesChecked(RelExprPrime, RelExprPrimeRow(), 10) {}
  lemma RelOpDistinct() ensures DistinctChecked(RelOpRow(), 4) {}
  lemma RelOpEntries() ensures EntriesChecked(RelOp, RelOpRow(), 4) {}
  lemma ArithExprDistinct() ensures DistinctChecked(ArithExprRow(), 3) {}
  lemma ArithExprEntries() ensures EntriesChecked(ArithExpr, ArithExprRow(), 3) {}
  lemma ArithExprPrimeDistinct() ensures DistinctChecked(ArithExprPrimeRow(), 12) {}
  lemma ArithExprPrimeEntries() ensures EntriesChecked(ArithExprPrime, ArithExprPrimeRow(), 12) {}
  lemma TermDistinct() ensures DistinctChecked(TermRow(), 3) {}
  lemma TermEntries() ensures EntriesChecked(Term, TermRow(), 3) {}
  lemma TermPrimeDistinct() ensures DistinctChecked(TermPrimeRow(), 15) {}
  lemma TermPrimeEntries() ensures EntriesChecked(TermPrime, TermPrimeRow(), 15) {}
  lemma FactorDistinct() ensures DistinctChecked(FactorRow(), 3) {}
  lemma FactorEntries() ensures EntriesChecked(Factor, FactorRow(), 3) {}
  lemma PrintExprDistinct() ensures DistinctChecked(PrintExprRow(), 6) {}
  lemma PrintExprEntries() ensures EntriesChecked(PrintExpr, PrintExprRow(), 6) { PrintExprEntriesBelow(); PrintExprEntriesAbove(); }
  lemma PrintExprEntriesBelow() ensures forall k | 0 <= k < 3 :: EntryFacts(PrintExpr, PrintExprRow(), First(PrintExpr), k) {}
  lemma PrintExprEntriesAbove() ensures forall k | 3 <= k < 6 :: EntryFacts(PrintExpr, PrintExprRow(), First(PrintExpr), k) {}


  /** Every row of the table passes the checks. */
  lemma RowOKAt(l: Label)
    ensures RowOK(l)
  {
    match l
    case Prog => ProgOK();
    case Los => LosOK();
    case Stat => StatOK();
    case WhileStat => WhileStatOK();
    case ForStat => ForStatOK();
    case ForStart => ForStartOK();
    case ForArith => ForArithOK();
    case IfStat => IfStatOK();
    case ElseIfStat => ElseIfStatOK();
    case ElseOrElseIf => ElseOrElseIfOK();
    case PossIf => PossIfOK();
    case Assign => AssignOK();
    case Decl => DeclOK();
    case PossAssign => PossAssignOK();
    case Print => PrintOK();
    case Type => TypeOK();
    case Expr => ExprOK();
    case CharExpr => CharExprOK();
    case BoolExpr => BoolExprOK();
    case BoolOp => BoolOpOK();
    case BoolEq => BoolEqOK();
    case BoolLog => BoolLogOK();
    case RelExpr => RelExprOK();
    case RelExprPrime => RelExprPrimeOK();
    case RelOp => RelOpOK();
    case ArithExpr => ArithExprOK();
    case ArithExprPrime => ArithExprPrimeOK();
    case Term => TermOK();
    case TermPrime => TermPrimeOK();
    case Factor => FactorOK();
    case PrintExpr => PrintExprOK();
    case Epsilon | Terminal =>
  }

  lemma ProgOK() ensures RowOK(Prog) { assert Row(Prog) == ProgRow(); ProgDistinct(); ProgEntries(); }
  lemma LosOK() ensures RowOK(Los) { assert Row(Los) == LosRow(); LosDistinct(); LosEntries(); }
  lemma StatOK() ensures RowOK(Stat) { assert Row(Stat) == StatRow(); StatDistinct(); StatEntries(); }
  lemma WhileStatOK() ensures RowOK(WhileStat) { assert Row(WhileStat) == WhileStatRow(); WhileStatDistinct(); WhileStatEntries(); }
  lemma ForStatOK() ensures RowOK(ForStat) { assert Row(ForStat) == ForStatRow(); ForStatDistinct(); ForStatEntries(); }
  lemma ForStartOK() ensures RowOK(ForStart) { assert Row(ForStart) == ForStartRow(); ForStartDistinct(); ForStartEntries(); }
  lemma ForArithOK() ensures RowOK(ForArith) { assert Row(ForArith) == ForArithRow(); ForArithDistinct(); ForArithEntries(); }
  lemma IfStatOK() ensures RowOK(IfStat) { assert Row(IfStat) == IfStatRow(); IfStatDistinct(); IfStatEntries(); }
  lemma ElseIfStatOK() ensures RowOK(ElseIfStat) { assert Row(ElseIfStat) == ElseIfStatRow(); ElseIfStatDistinct(); ElseIfStatEntries(); }
  lemma ElseOrElseIfOK() ensures RowOK(ElseOrElseIf) { assert Row(ElseOrElseIf) == ElseOrElseIfRow(); ElseOrElseIfDistinct(); ElseOrElseIfEntries(); }
  lemma PossIfOK() ensures RowOK(PossIf) { assert Row(PossIf) == PossIfRow(); PossIfDistinct(); PossIfEntries(); }
  lemma AssignOK() ensures RowOK(Assign) { assert Row(Assign) == AssignRow(); AssignDistinct(); AssignEntries(); }
  lemma DeclOK() ensures RowOK(Decl) { assert Row(Decl) == DeclRow(); DeclDistinct(); DeclEntries(); }
  lemma PossAssignOK() ensures RowOK(PossAssign) { assert Row(PossAssign) == PossAssignRow(); PossAssignDistinct(); PossAssignEntries(); }
  lemma PrintOK() ensures RowOK(Print) { assert Row(Print) == PrintRow(); PrintDistinct(); PrintEntries(); }
  lemma TypeOK() ensures RowOK(Type) { assert Row(Type) == TypeRow(); TypeDistinct(); TypeEntries(); }
  lemma ExprOK() ensures RowOK(Expr) { assert Row(Expr) == ExprRow(); ExprDistinct(); ExprEntries(); }
  lemma CharExprOK() ensures RowOK(CharExpr) { assert Row(CharExpr) == CharExprRow(); CharExprDistinct(); CharExprEntries(); }
  lemma BoolExprOK() ensures RowOK(BoolExpr) { assert Row(BoolExpr) == BoolExprRow(); BoolExprDistinct(); BoolExprEntries(); }
  lemma BoolOpOK() ensures RowOK(BoolOp) { assert Row(BoolOp) == BoolOpRow(); BoolOpDistinct(); BoolOpEntries(); }
  lemma BoolEqOK() ensures RowOK(BoolEq) { assert Row(BoolEq) == BoolEqRow(); BoolEqDistinct(); BoolEqEntries(); }
  lemma BoolLogOK() ensures RowOK(BoolLog) { assert Row(BoolLog) == BoolLogRow(); BoolLogDistinct(); BoolLogEntries(); }
  lemma RelExprOK() ensures RowOK(RelExpr) { assert Row(RelExpr) == RelExprRow(); RelExprDistinct(); RelExprEntries(); }
  lemma RelExprPrimeOK() ensures RowOK(RelExprPrime) { assert Row(RelExprPrime) == RelExprPrimeRow(); RelExprPrimeDistinct(); RelExprPrimeEntries(); }
  lemma RelOpOK() ensures RowOK(RelOp) { assert Row(RelOp) == RelOpRow(); RelOpDistinct(); RelOpEntries(); }
  lemma ArithExprOK() ensures RowOK(ArithExpr) { assert Row(ArithExpr) == ArithExprRow(); ArithExprDistinct(); ArithExprEntries(); }
  lemma ArithExprPrimeOK() ensures RowOK(ArithExprPrime) { assert Row(ArithExprPrime) == ArithExprPrimeRow(); ArithExprPrimeDistinct(); ArithExprPrimeEntries(); }
  lemma TermOK() ensures RowOK(Term) { assert Row(Term) == TermRow(); TermDistinct(); TermEntries(); }
  lemma TermPrimeOK() ensures RowOK(TermPrime) { assert Row(TermPrime) == TermPrimeRow(); TermPrimeDistinct(); TermPrimeEntries(); }
  lemma FactorOK() ensures RowOK(Factor) { assert Row(Factor) == FactorRow(); FactorDistinct(); FactorEntries(); }
  lemma PrintExprOK() ensures RowOK(PrintExpr) { assert Row(PrintExpr) == PrintExprRow(); PrintExprDistinct(); PrintExprEntries(); }

  /** The loop over `LosFirstSet` puts `stat los` under each of its kinds, and
      these kinds are the FIRST set of `los`. */
  lemma LosRowFromFirstSet()
    ensures First(Los) == LosFirstSet
    ensures forall k | 0 <= k < |LosFirstSet| :: Row(Los)[k] == (LosFirstSet[k], [N(Stat), N(Los)])
  {}
}
