/**
 * Grammar symbols of the teaching language: the lexer's token kinds, the
 * parse-tree labels (one per non-terminal, plus the two structural labels
 * `Epsilon` and `Terminal`), grammar symbols and tokens.
 */
module Grammar {

  datatype Option<+T> = None | Some(value: T)

  /** The token kinds the parsing table and the driver mention. `EOF` is the
      end-of-input marker the driver appends to the caller's tokens. */
  datatype TokenType =
    | PUBLIC | CLASS | ID | LBRACE | STATIC | VOID | MAIN | LPAREN | STRINGARR | ARGS
    | RPAREN | RBRACE | WHILE | FOR | IF | TYPE | PRINT | SEMICOLON | EOF | ELSE
    | ASSIGN | NUM | TRUE | FALSE | SQUOTE | CHARLIT | EQUAL | NEQUAL | AND | OR
    | LT | LE | GT | GE | PLUS | MINUS | TIMES | DIVIDE | MOD | DQUOTE | STRINGLIT

  /** Tree-node labels. Every label but `Epsilon` and `Terminal` names a
      non-terminal of the grammar; `Epsilon` marks an empty production and
      `Terminal` labels the leaf that will hold a matched token. */
  datatype Label =
    | Prog | Los | Stat | WhileStat | ForStat | ForStart | ForArith | IfStat
    | ElseIfStat | ElseOrElseIf | PossIf | Assign | Decl | PossAssign | Print
    | Type | Expr | CharExpr | BoolExpr | BoolOp | BoolEq | BoolLog | RelExpr
    | RelExprPrime | RelOp | ArithExpr | ArithExprPrime | Term | TermPrime
    | Factor | PrintExpr | Epsilon | Terminal

  /** A grammar symbol: a terminal token kind or a non-terminal label.
      The two cases never compare equal. */
  datatype Symbol = T(kind: TokenType) | N(name: Label) {
    /** Whether the symbol is a non-terminal (the source's `isVariable`). */
    predicate IsVariable() { N? }
  }

  /** A lexical token: its kind and the literal text it carries, if any. */
  datatype Token = Token(kind: TokenType, text: Option<string>)

  /** The end-of-input token appended by the driver. */
  const EofToken: Token := Token(EOF, None)

  /** The label a tree node gets when it is created for symbol `s`. */
  function NodeLabel(s: Symbol): Label {
    match s
    case T(_) => Terminal
    case N(x) => x
  }
}
