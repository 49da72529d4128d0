/**
 * The parsing table as the static initialiser builds it: a hash map filled by
 * one `put` per (non-terminal, lookahead) pair, row after row. The facts the
 * driver needs are proved about the map from the row checks of `TableRows`.
 */
module ParsingTableInit {
  import opened Grammar
  import opened TableRows

  /** A table key: the non-terminal on top of the stack and the lookahead kind
      (the source's `Pair`, whose equality compares both components). */
  type Key = (Label, TokenType)

  /** One `put(key, production)` call of the initialiser. */
  datatype Put = Put(key: Key, production: Production)

  /** The puts for the row `rows(l)` of non-terminal `l`, keyed by `(l, lookahead)`. */
  function RowPuts(rows: Label -> seq<(TokenType, Production)>, l: Label): seq<Put> {
    seq(|rows(l)|, i requires 0 <= i < |rows(l)| => Put((l, rows(l)[i].0), rows(l)[i].1))
  }

  /** The puts for the rows of `ls`, row after row. */
  function PutsOf(rows: Label -> seq<(TokenType, Production)>, ls: seq<Label>): seq<Put> {
    if ls == [] then [] else PutsOf(rows, ls[..|ls| - 1]) + RowPuts(rows, ls[|ls| - 1])
  }

  /** Every put call of the initialiser, in the order it issues them. */
  function Puts(): seq<Put> {
    PutsOf(Row, PutOrder)
  }

  /** The map `m` after `put` is called with each of `ps` in order: a later
      put for a key replaces an earlier one. */
  function Installed(m: map<Key, Production>, ps: seq<Put>): map<Key, Production> {
    if ps == [] then m
    else Installed(m, ps[..|ps| - 1])[ps[|ps| - 1].key := ps[|ps| - 1].production]
  }

  /** The parsing table as the initialiser leaves it. */
  function ParsingTable(): map<Key, Production> {
    Installed(map[], Puts())
  }

  /** `parsingTable.get(key)` on the initialiser's table: the production for
      `(l, t)`, or none. The table lemmas are stated with it; the driver's
      `Step` takes its table as a parameter and does the same lookup inline. */
  function Lookup(l: Label, t: TokenType): Option<Production> {
    if (l, t) in ParsingTable() then Some(ParsingTable()[(l, t)]) else None
  }

  /** Issues the puts `ps` in order on an empty map. */
  method PutAll(ps: seq<Put>) returns (table: map<Key, Production>)
    ensures table == Installed(map[], ps)
  {
    table := map[];
    for i := 0 to |ps|
      invariant table == Installed(map[], ps[..i])
    {
      assert ps[..i + 1][..i] == ps[..i];
      table := table[ps[i].key := ps[i].production];
    }
    assert ps[..|ps|] == ps;
  }

  /** Builds the table by issuing every put in order, as the static initialiser does. */
  method InitialiseParsingTable() returns (table: map<Key, Production>)
    ensures table == ParsingTable()
  {
    table := PutAll(Puts());
  }

  // ---------------------------------------------------------------------------
  // Folding puts into a map

  /** No key is put twice in `ps`. */
  predicate DistinctKeys(ps: seq<Put>) {
    forall i, j | 0 <= j < i < |ps| :: ps[i].key != ps[j].key
  }

  /** When no key is put twice, every put survives in the map. */
  lemma {:induction false} InstalledHas(m: map<Key, Production>, ps: seq<Put>, i: nat)
    requires i < |ps| && DistinctKeys(ps)
    ensures ps[i].key in Installed(m, ps)
    ensures Installed(m, ps)[ps[i].key] == ps[i].production
  {
    var n := |ps| - 1;
    if i < n {
      assert ps[n].key != ps[i].key;
      InstalledHas(m, ps[..n], i);
    }
  }

  /** A key that is not put and not already present stays absent. */
  lemma {:induction false} InstalledLacks(m: map<Key, Production>, ps: seq<Put>, k: Key)
    requires k !in m
    requires forall i | 0 <= i < |ps| :: ps[i].key != k
    ensures k !in Installed(m, ps)
  {
    if ps != [] {
      InstalledLacks(m, ps[..|ps| - 1], k);
    }
  }

  // ---------------------------------------------------------------------------
  // The order of the rows

  /** The position of each non-terminal in `PutOrder`. */
  function OrderIndex(l: Label): nat {
    match l
    case Prog => 0 case Los => 1 case Stat => 2 case WhileStat => 3 case ForStat => 4
    case ForStart => 5 case ForArith => 6 case IfStat => 7 case ElseIfStat => 8
    case ElseOrElseIf => 9 case PossIf => 10 case Assign => 11 case Decl => 12
    case PossAssign => 13 case Print => 14 case Type => 15 case Expr => 16
    case CharExpr => 17 case BoolExpr => 18 case BoolOp => 19 case BoolEq => 20
    case BoolLog => 21 case RelExpr => 22 case RelExprPrime => 23 case RelOp => 24
    case ArithExpr => 25 case ArithExprPrime => 26 case Term => 27 case TermPrime => 28
    case Factor => 29 case PrintExpr => 30 case Epsilon => 31 case Terminal => 32
  }

  /** The initialiser fills the row of every non-terminal, each exactly once. */
  lemma PutOrderFacts()
    ensures forall i, j | 0 <= j < i < |PutOrder| :: PutOrder[i] != PutOrder[j]
    ensures forall l: Label | l != Epsilon && l != Terminal :: l in PutOrder
  {
    PutOrderIndexed();
    PutOrderCovers();
  }

  lemma PutOrderIndexed()
    ensures |PutOrder| == 31 && forall i | 0 <= i < 31 :: OrderIndex(PutOrder[i]) == i
  {
    PutOrderIndexedLow();
    PutOrderIndexedHigh();
  }

  lemma PutOrderIndexedLow()
    ensures |PutOrder| == 31 && forall i | 0 <= i < 16 :: OrderIndex(PutOrder[i]) == i
  {}

  lemma PutOrderIndexedHigh()
    ensures |PutOrder| == 31 && forall i | 16 <= i < 31 :: OrderIndex(PutOrder[i]) == i
  {}

  lemma PutOrderCovers()
    ensures forall l: Label | l != Epsilon && l != Terminal :: l in PutOrder
  {}

  /** Every put of `PutsOf(rows, ls)` is an entry of the row of a member of `ls`. */
  lemma {:induction false} PutsOfShape(rows: Label -> seq<(TokenType, Production)>, ls: seq<Label>, i: nat)
    returns (l: Label, k: nat)
    requires i < |PutsOf(rows, ls)|
    ensures l in ls && k < |rows(l)|
    ensures PutsOf(rows, ls)[i] == Put((l, rows(l)[k].0), rows(l)[k].1)
  {
    var n := |ls| - 1;
    var a := PutsOf(rows, ls[..n]);
    if i < |a| {
      l, k := PutsOfShape(rows, ls[..n], i);
    } else {
      l, k := ls[n], i - |a|;
    }
  }

  /** Every entry of the row of a member of `ls` is put by `PutsOf(rows, ls)`. */
  lemma {:induction false} PutsOfFind(rows: Label -> seq<(TokenType, Production)>, ls: seq<Label>, l: Label, k: nat)
    returns (i: nat)
    requires l in ls && k < |rows(l)|
    ensures i < |PutsOf(rows, ls)| && PutsOf(rows, ls)[i] == Put((l, rows(l)[k].0), rows(l)[k].1)
  {
    var n := |ls| - 1;
    var a := PutsOf(rows, ls[..n]);
    if ls[n] == l {
      i := |a| + k;
    } else {
      assert l in ls[..n];
      i := PutsOfFind(rows, ls[..n], l, k);
    }
  }

  /** Rows of distinct non-terminals, each with distinct lookaheads, put no
      key twice. */
  lemma {:induction false} PutsOfDistinct(rows: Label -> seq<(TokenType, Production)>, ls: seq<Label>)
    requires forall i, j | 0 <= j < i < |ls| :: ls[i] != ls[j]
    requires forall l :: LookaheadsDistinct(rows(l))
    ensures DistinctKeys(PutsOf(rows, ls))
  {
    if ls != [] {
      var n := |ls| - 1;
      var a := PutsOf(rows, ls[..n]);
      var b := RowPuts(rows, ls[n]);
      PutsOfDistinct(rows, ls[..n]);
      assert LookaheadsDistinct(rows(ls[n]));
      var ps: seq<Put> := PutsOf(rows, ls);
      assert ps == a + b;
      forall i, j | 0 <= j < i < |ps| ensures ps[i].key != ps[j].key {
        if j < |a| <= i {
          var l, k := PutsOfShape(rows, ls[..n], j);
          assert ps[i].key.0 == ls[n] != l;
        }
      }
    }
  }

  /** Installing the rows of distinct non-terminals `ls` keeps every entry
      of the row of a member of `ls`. */
  lemma InstalledRowHas(rows: Label -> seq<(TokenType, Production)>, ls: seq<Label>, l: Label, t: TokenType)
    requires forall i, j | 0 <= j < i < |ls| :: ls[i] != ls[j]
    requires forall l :: LookaheadsDistinct(rows(l))
    requires l in ls && RowLookup(rows(l), t).Some?
    ensures (l, t) in Installed(map[], PutsOf(rows, ls))
    ensures Installed(map[], PutsOf(rows, ls))[(l, t)] == RowLookup(rows(l), t).value
  {
    PutsOfDistinct(rows, ls);
    var k := RowLookupSome(rows(l), t);
    var i := PutsOfFind(rows, ls, l, k);
    InstalledHas(map[], PutsOf(rows, ls), i);
  }

  /** Installing the rows of `ls` puts no key whose non-terminal is outside
      `ls` or whose lookahead its row does not have. */
  lemma InstalledRowLacks(rows: Label -> seq<(TokenType, Production)>, ls: seq<Label>, l: Label, t: TokenType)
    requires forall l :: LookaheadsDistinct(rows(l))
    requires l !in ls || RowLookup(rows(l), t).None?
    ensures (l, t) !in Installed(map[], PutsOf(rows, ls))
  {
    var ps := PutsOf(rows, ls);
    forall i | 0 <= i < |ps| ensures ps[i].key != (l, t) {
      var l', k := PutsOfShape(rows, ls, i);
      if l' == l && rows(l)[k].0 == t {
        RowLookupAt(rows(l), k);
      }
    }
    InstalledLacks(map[], ps, (l, t));
  }

  /** Installing the rows of distinct non-terminals `ls` gives a map whose
      lookup of `(l, t)` is the lookup in row `l` when `l` is in `ls`, and
      nothing otherwise. */
  lemma InstalledRows(rows: Label -> seq<(TokenType, Production)>, ls: seq<Label>, l: Label, t: TokenType)
    requires forall i, j | 0 <= j < i < |ls| :: ls[i] != ls[j]
    requires forall l :: LookaheadsDistinct(rows(l))
    ensures var m := Installed(map[], PutsOf(rows, ls));
      if l in ls && RowLookup(rows(l), t).Some?
      then (l, t) in m && m[(l, t)] == RowLookup(rows(l), t).value
      else (l, t) !in m
  {
    if l in ls && RowLookup(rows(l), t).Some? {
      InstalledRowHas(rows, ls, l, t);
    } else {
      InstalledRowLacks(rows, ls, l, t);
    }
  }

  /** The row of `l` puts lookahead `t` at entry `k` when its lookup finds `t`. */
  lemma {:induction false} RowLookupSome(r: seq<(TokenType, Production)>, t: TokenType) returns (k: nat)
    requires RowLookup(r, t).Some?
    ensures k < |r| && r[k] == (t, RowLookup(r, t).value)
  {
    if r[0].0 == t {
      k := 0;
    } else {
      k := RowLookupSome(r[1..], t);
      k := k + 1;
    }
  }

  /** In a row with distinct lookaheads, the lookup of entry `k`'s lookahead
      finds entry `k`. */
  lemma {:induction false} RowLookupAt(r: seq<(TokenType, Production)>, k: nat)
    requires k < |r| && LookaheadsDistinct(r)
    ensures RowLookup(r, r[k].0) == Some(r[k].1)
  {
    if k > 0 {
      assert r[k].0 != r[0].0;
      assert r[1..][k - 1] == r[k];
      RowLookupAt(r[1..], k - 1);
    }
  }

  /** What a row that passes the checks gives its lookups: a well-formed
      production, and one other than the epsilon one exactly under the
      lookaheads of `f`. */
  lemma RowLookupFacts(l: Label, r: seq<(TokenType, Production)>, f: seq<TokenType>, t: TokenType)
    requires LookaheadsDistinct(r) && |f| <= |r|
    requires forall k | 0 <= k < |r| :: EntryFacts(l, r, f, k)
    ensures RowLookup(r, t).Some? ==> EntryOK(l, t, RowLookup(r, t).value)
    ensures t in f <==> RowLookup(r, t).Some? && !IsEpsilonProduction(RowLookup(r, t).value)
  {
    if RowLookup(r, t).Some? {
      var k := RowLookupSome(r, t);
      assert EntryFacts(l, r, f, k);
    }
    if t in f {
      var k :| 0 <= k < |f| && f[k] == t;
      assert EntryFacts(l, r, f, k);
      RowLookupAt(r, k);
    }
  }

  // ---------------------------------------------------------------------------
  // What the table holds

  /** The LL(1) property: the initialiser never puts the same key twice. */
  lemma NoKeyPutTwice()
    ensures DistinctKeys(Puts())
  {
    PutOrderFacts();
    RowsDistinct();
    PutsOfDistinct(Row, PutOrder);
  }

  /** Every row puts each lookahead once. */
  lemma RowsDistinct()
    ensures forall l :: LookaheadsDistinct(Row(l))
  {
    forall l ensures LookaheadsDistinct(Row(l)) {
      RowOKAt(l);
    }
  }

  /** No put is overwritten: the table holds every production put. */
  lemma NoPutOverwritten(i: nat)
    requires i < |Puts()|
    ensures Puts()[i].key in ParsingTable()
    ensures ParsingTable()[Puts()[i].key] == Puts()[i].production
  {
    NoKeyPutTwice();
    InstalledHas(map[], Puts(), i);
  }

  /** The table's lookup is the lookup in the non-terminal's row. */
  lemma TableMatchesRows(l: Label, t: TokenType)
    ensures Lookup(l, t) == RowLookup(Row(l), t)
  {
    PutOrderFacts();
    RowsDistinct();
    InstalledRows(Row, PutOrder, l, t);
  }

  /** Every production in the table is well formed for its key, and the key
      has a production other than the epsilon one exactly when its lookahead
      is in the FIRST set of its non-terminal. */
  lemma LookupWellFormed(l: Label, t: TokenType)
    ensures Lookup(l, t).Some? ==> EntryOK(l, t, Lookup(l, t).value)
    ensures t in First(l) <==> Lookup(l, t).Some? && !IsEpsilonProduction(Lookup(l, t).value)
  {
    TableMatchesRows(l, t);
    RowOKAt(l);
    RowLookupFacts(l, Row(l), First(l), t);
  }

  /** No production in the table mentions `EOF`, so the driver never expects
      the end marker. */
  lemma NoEofInTable(l: Label, t: TokenType)
    ensures Lookup(l, t).Some? ==> T(EOF) !in Lookup(l, t).value
  {
    LookupWellFormed(l, t);
    if Lookup(l, t).Some? {
      EntryNoEof(l, t, Lookup(l, t).value);
    }
  }

  /** A well-formed entry never mentions `EOF`. */
  lemma EntryNoEof(l: Label, t: TokenType, p: Production)
    requires EntryOK(l, t, p)
    ensures T(EOF) !in p
  {
  }

  /** The facts about a table that the driver relies on: every production
      is well formed for its key, and every lookahead in the FIRST set of a
      non-terminal has a production other than the epsilon one. */
  predicate WellFormedTable(table: map<Key, Production>) {
    (forall l, t | (l, t) in table :: EntryOK(l, t, table[(l, t)])) &&
    (forall l, t | t in First(l) :: (l, t) in table && !IsEpsilonProduction(table[(l, t)]))
  }

  /** The initialiser's table is well formed. */
  lemma TableWellFormed()
    ensures WellFormedTable(ParsingTable())
  {
    forall l, t | (l, t) in ParsingTable() ensures EntryOK(l, t, ParsingTable()[(l, t)]) {
      LookupWellFormed(l, t);
    }
    forall l, t | t in First(l)
      ensures (l, t) in ParsingTable() && !IsEpsilonProduction(ParsingTable()[(l, t)])
    {
      LookupWellFormed(l, t);
    }
  }
}
