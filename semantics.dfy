/**
 * What the two trees mean on one record, and the proof that the translation preserves it:
 * a record passes DuckDB's table filter exactly when Arrow's filter expression is true on it.
 */
module Semantics {
  import opened Wrappers
  import opened Values
  import opened Constants
  import opened Filters

  /** A record of an Arrow table: each column name holds a scalar or null (`None`). */
  type Row = map<string, Option<Scalar>>

  /** What Arrow's `and_` and `or_` over no operands evaluate to, left open. */
  datatype Combinators = Combinators(andOfNone: Option<Scalar>, orOfNone: Option<Scalar>)

  datatype Truth = True | False | Unknown

  /** How a filter reads a datum: a boolean scalar is its truth, anything else (null) is unknown. */
  function TruthOf(d: Option<Scalar>): Truth
  {
    if d == Some(BooleanScalar(true)) then True
    else if d == Some(BooleanScalar(false)) then False
    else Unknown
  }

  function Boolean(b: bool): Option<Scalar>
  {
    Some(BooleanScalar(b))
  }

  /** A comparison kernel: null when either side is null or the two are not comparable. */
  function Compared(a: Option<Scalar>, b: Option<Scalar>, test: int -> bool): Option<Scalar>
  {
    if a.None? || b.None? then None
    else
      var order := CompareScalars(a.value, b.value);
      if order.None? then None else Boolean(test(order.value))
  }

  /** The cell of `column` in `row`; a field the record lacks reads as null. */
  function Cell(row: Row, column: string): Option<Scalar>
  {
    if column in row then row[column] else None
  }

  /** Arrow's evaluation of an expression on one record, with Kleene logic for `and_` and `or_`. */
  function Eval(e: Expr, row: Row, lib: Combinators): Option<Scalar>
  {
    match e
    case Field(n) => Cell(row, n)
    case Lit(s) => Some(s)
    case Eq(l, r) => Compared(Eval(l, row, lib), Eval(r, row, lib), o => o == 0)
    case Lt(l, r) => Compared(Eval(l, row, lib), Eval(r, row, lib), o => o < 0)
    case Gt(l, r) => Compared(Eval(l, row, lib), Eval(r, row, lib), o => o > 0)
    case Le(l, r) => Compared(Eval(l, row, lib), Eval(r, row, lib), o => o <= 0)
    case Ge(l, r) => Compared(Eval(l, row, lib), Eval(r, row, lib), o => o >= 0)
    case IsNull(x) => Boolean(Eval(x, row, lib).None?)
    case IsValid(x) => Boolean(Eval(x, row, lib).Some?)
    case And(xs) =>
      if xs == [] then lib.andOfNone
      else if exists i :: 0 <= i < |xs| && TruthOf(Eval(xs[i], row, lib)) == False then Boolean(false)
      else if forall i :: 0 <= i < |xs| ==> TruthOf(Eval(xs[i], row, lib)) == True then Boolean(true)
      else None
    case Or(xs) =>
      if xs == [] then lib.orOfNone
      else if exists i :: 0 <= i < |xs| && TruthOf(Eval(xs[i], row, lib)) == True then Boolean(true)
      else if forall i :: 0 <= i < |xs| ==> TruthOf(Eval(xs[i], row, lib)) == False then Boolean(false)
      else None
  }

  /** Arrow's dataset filter keeps a record exactly when the expression is true on it. */
  predicate Selects(e: Expr, row: Row, lib: Combinators)
  {
    TruthOf(Eval(e, row, lib)) == True
  }

  /** DuckDB's reading of an Arrow cell (`None` is NULL). */
  function Read(cell: Option<Scalar>): Option<Value>
  {
    if cell.None? then None else Some(ToValue(cell.value))
  }

  /** How a constant filter judges the three-way order of a cell against its constant.  The
      other expression types are given no meaning here (the translator refuses them). */
  predicate ComparisonHolds(c: ExpressionType, order: int)
  {
    match c
    case CompareEqual => order == 0
    case CompareNotEqual => order != 0
    case CompareLessThan => order < 0
    case CompareGreaterThan => order > 0
    case CompareLessThanOrEqualTo => order <= 0
    case CompareGreaterThanOrEqualTo => order >= 0
    case _ => false
  }

  /** DuckDB's meaning of a table filter on one cell: a NULL cell fails every comparison.
      Unknown filter kinds are given no meaning here (the translator refuses them). */
  predicate Holds(f: TableFilter, cell: Option<Value>)
  {
    match f
    case ConstantComparison(c, v) =>
      cell.Some? && var order := CompareValues(cell.value, v); order.Some? && ComparisonHolds(c, order.value)
    case IsNullFilter => cell.None?
    case IsNotNullFilter => cell.Some?
    case ConjunctionOr(cs) => exists i :: 0 <= i < |cs| && Holds(cs[i], cell)
    case ConjunctionAnd(cs) => forall i :: 0 <= i < |cs| ==> Holds(cs[i], cell)
    case OtherFilter(_) => false
  }

  /** Every empty conjunction in `f` meets Arrow's combinator on no operands with the same
      verdict DuckDB gives it: an empty AND passes, an empty OR does not. */
  predicate EmptyCombinatorsAgree(f: TableFilter, lib: Combinators)
  {
    match f
    case ConjunctionOr(cs) =>
      (cs == [] ==> TruthOf(lib.orOfNone) != True)
      && forall i :: 0 <= i < |cs| ==> EmptyCombinatorsAgree(cs[i], lib)
    case ConjunctionAnd(cs) =>
      (cs == [] ==> TruthOf(lib.andOfNone) == True)
      && forall i :: 0 <= i < |cs| ==> EmptyCombinatorsAgree(cs[i], lib)
    case _ => true
  }

  /** The translated comparison is true on a record exactly when DuckDB's constant filter holds. */
  lemma ComparisonAgrees(c: ExpressionType, v: Value, column: string, makeTimestamp: TimestampFactory, row: Row, lib: Combinators)
    requires Translatable(ConstantComparison(c, v), makeTimestamp)
    ensures Selects(Translate(ConstantComparison(c, v), column, makeTimestamp).value, row, lib)
            <==> Holds(ConstantComparison(c, v), Read(Cell(row, column)))
  {
    var s := ConvertConstant(v, makeTimestamp).value;
    var cell := Cell(row, column);
    var e := Translate(ConstantComparison(c, v), column, makeTimestamp).value;
    if cell.Some? {
      CompareAgrees(cell.value, s);
      assert ToValue(s) == v;
    }
    if c.CompareEqual? {
      assert Eval(e, row, lib) == Compared(cell, Some(s), o => o == 0);
    } else if c.CompareLessThan? {
      assert Eval(e, row, lib) == Compared(cell, Some(s), o => o < 0);
    } else if c.CompareGreaterThan? {
      assert Eval(e, row, lib) == Compared(cell, Some(s), o => o > 0);
    } else if c.CompareLessThanOrEqualTo? {
      assert Eval(e, row, lib) == Compared(cell, Some(s), o => o <= 0);
    } else {
      assert Eval(e, row, lib) == Compared(cell, Some(s), o => o >= 0);
    }
  }

  /** Kleene `or_` over operands that each agree with a DuckDB filter agrees with their disjunction. */
  lemma OrAgrees(xs: seq<Expr>, cs: seq<TableFilter>, cell: Option<Value>, row: Row, lib: Combinators)
    requires |xs| == |cs|
    requires cs == [] ==> TruthOf(lib.orOfNone) != True
    requires forall i :: 0 <= i < |cs| ==> (Selects(xs[i], row, lib) <==> Holds(cs[i], cell))
    ensures Selects(Or(xs), row, lib) <==> Holds(ConjunctionOr(cs), cell)
  {
  }

  /** Kleene `and_` over operands that each agree with a DuckDB filter agrees with their conjunction. */
  lemma AndAgrees(xs: seq<Expr>, cs: seq<TableFilter>, cell: Option<Value>, row: Row, lib: Combinators)
    requires |xs| == |cs|
    requires cs == [] ==> TruthOf(lib.andOfNone) == True
    requires forall i :: 0 <= i < |cs| ==> (Selects(xs[i], row, lib) <==> Holds(cs[i], cell))
    ensures Selects(And(xs), row, lib) <==> Holds(ConjunctionAnd(cs), cell)
  {
  }

  /** Pushdown is faithful: on every record, the translated expression selects the record exactly
      when DuckDB's filter holds of the column's cell. */
  lemma {:induction false} TranslationAgrees(f: TableFilter, column: string, makeTimestamp: TimestampFactory, row: Row, lib: Combinators)
    requires Translatable(f, makeTimestamp)
    requires EmptyCombinatorsAgree(f, lib)
    ensures Selects(Translate(f, column, makeTimestamp).value, row, lib) <==> Holds(f, Read(Cell(row, column)))
    decreases f
  {
    var cell := Read(Cell(row, column));
    match f
    case ConstantComparison(c, v) =>
      ComparisonAgrees(c, v, column, makeTimestamp, row, lib);
    case IsNullFilter =>
      assert Translate(f, column, makeTimestamp).value == IsNull(Field(column));
      assert Eval(IsNull(Field(column)), row, lib) == Boolean(Cell(row, column).None?);
    case IsNotNullFilter =>
      assert Translate(f, column, makeTimestamp).value == IsValid(Field(column));
      assert Eval(IsValid(Field(column)), row, lib) == Boolean(Cell(row, column).Some?);
    case ConjunctionOr(cs) =>
      ChildrenInOrder(f, cs, column, makeTimestamp);
      var es := TranslateChildren(f, cs, column, makeTimestamp).value;
      forall i | 0 <= i < |cs|
        ensures Selects(es[i], row, lib) <==> Holds(cs[i], cell)
      {
        TranslationAgrees(cs[i], column, makeTimestamp, row, lib);
      }
      assert Translate(f, column, makeTimestamp).value == Or(es);
      OrAgrees(es, cs, cell, row, lib);
    case ConjunctionAnd(cs) =>
      ChildrenInOrder(f, cs, column, makeTimestamp);
      var es := TranslateChildren(f, cs, column, makeTimestamp).value;
      forall i | 0 <= i < |cs|
        ensures Selects(es[i], row, lib) <==> Holds(cs[i], cell)
      {
        TranslationAgrees(cs[i], column, makeTimestamp, row, lib);
      }
      assert Translate(f, column, makeTimestamp).value == And(es);
      AndAgrees(es, cs, cell, row, lib);
  }

  /** The whole filter set: the `and_` of the per-column translations selects a record exactly
      when every DuckDB filter holds of the cell its column id names. */
  lemma FilterSetAgrees(entries: seq<FilterEntry>, names: map<ColumnId, string>, makeTimestamp: TimestampFactory,
                        args: seq<Expr>, row: Row, lib: Combinators)
    requires |entries| > 0 && |args| == |entries|
    requires forall k :: 0 <= k < |entries| ==>
               Translate(entries[k].1, ColumnName(names, entries[k].0), makeTimestamp) == Ok(args[k])
    requires forall k :: 0 <= k < |entries| ==> EmptyCombinatorsAgree(entries[k].1, lib)
    ensures Selects(And(args), row, lib)
            <==> forall k :: 0 <= k < |entries| ==> Holds(entries[k].1, Read(Cell(row, ColumnName(names, entries[k].0))))
  {
    forall k | 0 <= k < |entries|
      ensures Selects(args[k], row, lib) <==> Holds(entries[k].1, Read(Cell(row, ColumnName(names, entries[k].0))))
    {
      TranslationAgrees(entries[k].1, ColumnName(names, entries[k].0), makeTimestamp, row, lib);
    }
  }
}
