/**
 * `convert_filter` and `convert_filters`: DuckDB's `TableFilter` trees become
 * Arrow compute expressions over a field reference by column name.
 */
module Filters {
  import opened Wrappers
  import opened Values
  import opened Constants

  /** DuckDB's table filters on one column (the column is the key they are stored under). */
  datatype TableFilter =
    | ConstantComparison(comparison: ExpressionType, constant: Value)
    | IsNullFilter
    | IsNotNullFilter
    | ConjunctionOr(children: seq<TableFilter>)
    | ConjunctionAnd(children: seq<TableFilter>)
    | OtherFilter(filterType: nat)

  /** Arrow compute expressions built by the translation. */
  datatype Expr =
    | Field(name: string)
    | Lit(scalar: Scalar)
    | Eq(left: Expr, right: Expr)
    | Lt(left: Expr, right: Expr)
    | Gt(left: Expr, right: Expr)
    | Le(left: Expr, right: Expr)
    | Ge(left: Expr, right: Expr)
    | IsNull(arg: Expr)
    | IsValid(arg: Expr)
    | And(args: seq<Expr>)
    | Or(args: seq<Expr>)

  /** The comparisons Arrow has a kernel for in this translation. */
  predicate Pushable(c: ExpressionType)
  {
    c.CompareEqual? || c.CompareLessThan? || c.CompareGreaterThan?
    || c.CompareLessThanOrEqualTo? || c.CompareGreaterThanOrEqualTo?
  }

  /** Which filters translate: an independent, structural statement of the translator's domain. */
  predicate Translatable(f: TableFilter, makeTimestamp: TimestampFactory)
  {
    match f
    case ConstantComparison(c, v) => Convertible(v, makeTimestamp) && Pushable(c)
    case IsNullFilter => true
    case IsNotNullFilter => true
    case ConjunctionOr(cs) => forall i :: 0 <= i < |cs| ==> Translatable(cs[i], makeTimestamp)
    case ConjunctionAnd(cs) => forall i :: 0 <= i < |cs| ==> Translatable(cs[i], makeTimestamp)
    case OtherFilter(_) => false
  }

  /** The field names an expression reads. */
  function FieldsOf(e: Expr): set<string>
  {
    match e
    case Field(n) => {n}
    case Lit(_) => {}
    case Eq(l, r) => FieldsOf(l) + FieldsOf(r)
    case Lt(l, r) => FieldsOf(l) + FieldsOf(r)
    case Gt(l, r) => FieldsOf(l) + FieldsOf(r)
    case Le(l, r) => FieldsOf(l) + FieldsOf(r)
    case Ge(l, r) => FieldsOf(l) + FieldsOf(r)
    case IsNull(x) => FieldsOf(x)
    case IsValid(x) => FieldsOf(x)
    case And(xs) => set i, n | 0 <= i < |xs| && n in FieldsOf(xs[i]) :: n
    case Or(xs) => set i, n | 0 <= i < |xs| && n in FieldsOf(xs[i]) :: n
  }

  /** `convert_filter`, as a function: the specification the method below is proved against. */
  function Translate(f: TableFilter, column: string, makeTimestamp: TimestampFactory): (r: Result<Expr, ConvertError>)
    ensures r.Ok? <==> Translatable(f, makeTimestamp)
    ensures r.Ok? ==> FieldsOf(r.value) <= {column}
    decreases f, 1
  {
    match f
    case ConstantComparison(c, v) =>
      var constant := ConvertConstant(v, makeTimestamp);
      if constant.Err? then Err(constant.error)
      else
        var field, literal := Field(column), Lit(constant.value);
        (match c
         case CompareEqual => Ok(Eq(field, literal))
         case CompareLessThan => Ok(Lt(field, literal))
         case CompareGreaterThan => Ok(Gt(field, literal))
         case CompareLessThanOrEqualTo => Ok(Le(field, literal))
         case CompareGreaterThanOrEqualTo => Ok(Ge(field, literal))
         case _ => Err(NotImplemented(UnsupportedComparison(c))))
    case IsNullFilter => Ok(IsNull(Field(column)))
    case IsNotNullFilter => Ok(IsValid(Field(column)))
    case ConjunctionOr(cs) =>
      var subs := TranslateChildren(f, cs, column, makeTimestamp);
      if subs.Err? then Err(subs.error) else Ok(Or(subs.value))
    case ConjunctionAnd(cs) =>
      var subs := TranslateChildren(f, cs, column, makeTimestamp);
      if subs.Err? then Err(subs.error) else Ok(And(subs.value))
    case OtherFilter(t) => Err(NotImplemented(UnknownFilterType(t)))
  }

  /** Arrow's kernel for each pushable comparison: `equal`, `less`, `greater`, `less_equal`
      and `greater_equal`. */
  function Kernel(c: ExpressionType, left: Expr, right: Expr): Expr
    requires Pushable(c)
  {
    if c.CompareEqual? then Eq(left, right)
    else if c.CompareLessThan? then Lt(left, right)
    else if c.CompareGreaterThan? then Gt(left, right)
    else if c.CompareLessThanOrEqualTo? then Le(left, right)
    else Ge(left, right)
  }

  /** A constant comparison becomes its kernel applied to the field on the left and, on the
      right, a literal holding the constant's value. */
  lemma ComparisonTranslation(c: ExpressionType, v: Value, column: string, makeTimestamp: TimestampFactory)
    requires Pushable(c) && Convertible(v, makeTimestamp)
    ensures var r := Translate(ConstantComparison(c, v), column, makeTimestamp);
            r.Ok? && r.value == Kernel(c, Field(column), r.value.right)
            && r.value.right.Lit? && ToValue(r.value.right.scalar) == v
  {
  }

  /** Which error a refused filter raises: the constant's own error comes first, then an
      unsupported comparison, and an unknown filter kind is not implemented. */
  lemma TranslationErrors(f: TableFilter, column: string, makeTimestamp: TimestampFactory)
    ensures f.ConstantComparison? && !Convertible(f.constant, makeTimestamp) ==>
              Translate(f, column, makeTimestamp) == Err(ConvertConstant(f.constant, makeTimestamp).error)
    ensures f.ConstantComparison? && Convertible(f.constant, makeTimestamp) && !Pushable(f.comparison) ==>
              Translate(f, column, makeTimestamp) == Err(NotImplemented(UnsupportedComparison(f.comparison)))
    ensures f.OtherFilter? ==> Translate(f, column, makeTimestamp) == Err(NotImplemented(UnknownFilterType(f.filterType)))
  {
  }

  /** The children of conjunction `parent`, translated in order; the first failure is the result. */
  function TranslateChildren(ghost parent: TableFilter, cs: seq<TableFilter>, column: string, makeTimestamp: TimestampFactory)
    : (r: Result<seq<Expr>, ConvertError>)
    requires forall i :: 0 <= i < |cs| ==> cs[i] < parent
    ensures r.Ok? <==> forall i :: 0 <= i < |cs| ==> Translatable(cs[i], makeTimestamp)
    ensures r.Ok? ==> |r.value| == |cs|
    ensures r.Ok? ==> forall i :: 0 <= i < |cs| ==> FieldsOf(r.value[i]) <= {column}
    decreases parent, 0, |cs|
  {
    if cs == [] then Ok([])
    else
      var head := Translate(cs[0], column, makeTimestamp);
      if head.Err? then Err(head.error)
      else
        var tail := TranslateChildren(parent, cs[1..], column, makeTimestamp);
        if tail.Err? then Err(tail.error) else Ok([head.value] + tail.value)
  }

  /** One step of the children loop: the child at `i` is translated before those after it. */
  lemma TranslateChildrenStep(parent: TableFilter, cs: seq<TableFilter>, i: nat, column: string, makeTimestamp: TimestampFactory)
    requires forall j :: 0 <= j < |cs| ==> cs[j] < parent
    requires i < |cs|
    ensures TranslateChildren(parent, cs[i..], column, makeTimestamp)
            == var head := Translate(cs[i], column, makeTimestamp);
               if head.Err? then Err(head.error)
               else Prepend([head.value], TranslateChildren(parent, cs[i + 1..], column, makeTimestamp))
  {
    assert cs[i..][0] == cs[i] && cs[i..][1..] == cs[i + 1..];
  }

  /** A conjunction's children translate pairwise, in order, and none is dropped or added. */
  lemma {:induction false} ChildrenInOrder(parent: TableFilter, cs: seq<TableFilter>, column: string, makeTimestamp: TimestampFactory)
    requires forall j :: 0 <= j < |cs| ==> cs[j] < parent
    requires TranslateChildren(parent, cs, column, makeTimestamp).Ok?
    ensures var es := TranslateChildren(parent, cs, column, makeTimestamp).value;
            |es| == |cs| && forall i :: 0 <= i < |cs| ==> Translate(cs[i], column, makeTimestamp) == Ok(es[i])
  {
    if cs != [] {
      ChildrenInOrder(parent, cs[1..], column, makeTimestamp);
      var es := TranslateChildren(parent, cs, column, makeTimestamp).value;
      var tail := TranslateChildren(parent, cs[1..], column, makeTimestamp).value;
      assert es == [es[0]] + tail;
      forall i | 0 <= i < |cs|
        ensures Translate(cs[i], column, makeTimestamp) == Ok(es[i])
      {
        if i > 0 {
          assert cs[i] == cs[1..][i - 1] && es[i] == tail[i - 1];
        }
      }
    }
  }

  /** A failing child aborts the whole conjunction with the error of the first child that fails;
      no partial expression is built. */
  lemma {:induction false} FirstFailureWins(parent: TableFilter, cs: seq<TableFilter>, column: string, makeTimestamp: TimestampFactory)
    requires forall j :: 0 <= j < |cs| ==> cs[j] < parent
    requires TranslateChildren(parent, cs, column, makeTimestamp).Err?
    ensures exists k :: 0 <= k < |cs|
                        && (forall j :: 0 <= j < k ==> Translatable(cs[j], makeTimestamp))
                        && Translate(cs[k], column, makeTimestamp) == Err(TranslateChildren(parent, cs, column, makeTimestamp).error)
  {
    var e := TranslateChildren(parent, cs, column, makeTimestamp).error;
    if Translate(cs[0], column, makeTimestamp).Err? {
      assert Translate(cs[0], column, makeTimestamp) == Err(e);
    } else {
      FirstFailureWins(parent, cs[1..], column, makeTimestamp);
      var k :| 0 <= k < |cs[1..]|
               && (forall j :: 0 <= j < k ==> Translatable(cs[1..][j], makeTimestamp))
               && Translate(cs[1..][k], column, makeTimestamp) == Err(e);
      assert forall j :: 0 <= j < k + 1 ==> Translatable(cs[j], makeTimestamp) by {
        forall j | 0 <= j < k + 1 ensures Translatable(cs[j], makeTimestamp) {
          if j > 0 { assert cs[j] == cs[1..][j - 1]; }
        }
      }
      assert cs[k + 1] == cs[1..][k];
    }
  }

  /** Appends translated children to those already translated, or passes a failure on. */
  function Prepend(done: seq<Expr>, rest: Result<seq<Expr>, ConvertError>): Result<seq<Expr>, ConvertError>
  {
    if rest.Err? then rest else Ok(done + rest.value)
  }

  /** `convert_filter`: a constant comparison, a null test or a conjunction whose children are
      translated one by one into a vector and combined with `or_` or `and_`. */
  method ConvertFilter(f: TableFilter, column: string, makeTimestamp: TimestampFactory) returns (r: Result<Expr, ConvertError>)
    ensures r == Translate(f, column, makeTimestamp)
    decreases f
  {
    var field := Field(column);
    match f {
      case ConstantComparison(c, v) =>
        var constant := ConvertConstant(v, makeTimestamp);
        if constant.Err? {
          return Err(constant.error);
        }
        var literal := Lit(constant.value);
        match c {
          case CompareEqual => r := Ok(Eq(field, literal));
          case CompareLessThan => r := Ok(Lt(field, literal));
          case CompareGreaterThan => r := Ok(Gt(field, literal));
          case CompareLessThanOrEqualTo => r := Ok(Le(field, literal));
          case CompareGreaterThanOrEqualTo => r := Ok(Ge(field, literal));
          case _ => r := Err(NotImplemented(UnsupportedComparison(c)));
        }
      case IsNullFilter => r := Ok(IsNull(field));
      case IsNotNullFilter => r := Ok(IsValid(field));
      case ConjunctionOr(cs) =>
        var subs := ConvertChildren(f, column, makeTimestamp);
        r := if subs.Err? then Err(subs.error) else Ok(Or(subs.value));
      case ConjunctionAnd(cs) =>
        var subs := ConvertChildren(f, column, makeTimestamp);
        r := if subs.Err? then Err(subs.error) else Ok(And(subs.value));
      case OtherFilter(t) => r := Err(NotImplemented(UnknownFilterType(t)));
    }
  }

  /** The loop over the children keeps the children still to translate in step with the
      translations collected so far. */
  lemma ChildLoopStep(parent: TableFilter, cs: seq<TableFilter>, i: nat, subs: seq<Expr>, column: string, makeTimestamp: TimestampFactory)
    requires forall j :: 0 <= j < |cs| ==> cs[j] < parent
    requires i < |cs|
    requires TranslateChildren(parent, cs, column, makeTimestamp)
             == Prepend(subs, TranslateChildren(parent, cs[i..], column, makeTimestamp))
    ensures var child := Translate(cs[i], column, makeTimestamp);
            TranslateChildren(parent, cs, column, makeTimestamp)
            == if child.Err? then Err(child.error)
               else Prepend(subs + [child.value], TranslateChildren(parent, cs[i + 1..], column, makeTimestamp))
  {
    TranslateChildrenStep(parent, cs, i, column, makeTimestamp);
    var child := Translate(cs[i], column, makeTimestamp);
    var rest := TranslateChildren(parent, cs[i + 1..], column, makeTimestamp);
    if child.Ok? && rest.Ok? {
      assert subs + ([child.value] + rest.value) == (subs + [child.value]) + rest.value;
    }
  }

  /** The loop over `child_filters` of a conjunction, appending each translation to a vector. */
  method ConvertChildren(f: TableFilter, column: string, makeTimestamp: TimestampFactory) returns (r: Result<seq<Expr>, ConvertError>)
    requires f.ConjunctionOr? || f.ConjunctionAnd?
    ensures r == TranslateChildren(f, f.children, column, makeTimestamp)
    decreases f, 0
  {
    var cs := f.children;
    var subs: seq<Expr> := [];
    var i := 0;
    assert cs[i..] == cs;
    ghost var all := TranslateChildren(f, cs, column, makeTimestamp);
    assert all.Ok? ==> [] + all.value == all.value;
    while i < |cs|
      invariant 0 <= i <= |cs|
      invariant TranslateChildren(f, cs, column, makeTimestamp)
                == Prepend(subs, TranslateChildren(f, cs[i..], column, makeTimestamp))
    {
      var child := ConvertFilter(cs[i], column, makeTimestamp);
      ChildLoopStep(f, cs, i, subs, column, makeTimestamp);
      if child.Err? {
        return Err(child.error);
      }
      subs := subs + [child.value];
      i := i + 1;
    }
    assert cs[i..] == [];
    assert subs + [] == subs;
    r := Ok(subs);
  }

  /** A DuckDB column id. */
  type ColumnId = nat

  /** One entry of a `TableFilterSet`: the filter on column `id`.  A filter set is given as the
      sequence of its entries in the order its `unordered_map` iterates them. */
  type FilterEntry = (ColumnId, TableFilter)

  /** `column_names[id]` on DuckDB's projection map: the column's name, or the empty string that
      `operator[]` inserts when the id is absent. */
  function ColumnName(names: map<ColumnId, string>, id: ColumnId): string
  {
    if id in names then names[id] else ""
  }

  function IdsOf(entries: seq<FilterEntry>): set<ColumnId>
  {
    set k | 0 <= k < |entries| :: entries[k].0
  }

  /** The projection map after `operator[]` has been applied to the ids of `entries`. */
  function WithLookups(names: map<ColumnId, string>, entries: seq<FilterEntry>): (m: map<ColumnId, string>)
    ensures names.Keys <= m.Keys
    ensures forall id :: id in m ==> m[id] == ColumnName(names, id)
  {
    map id | id in names.Keys + IdsOf(entries) :: ColumnName(names, id)
  }

  /** Entry `k` is the first entry whose filter does not translate, and it fails with `e`. */
  predicate FirstFailure(entries: seq<FilterEntry>, names: map<ColumnId, string>, makeTimestamp: TimestampFactory, k: int, e: ConvertError)
  {
    0 <= k < |entries|
    && (forall j :: 0 <= j < k ==> Translatable(entries[j].1, makeTimestamp))
    && Translate(entries[k].1, ColumnName(names, entries[k].0), makeTimestamp) == Err(e)
  }

  /** Looking up one more id inserts it, with the empty name, unless it is already present. */
  lemma WithLookupsStep(names: map<ColumnId, string>, entries: seq<FilterEntry>, i: nat)
    requires i < |entries|
    ensures var m := WithLookups(names, entries[..i]);
            WithLookups(names, entries[..i + 1]) == if entries[i].0 in m then m else m[entries[i].0 := ""]
  {
    assert IdsOf(entries[..i + 1]) == IdsOf(entries[..i]) + {entries[i].0} by {
      assert forall k :: 0 <= k < i ==> entries[..i + 1][k] == entries[..i][k];
      assert entries[..i + 1][i] == entries[i];
    }
  }

  /** The entry at `i` is looked up under the name its id had before the lookups. */
  lemma EntryStep(entries: seq<FilterEntry>, names: map<ColumnId, string>, makeTimestamp: TimestampFactory, i: nat, names': map<ColumnId, string>)
    requires i < |entries|
    requires names' == WithLookups(names, entries[..i + 1])
    ensures entries[i].0 in names' && names'[entries[i].0] == ColumnName(names, entries[i].0)
  {
    assert entries[..i + 1][i] == entries[i];
  }

  /** The first entry that fails to translate makes the set untranslatable. */
  lemma FailedAt(entries: seq<FilterEntry>, names: map<ColumnId, string>, makeTimestamp: TimestampFactory, i: nat, e: ConvertError,
                 names': map<ColumnId, string>)
    requires FirstFailure(entries, names, makeTimestamp, i, e)
    requires names' == WithLookups(names, entries[..i + 1])
    ensures !forall k :: 0 <= k < |entries| ==> Translatable(entries[k].1, makeTimestamp)
    ensures exists k :: FirstFailure(entries, names, makeTimestamp, k, e) && names' == WithLookups(names, entries[..k + 1])
  {
  }

  /** When every entry has been translated, the whole set is translatable. */
  lemma AllConverted(entries: seq<FilterEntry>, names: map<ColumnId, string>, makeTimestamp: TimestampFactory, exprs: seq<Expr>)
    requires |exprs| == |entries|
    requires forall k :: 0 <= k < |entries| ==>
               Translate(entries[k].1, ColumnName(names, entries[k].0), makeTimestamp) == Ok(exprs[k])
    ensures forall k :: 0 <= k < |entries| ==> Translatable(entries[k].1, makeTimestamp)
  {
    forall k | 0 <= k < |entries|
      ensures Translatable(entries[k].1, makeTimestamp)
    {
      assert Translate(entries[k].1, ColumnName(names, entries[k].0), makeTimestamp).Ok?;
    }
  }

  /** `convert_filters`: one translated expression per filter entry, on the column name the
      projection map gives its id, all combined with `and_`.  The lookups also write the
      projection map, so it is returned as `names'`. */
  method ConvertFilters(entries: seq<FilterEntry>, names: map<ColumnId, string>, makeTimestamp: TimestampFactory)
    returns (r: Result<Expr, ConvertError>, names': map<ColumnId, string>)
    ensures r.Ok? <==> forall k :: 0 <= k < |entries| ==> Translatable(entries[k].1, makeTimestamp)
    ensures r.Ok? ==> r.value.And? && |r.value.args| == |entries|
    ensures r.Ok? ==> forall k :: 0 <= k < |entries| ==>
              Translate(entries[k].1, ColumnName(names, entries[k].0), makeTimestamp) == Ok(r.value.args[k])
    ensures r.Ok? ==> names' == WithLookups(names, entries)
    ensures r.Err? ==> exists k :: FirstFailure(entries, names, makeTimestamp, k, r.error)
                                   && names' == WithLookups(names, entries[..k + 1])
  {
    var exprs: seq<Expr> := [];
    names' := names;
    for i := 0 to |entries|
      invariant |exprs| == i
      invariant forall k :: 0 <= k < i ==>
                  Translate(entries[k].1, ColumnName(names, entries[k].0), makeTimestamp) == Ok(exprs[k])
      invariant names' == WithLookups(names, entries[..i])
    {
      var id := entries[i].0;
      WithLookupsStep(names, entries, i);
      if id !in names' {
        names' := names'[id := ""];
      }
      var e := ConvertFilter(entries[i].1, names'[id], makeTimestamp);
      EntryStep(entries, names, makeTimestamp, i, names');
      if e.Err? {
        r := Err(e.error);
        FailedAt(entries, names, makeTimestamp, i, e.error, names');
        return;
      }
      exprs := exprs + [e.value];
    }
    AllConverted(entries, names, makeTimestamp, exprs);
    assert entries[..|entries|] == entries;
    r := Ok(And(exprs));
  }
}
