/**
 * `arrow_table_produce_internal` and `arrow_table_produce`: the scan DuckDB's `arrow_scan`
 * asks for.  A dataset scan over the registered table gets the translated filters only when a
 * non-empty filter set is present and the projection only when columns are listed; then it is
 * finished, turned into a record batch reader and exported.  Any failing step ends the call.
 */
module Scan {
  import opened Wrappers
  import opened Values
  import opened Constants
  import opened Filters
  import opened Semantics

  /** An Arrow table: its column names and its records. */
  datatype ArrowTable = ArrowTable(columns: seq<string>, rows: seq<Row>)

  /** `ArrowStreamParameters`: the filter set (`None` for a null pointer), the projection map
      from column id to name, and the projected column names. */
  datatype StreamParameters = StreamParameters(
    filters: Option<seq<FilterEntry>>,
    projectionMap: map<ColumnId, string>,
    columns: seq<string>)

  /** The Arrow calls the scan is built from. */
  datatype Step = NewScanStep | FilterStep | ProjectStep | FinishStep | ReaderStep | ExportStep

  /** One call made, with its arguments. */
  datatype ScanCall =
    | NewScanCall
    | FilterCall(condition: Expr)
    | ProjectCall(columns: seq<string>)
    | FinishCall
    | ReaderCall
    | ExportCall

  function StepOf(c: ScanCall): Step
  {
    match c
    case NewScanCall => NewScanStep
    case FilterCall(_) => FilterStep
    case ProjectCall(_) => ProjectStep
    case FinishCall => FinishStep
    case ReaderCall => ReaderStep
    case ExportCall => ExportStep
  }

  /** The position of each step in the order the scan is built. */
  function Rank(c: ScanCall): nat
  {
    match c
    case NewScanCall => 0
    case FilterCall(_) => 1
    case ProjectCall(_) => 2
    case FinishCall => 3
    case ReaderCall => 4
    case ExportCall => 5
  }

  /** The Arrow calls that fail, each with the `Status` message it returns. */
  type Failures = map<Step, string>

  /** What the exported `ArrowArrayStream` delivers: the table's records that the filter selects,
      restricted to the projection (`None`: every column). */
  datatype Stream = Stream(table: ArrowTable, filter: Option<Expr>, projection: Option<seq<string>>)

  /** The columns of the stream's schema. */
  function StreamColumns(s: Stream): seq<string>
  {
    if s.projection.None? then s.table.columns else s.projection.value
  }

  /** A record restricted to `columns`. */
  function Restrict(row: Row, columns: seq<string>): Row
  {
    map c | c in columns && c in row :: row[c]
  }

  /** The records the stream delivers, in table order. */
  function Records(s: Stream, lib: Combinators): seq<Row>
  {
    var kept := SelectedRows(s.table.rows, s.filter, lib);
    seq(|kept|, i requires 0 <= i < |kept| => Restrict(kept[i], StreamColumns(s)))
  }

  /** The rows a filter keeps, in their order. */
  function SelectedRows(rows: seq<Row>, filter: Option<Expr>, lib: Combinators): seq<Row>
  {
    if rows == [] then []
    else
      var rest := SelectedRows(rows[1..], filter, lib);
      if filter.None? || Selects(filter.value, rows[0], lib) then [rows[0]] + rest else rest
  }

  /** How `arrow_table_produce_internal` ends when it does not return a stream: with an Arrow
      `Status`, or with the DuckDB exception the filter conversion throws (which is no `Status`). */
  datatype ProduceFailure = StatusFailure(status: string) | ConversionThrown(error: ConvertError)

  /** What `arrow_table_produce` throws. */
  datatype ProduceError = RuntimeError(message: string) | ConversionError(error: ConvertError)

  const ProducePrefix: string := "[arrow][produce] failed to produce: "

  /** The filter set is used only when it is present and not empty. */
  predicate HaveFilter(params: StreamParameters)
  {
    params.filters.Some? && |params.filters.value| > 0
  }

  /** The steps a scan with these parameters runs when nothing fails. */
  function PlannedSteps(params: StreamParameters): set<Step>
  {
    {NewScanStep, FinishStep, ReaderStep, ExportStep}
    + (if HaveFilter(params) then {FilterStep} else {})
    + (if |params.columns| > 0 then {ProjectStep} else {})
  }

  /** The calls of a scan that ran to completion. */
  function CompletedCalls(filter: Option<Expr>, columns: seq<string>): seq<ScanCall>
  {
    [NewScanCall] + Configured(filter, columns) + Finishing
  }

  /** The calls that configure the builder: `Filter` when there is a condition, then `Project`
      when columns are listed. */
  function Configured(filter: Option<Expr>, columns: seq<string>): seq<ScanCall>
  {
    (if filter.Some? then [FilterCall(filter.value)] else [])
    + (if |columns| > 0 then [ProjectCall(columns)] else [])
  }

  /** The calls that turn a configured builder into an exported stream. */
  const Finishing: seq<ScanCall> := [FinishCall, ReaderCall, ExportCall]

  /** Arrow's `ScannerBuilder`, as far as the scan uses it. */
  class ScannerBuilder {
    const table: ArrowTable
    const failures: Failures
    var filter: Option<Expr>
    var projection: Option<seq<string>>

    constructor (table: ArrowTable, failures: Failures)
      ensures this.table == table && this.failures == failures
      ensures filter == None && projection == None
    {
      this.table := table;
      this.failures := failures;
      filter := None;
      projection := None;
    }

    /** `ScannerBuilder::Filter`: on success the scan keeps the records `condition` selects. */
    method Filter(condition: Expr) returns (status: Option<string>)
      modifies this
      ensures status == if FilterStep in failures then Some(failures[FilterStep]) else None
      ensures filter == if status.None? then Some(condition) else old(filter)
      ensures projection == old(projection)
    {
      if FilterStep in failures {
        status := Some(failures[FilterStep]);
      } else {
        status := None;
        filter := Some(condition);
      }
    }

    /** `ScannerBuilder::Project`: on success the scan delivers exactly `columns`, in order. */
    method Project(columns: seq<string>) returns (status: Option<string>)
      modifies this
      ensures status == if ProjectStep in failures then Some(failures[ProjectStep]) else None
      ensures projection == if status.None? then Some(columns) else old(projection)
      ensures filter == old(filter)
    {
      if ProjectStep in failures {
        status := Some(failures[ProjectStep]);
      } else {
        status := None;
        projection := Some(columns);
      }
    }

    /** `ScannerBuilder::Finish`: the scan as configured so far. */
    method Finish() returns (r: Result<Stream, string>)
      ensures r == if FinishStep in failures then Err(failures[FinishStep]) else Ok(Stream(table, filter, projection))
    {
      if FinishStep in failures {
        r := Err(failures[FinishStep]);
      } else {
        r := Ok(Stream(table, filter, projection));
      }
    }
  }

  /** The calls start with the new scan and follow the build order; a filter call is made only
      for a non-empty filter set and a projection call only with the listed columns. */
  predicate InBuildOrder(calls: seq<ScanCall>, params: StreamParameters)
  {
    && |calls| > 0 && calls[0] == NewScanCall
    && (forall j :: 0 <= j < |calls| - 1 ==> Rank(calls[j]) < Rank(calls[j + 1]))
    && (forall j :: 0 <= j < |calls| ==> Permitted(calls[j], params))
  }

  /** A filter call is made only for a non-empty filter set, a projection call only with the
      listed columns. */
  predicate Permitted(c: ScanCall, params: StreamParameters)
  {
    && (c.FilterCall? ==> HaveFilter(params))
    && (c.ProjectCall? ==> c.columns == params.columns && |params.columns| > 0)
  }

  /** Every call succeeded. */
  predicate NoneFailed(calls: seq<ScanCall>, failures: Failures)
  {
    forall j :: 0 <= j < |calls| ==> StepOf(calls[j]) !in failures
  }

  /** Every filter of the set converts. */
  predicate AllTranslatable(entries: seq<FilterEntry>, makeTimestamp: TimestampFactory)
  {
    forall k :: 0 <= k < |entries| ==> Translatable(entries[k].1, makeTimestamp)
  }

  /** `condition` is the conjunction of the filters' translations, in the set's order. */
  predicate ConjunctionOf(condition: Expr, entries: seq<FilterEntry>, names: map<ColumnId, string>, makeTimestamp: TimestampFactory)
  {
    && condition.And? && |condition.args| == |entries|
    && forall k :: 0 <= k < |entries| ==>
         Translate(entries[k].1, ColumnName(names, entries[k].0), makeTimestamp) == Ok(condition.args[k])
  }

  /** The last call is the one that failed, with `status`; every earlier call succeeded. */
  predicate StoppedAtLast(calls: seq<ScanCall>, failures: Failures, status: string)
  {
    && |calls| > 0
    && StepOf(calls[|calls| - 1]) in failures && status == failures[StepOf(calls[|calls| - 1])]
    && NoneFailed(calls[..|calls| - 1], failures)
  }

  /** `after` is `before` with, at most, lookups added: every id maps to what `before` reads for it. */
  predicate OnlyLookupsAdded(before: map<ColumnId, string>, after: map<ColumnId, string>)
  {
    && before.Keys <= after.Keys
    && forall id :: id in after ==> after[id] == ColumnName(before, id)
  }

  /** Every prefix of a completed scan's calls is in build order. */
  lemma PrefixInBuildOrder(filter: Option<Expr>, params: StreamParameters, n: nat)
    requires filter.Some? <==> HaveFilter(params)
    requires 1 <= n <= |CompletedCalls(filter, params.columns)|
    ensures InBuildOrder(CompletedCalls(filter, params.columns)[..n], params)
  {
  }

  /** A completed scan ran exactly the planned steps. */
  lemma CompletedRunsPlanned(filter: Option<Expr>, params: StreamParameters, failures: Failures)
    requires filter.Some? <==> HaveFilter(params)
    ensures NoneFailed(CompletedCalls(filter, params.columns), failures) <==> PlannedSteps(params) !! failures.Keys
  {
    var calls := CompletedCalls(filter, params.columns);
    var n := |calls|;
    assert calls[0] == NewScanCall && calls[n - 3] == FinishCall && calls[n - 2] == ReaderCall && calls[n - 1] == ExportCall;
    if filter.Some? {
      assert calls[1] == FilterCall(filter.value);
    }
    if |params.columns| > 0 {
      assert calls[n - 4] == ProjectCall(params.columns);
    }
    assert forall j :: 0 <= j < n ==> StepOf(calls[j]) in PlannedSteps(params);
  }

  /** Calls succeed together exactly when each part's calls succeed. */
  lemma NoneFailedSplit(a: seq<ScanCall>, b: seq<ScanCall>, failures: Failures)
    ensures NoneFailed(a + b, failures) <==> NoneFailed(a, failures) && NoneFailed(b, failures)
  {
    assert forall j :: 0 <= j < |a| ==> (a + b)[j] == a[j];
    assert forall j :: 0 <= j < |b| ==> (a + b)[|a| + j] == b[j];
  }

  /** The configuration steps on a fresh builder: `Filter` when there is a condition, then
      `Project` when columns are listed, stopping at the first that fails. */
  method Configure(builder: ScannerBuilder, filter: Option<Expr>, columns: seq<string>)
    returns (status: Option<string>, calls: seq<ScanCall>)
    requires builder.filter.None? && builder.projection.None?
    modifies builder
    ensures |calls| <= |Configured(filter, columns)| && calls == Configured(filter, columns)[..|calls|]
    ensures status.None? ==> calls == Configured(filter, columns) && NoneFailed(calls, builder.failures)
                             && builder.filter == filter
                             && builder.projection == (if |columns| == 0 then None else Some(columns))
    ensures status.Some? ==> StoppedAtLast(calls, builder.failures, status.value)
  {
    calls := [];
    status := None;
    if filter.Some? {
      calls := [FilterCall(filter.value)];
      status := builder.Filter(filter.value);
      if status.Some? {
        return;
      }
    }
    if |columns| > 0 {
      calls := calls + [ProjectCall(columns)];
      status := builder.Project(columns);
    }
  }

  /** `Finish`, the record batch reader and the export, stopping at the first that fails. */
  method Complete(builder: ScannerBuilder) returns (r: Result<Stream, string>, calls: seq<ScanCall>)
    ensures 0 < |calls| <= |Finishing| && calls == Finishing[..|calls|]
    ensures r.Ok? <==> NoneFailed(Finishing, builder.failures)
    ensures r.Ok? ==> calls == Finishing && r.value == Stream(builder.table, builder.filter, builder.projection)
    ensures r.Err? ==> StoppedAtLast(calls, builder.failures, r.error)
  {
    assert Finishing[0] == FinishCall && Finishing[1] == ReaderCall && Finishing[2] == ExportCall;
    calls := [FinishCall];
    var scanner := builder.Finish();
    if scanner.Err? {
      return Err(scanner.error), calls;
    }
    calls := [FinishCall, ReaderCall];
    if ReaderStep in builder.failures {
      return Err(builder.failures[ReaderStep]), calls;
    }
    calls := Finishing;
    if ExportStep in builder.failures {
      return Err(builder.failures[ExportStep]), calls;
    }
    r := Ok(scanner.value);
  }

  /** The stages after the filter conversion, on a fresh builder: the configuration, then the
      finishing calls.  The calls made are a prefix of that plan, ending at the first that fails. */
  method BuildScan(builder: ScannerBuilder, filter: Option<Expr>, columns: seq<string>)
    returns (r: Result<Stream, string>, calls: seq<ScanCall>)
    requires builder.filter.None? && builder.projection.None?
    modifies builder
    ensures var plan := Configured(filter, columns) + Finishing;
            0 < |calls| <= |plan| && calls == plan[..|calls|]
    ensures r.Ok? <==> NoneFailed(Configured(filter, columns) + Finishing, builder.failures)
    ensures r.Ok? ==> calls == Configured(filter, columns) + Finishing
    ensures r.Ok? ==> r.value == Stream(builder.table, filter, if |columns| == 0 then None else Some(columns))
    ensures r.Err? ==> StoppedAtLast(calls, builder.failures, r.error)
  {
    ghost var plan := Configured(filter, columns) + Finishing;
    var status, configuring := Configure(builder, filter, columns);
    NoneFailedSplit(Configured(filter, columns), Finishing, builder.failures);
    if status.Some? {
      assert plan[..|configuring|] == configuring;
      assert plan[|configuring| - 1] == configuring[|configuring| - 1];
      return Err(status.value), configuring;
    }
    var finished, finishing := Complete(builder);
    calls := configuring + finishing;
    assert plan[..|calls|] == calls;
    if finished.Err? {
      assert calls[..|calls| - 1] == configuring + finishing[..|finishing| - 1];
      NoneFailedSplit(configuring, finishing[..|finishing| - 1], builder.failures);
      return Err(finished.error), calls;
    }
    r := Ok(finished.value);
  }

  /** The new scan's call followed by the calls `BuildScan` made is a run of the scan's plan:
      in build order, completed exactly when no planned step fails, and stopped at its last
      call otherwise. */
  lemma ScanAssembled(filter: Option<Expr>, params: StreamParameters, failures: Failures, rest: seq<ScanCall>)
    requires filter.Some? <==> HaveFilter(params)
    requires NewScanStep !in failures
    requires var plan := Configured(filter, params.columns) + Finishing;
             0 < |rest| <= |plan| && rest == plan[..|rest|]
    ensures InBuildOrder([NewScanCall] + rest, params)
    ensures NoneFailed(Configured(filter, params.columns) + Finishing, failures)
            <==> PlannedSteps(params) !! failures.Keys
    ensures rest == Configured(filter, params.columns) + Finishing
            ==> [NewScanCall] + rest == CompletedCalls(filter, params.columns)
    ensures forall status :: StoppedAtLast(rest, failures, status) ==> StoppedAtLast([NewScanCall] + rest, failures, status)
  {
    var tail := Configured(filter, params.columns) + Finishing;
    var plan := CompletedCalls(filter, params.columns);
    assert plan == [NewScanCall] + tail;
    var calls := [NewScanCall] + rest;
    assert calls == plan[..|calls|];
    PrefixInBuildOrder(filter, params, |calls|);
    CompletedRunsPlanned(filter, params, failures);
    NoneFailedSplit([NewScanCall], tail, failures);
    assert calls[..|calls| - 1] == [NewScanCall] + rest[..|rest| - 1];
    NoneFailedSplit([NewScanCall], rest[..|rest| - 1], failures);
  }

  /** The conversion of the filter set, as the scan runs it: `None` when no filter set is used.
      The conversion's lookups may add entries to the projection map. */
  method PushedFilter(params: StreamParameters, makeTimestamp: TimestampFactory)
    returns (r: Result<Option<Expr>, ConvertError>, projectionMap: map<ColumnId, string>)
    ensures r.Ok? <==> (HaveFilter(params) ==> AllTranslatable(params.filters.value, makeTimestamp))
    ensures r.Ok? ==> (r.value.Some? <==> HaveFilter(params))
    ensures r.Ok? && r.value.Some? ==>
              ConjunctionOf(r.value.value, params.filters.value, params.projectionMap, makeTimestamp)
    ensures r.Err? ==> HaveFilter(params)
                       && exists k :: FirstFailure(params.filters.value, params.projectionMap, makeTimestamp, k, r.error)
    ensures OnlyLookupsAdded(params.projectionMap, projectionMap)
  {
    projectionMap := params.projectionMap;
    if !HaveFilter(params) {
      return Ok(None), projectionMap;
    }
    var condition;
    condition, projectionMap := ConvertFilters(params.filters.value, params.projectionMap, makeTimestamp);
    if condition.Err? {
      return Err(condition.error), projectionMap;
    }
    r := Ok(Some(condition.value));
  }

  /** `arrow_table_produce_internal`.  Besides the stream it returns the Arrow calls made, in
      order, and DuckDB's projection map, which the filter conversion's lookups may extend. */
  method ProduceInternal(table: ArrowTable, params: StreamParameters, failures: Failures, makeTimestamp: TimestampFactory)
    returns (r: Result<Stream, ProduceFailure>, calls: seq<ScanCall>, projectionMap: map<ColumnId, string>)
    ensures InBuildOrder(calls, params)
    ensures r.Ok? <==> (PlannedSteps(params) !! failures.Keys
                        && (HaveFilter(params) ==> AllTranslatable(params.filters.value, makeTimestamp)))
    ensures r.Ok? ==> calls == CompletedCalls(r.value.filter, params.columns)
    ensures r.Ok? ==> r.value.table == table && (r.value.filter.Some? <==> HaveFilter(params))
    ensures r.Ok? ==> StreamColumns(r.value) == if |params.columns| == 0 then table.columns else params.columns
    ensures r.Ok? && r.value.filter.Some? ==>
              ConjunctionOf(r.value.filter.value, params.filters.value, params.projectionMap, makeTimestamp)
    ensures r.Err? && r.error.StatusFailure? ==> StoppedAtLast(calls, failures, r.error.status)
    ensures r.Err? && r.error.ConversionThrown? ==>
              HaveFilter(params) && calls == [NewScanCall] && NewScanStep !in failures
              && exists k :: FirstFailure(params.filters.value, params.projectionMap, makeTimestamp, k, r.error.error)
    ensures OnlyLookupsAdded(params.projectionMap, projectionMap)
  {
    calls := [NewScanCall];
    projectionMap := params.projectionMap;
    if NewScanStep in failures {
      return Err(StatusFailure(failures[NewScanStep])), calls, projectionMap;
    }
    var builder := new ScannerBuilder(table, failures);
    var pushed;
    pushed, projectionMap := PushedFilter(params, makeTimestamp);
    if pushed.Err? {
      return Err(ConversionThrown(pushed.error)), calls, projectionMap;
    }
    var scan, rest := BuildScan(builder, pushed.value, params.columns);
    ScanAssembled(pushed.value, params, failures, rest);
    calls := calls + rest;
    if scan.Err? {
      return Err(StatusFailure(scan.error)), calls, projectionMap;
    }
    r := Ok(scan.value);
  }

  /** `arrow_table_produce`: a failed `Status` becomes a runtime error whose message is the
      prefix followed by the status text; the conversion's DuckDB exception passes through as is. */
  function Rethrow(internal: Result<Stream, ProduceFailure>): (r: Result<Stream, ProduceError>)
    ensures r.Ok? <==> internal.Ok?
    ensures r.Ok? ==> r.value == internal.value
    ensures internal.Err? && internal.error.StatusFailure? ==>
              r.error.RuntimeError? && |r.error.message| == |ProducePrefix| + |internal.error.status|
              && r.error.message[..|ProducePrefix|] == ProducePrefix
              && r.error.message[|ProducePrefix|..] == internal.error.status
    ensures internal.Err? && internal.error.ConversionThrown? ==> r == Err(ConversionError(internal.error.error))
  {
    if internal.Ok? then Ok(internal.value)
    else match internal.error
      case StatusFailure(status) => Err(RuntimeError(ProducePrefix + status))
      case ConversionThrown(e) => Err(ConversionError(e))
  }

  /** DuckDB's verdict on a record: every filter of the set holds of its column's cell. */
  predicate PassesAll(row: Row, entries: seq<FilterEntry>, names: map<ColumnId, string>)
  {
    forall k :: 0 <= k < |entries| ==> Holds(entries[k].1, Read(Cell(row, ColumnName(names, entries[k].0))))
  }

  /** The records DuckDB's filter set keeps, in table order. */
  function PassingRows(rows: seq<Row>, entries: seq<FilterEntry>, names: map<ColumnId, string>): seq<Row>
  {
    if rows == [] then []
    else
      var rest := PassingRows(rows[1..], entries, names);
      if PassesAll(rows[0], entries, names) then [rows[0]] + rest else rest
  }

  /** The scan's filter keeps exactly the records DuckDB's filter set keeps, in the same order:
      pushing the filters into the scan changes nothing about the rows DuckDB receives. */
  lemma {:induction false} PushdownKeepsSameRows(rows: seq<Row>, entries: seq<FilterEntry>, names: map<ColumnId, string>,
                                                 makeTimestamp: TimestampFactory, condition: Expr, lib: Combinators)
    requires |entries| > 0 && ConjunctionOf(condition, entries, names, makeTimestamp)
    requires forall k :: 0 <= k < |entries| ==> EmptyCombinatorsAgree(entries[k].1, lib)
    ensures SelectedRows(rows, Some(condition), lib) == PassingRows(rows, entries, names)
    decreases |rows|
  {
    if rows != [] {
      FilterSetAgrees(entries, names, makeTimestamp, condition.args, rows[0], lib);
      PushdownKeepsSameRows(rows[1..], entries, names, makeTimestamp, condition, lib);
    }
  }

  /** A record holding only the column `id`. */
  function IdRow(i: int): Row
    requires IntFits(Int32, i)
  {
    map["id" := Some(IntScalar(Int32, i))]
  }

  /** A record of a table with an `int32` column `id` and a `utf8` column `name`. */
  function IdNameRow(i: int, name: string): Row
    requires IntFits(Int32, i)
  {
    map["id" := Some(IntScalar(Int32, i)), "name" := Some(StringScalar(name))]
  }

  /** The table of the example below, and the filter its scan receives. */
  function IdTable(): ArrowTable
  {
    ArrowTable(["id", "name"], [IdNameRow(1, "a"), IdNameRow(2, "b"), IdNameRow(3, "c")])
  }

  function IdAboveOne(): Expr
  {
    And([Gt(Field("id"), Lit(IntScalar(Int32, 1)))])
  }

  lemma IdAboveOneSelects(i: int, name: string, lib: Combinators)
    requires 1 <= i <= 3
    ensures Selects(IdAboveOne(), IdNameRow(i, name), lib) <==> i > 1
  {
    var row := IdNameRow(i, name);
    var gt := Gt(Field("id"), Lit(IntScalar(Int32, 1)));
    assert row["id"] == Some(IntScalar(Int32, i));
    assert CompareScalars(IntScalar(Int32, i), IntScalar(Int32, 1)) == Some(Sign(i, 1));
    assert Eval(gt, row, lib) == Semantics.Boolean(i > 1);
    var xs := [gt];
    assert xs[0] == gt;
    if i == 1 {
      assert TruthOf(Eval(xs[0], row, lib)) == False;
    }
    assert Eval(And(xs), row, lib) == Semantics.Boolean(i > 1);
  }

  /** Projecting a two-column record on `id` keeps only `id`. */
  lemma ProjectOnId(i: int, name: string)
    requires IntFits(Int32, i)
    ensures Restrict(IdNameRow(i, name), ["id"]) == IdRow(i)
  {
    var r := Restrict(IdNameRow(i, name), ["id"]);
    assert r.Keys == {"id"} by {
      assert "name" !in ["id"];
    }
  }

  lemma IdAboveOneRecords(lib: Combinators)
    ensures Records(Stream(IdTable(), Some(IdAboveOne()), Some(["id"])), lib) == [IdRow(2), IdRow(3)]
  {
    var f := Some(IdAboveOne());
    var two, three := IdNameRow(2, "b"), IdNameRow(3, "c");
    IdAboveOneSelects(1, "a", lib);
    IdAboveOneSelects(2, "b", lib);
    IdAboveOneSelects(3, "c", lib);
    assert SelectedRows([three], f, lib) == [three];
    assert SelectedRows([two, three], f, lib) == [two, three];
    assert SelectedRows(IdTable().rows, f, lib) == [two, three];
    ProjectOnId(2, "b");
    ProjectOnId(3, "c");
  }

  /** `SELECT id FROM t WHERE id > 1` over the rows (1, a), (2, b) and (3, c): the filter reaches
      the scan as `id > 1` on an `int32` literal, and the stream delivers the records 2 and 3
      holding only the projected column `id`. */
  method ScanIdGreaterThanOne(makeTimestamp: TimestampFactory, lib: Combinators)
    returns (r: Result<Stream, ProduceFailure>, records: seq<Row>)
    ensures r.Ok? && r.value.filter == Some(And([Gt(Field("id"), Lit(IntScalar(Int32, 1)))]))
    ensures records == [IdRow(2), IdRow(3)]
  {
    var greaterThanOne := ConstantComparison(CompareGreaterThan, Value(Integer, IntPayload(1)));
    var params := StreamParameters(Some([(0, greaterThanOne)]), map[0 := "id"], ["id"]);
    assert Translatable(greaterThanOne, makeTimestamp);
    var calls, projectionMap;
    r, calls, projectionMap := ProduceInternal(IdTable(), params, map[], makeTimestamp);
    assert Translate(greaterThanOne, "id", makeTimestamp) == Ok(Gt(Field("id"), Lit(IntScalar(Int32, 1))));
    assert r.value.filter.value.args == [Gt(Field("id"), Lit(IntScalar(Int32, 1)))];
    IdAboveOneRecords(lib);
    records := Records(r.value, lib);
  }
}
