/**
 * The Ruby-facing bridge: `ArrowDuckDB::Result`, whose `fetch` pulls record batches out of
 * DuckDB's Arrow query handle, and the connection methods `query_sql_arrow`, `register_arrow`
 * and `unregister_arrow`, which keep DuckDB's views and the `@arrow_tables` hash in step.
 */
module Bridge {
  import opened Wrappers
  import opened Semantics
  import opened Scan
  import opened Views

  /** The Ruby exceptions the bridge raises. */
  datatype RubyError =
    | DuckDBError(message: string)
    | ArgumentError(message: string)
    | ArrowError(message: string)
    | BlockError(message: string)

  datatype Schema = Schema(columns: seq<string>)

  datatype RecordBatch = RecordBatch(schema: Schema, rows: seq<Row>)

  /** The schema DuckDB exports; importing it fails with `importError` when that is present. */
  datatype SchemaExport = SchemaExport(columns: seq<string>, importError: Option<string>)

  /** What one `duckdb_query_arrow_array` call yields: an exported batch (whose import may fail),
      an array with a null `release` (the end of the stream), or an error with DuckDB's message. */
  datatype ArrayOutcome = Batch(rows: seq<Row>, importError: Option<string>) | End | ArrayError(message: string)

  const SchemaFetchFailed: string := "Failed to fetch Apache Arrow schema: "
  const ArrayFetchFailed: string := "Failed to fetch Apache Arrow array: "
  const ConnectionClosed: string := "Database connection closed"
  const QueryFailed: string := "Failed to execute query"
  const QueryFailedWith: string := "Failed to execute query: "
  const NotATable: string := "must be Arrow::Table: "

  /** DuckDB's `duckdb_arrow` query handle: its schema (or DuckDB's error message), the array
      outcomes still to come, and the message of a failed query. */
  class ArrowQuery {
    const schema: Result<SchemaExport, string>
    var pending: seq<ArrayOutcome>
    const error: string

    constructor (schema: Result<SchemaExport, string>, pending: seq<ArrayOutcome>, error: string)
      ensures this.schema == schema && this.pending == pending && this.error == error
    {
      this.schema := schema;
      this.pending := pending;
      this.error := error;
    }

    /** `duckdb_query_arrow_array`: the next outcome; once the stream is drained every call
        yields an array with a null `release`. */
    method NextArray() returns (next: ArrayOutcome)
      modifies this
      ensures next == if old(pending) == [] then End else old(pending)[0]
      ensures pending == if old(pending) == [] then [] else old(pending)[1..]
    {
      if pending == [] {
        next := End;
      } else {
        next := pending[0];
        pending := pending[1..];
      }
    }
  }

  /** How `result_fetch` ends once the schema is in place: `nil` exactly at the end of the stream,
      a batch read with the schema, or the error raised for a failed fetch or import. */
  function BatchOutcome(next: ArrayOutcome, schema: Schema): (r: Result<Option<RecordBatch>, RubyError>)
    ensures r == Ok(None) <==> next.End?
    ensures (r.Ok? && r.value.Some?) <==> (next.Batch? && next.importError.None?)
    ensures r.Ok? && r.value.Some? ==> r.value.value.schema == schema && r.value.value.rows == next.rows
    ensures next.ArrayError? ==> r.Err? && r.error.DuckDBError?
                                 && r.error.message == ArrayFetchFailed + next.message
    ensures next.Batch? && next.importError.Some? ==> r == Err(ArrowError(next.importError.value))
  {
    match next
    case End => Ok(None)
    case ArrayError(message) => Err(DuckDBError(ArrayFetchFailed + message))
    case Batch(rows, importError) =>
      if importError.Some? then Err(ArrowError(importError.value)) else Ok(Some(RecordBatch(schema, rows)))
  }

  /** `ArrowDuckDB::Result`: the query handle, the last error message and the imported schema.
      `liveSchemas` counts the imported schema objects not yet released. */
  class QueryResult {
    var arrow: ArrowQuery?
    var errorMessage: Option<string>
    var gschema: Option<Schema>
    var liveSchemas: nat

    /** `result_alloc_func`: every field starts out null. */
    constructor ()
      ensures Valid()
      ensures arrow == null && errorMessage == None && gschema == None && liveSchemas == 0
    {
      arrow := null;
      errorMessage := None;
      gschema := None;
      liveSchemas := 0;
    }

    /** A schema held in `gschema` is a live schema object. */
    predicate Valid()
      reads this
    {
      gschema.Some? ==> liveSchemas > 0
    }

    /** Every imported schema object is the one `gschema` holds. */
    predicate SchemaAccounted()
      reads this
    {
      liveSchemas == if gschema.Some? then 1 else 0
    }

    /** `result_ensure_gschema` as written: the schema is fetched and imported on every call and
        the new object overwrites `gschema` without the old one being released. */
    method EnsureSchemaAsWritten() returns (failure: Option<RubyError>)
      requires Valid() && arrow != null
      modifies this
      ensures Valid() && arrow == old(arrow)
      ensures arrow.schema.Err? ==>
                failure == Some(DuckDBError(SchemaFetchFailed + arrow.schema.error))
                && errorMessage == Some(arrow.schema.error)
                && gschema == old(gschema) && liveSchemas == old(liveSchemas)
      ensures arrow.schema.Ok? && arrow.schema.value.importError.Some? ==>
                failure == Some(ArrowError(arrow.schema.value.importError.value))
                && errorMessage == old(errorMessage) && gschema == None && liveSchemas == old(liveSchemas)
      ensures arrow.schema.Ok? && arrow.schema.value.importError.None? ==>
                failure == None && errorMessage == old(errorMessage)
                && gschema == Some(Schema(arrow.schema.value.columns)) && liveSchemas == old(liveSchemas) + 1
    {
      if arrow.schema.Err? {
        errorMessage := Some(arrow.schema.error);
        return Some(DuckDBError(SchemaFetchFailed + arrow.schema.error));
      }
      var exported := arrow.schema.value;
      if exported.importError.Some? {
        gschema := None;
        return Some(ArrowError(exported.importError.value));
      }
      gschema := Some(Schema(exported.columns));
      liveSchemas := liveSchemas + 1;
      failure := None;
    }

    /** `result_ensure_gschema` corrected: the schema is fetched and imported only while
        `gschema` is null, so each result holds at most one schema object. */
    method EnsureSchema() returns (failure: Option<RubyError>)
      requires Valid() && arrow != null
      modifies this
      ensures Valid() && arrow == old(arrow)
      ensures old(SchemaAccounted()) ==> SchemaAccounted()
      ensures failure.None? <==> gschema.Some?
      ensures old(gschema).Some? ==>
                failure == None && gschema == old(gschema) && errorMessage == old(errorMessage) && liveSchemas == old(liveSchemas)
      ensures old(gschema).None? && arrow.schema.Err? ==>
                failure == Some(DuckDBError(SchemaFetchFailed + arrow.schema.error)) && errorMessage == Some(arrow.schema.error)
                && liveSchemas == old(liveSchemas)
      ensures old(gschema).None? && arrow.schema.Ok? && arrow.schema.value.importError.Some? ==>
                failure == Some(ArrowError(arrow.schema.value.importError.value)) && errorMessage == old(errorMessage)
                && liveSchemas == old(liveSchemas)
      ensures old(gschema).None? && arrow.schema.Ok? && arrow.schema.value.importError.None? ==>
                gschema == Some(Schema(arrow.schema.value.columns)) && errorMessage == old(errorMessage)
                && liveSchemas == old(liveSchemas) + 1
    {
      if gschema.Some? {
        return None;
      }
      failure := EnsureSchemaAsWritten();
    }

    /** `result_fetch`: the schema step as written, which fetches and imports the schema again
        on every call, then the next array: `nil` at the end of the stream, else the batch read
        with the schema just imported.  A failed fetch records DuckDB's message and raises. */
    method Fetch() returns (r: Result<Option<RecordBatch>, RubyError>)
      requires Valid() && arrow != null
      modifies this, arrow
      ensures Valid() && arrow == old(arrow)
      ensures arrow.schema.Err? ==>
                r == Err(DuckDBError(SchemaFetchFailed + arrow.schema.error))
                && errorMessage == Some(arrow.schema.error) && gschema == old(gschema)
                && liveSchemas == old(liveSchemas) && arrow.pending == old(arrow.pending)
      ensures arrow.schema.Ok? && arrow.schema.value.importError.Some? ==>
                r == Err(ArrowError(arrow.schema.value.importError.value))
                && errorMessage == old(errorMessage) && gschema == None
                && liveSchemas == old(liveSchemas) && arrow.pending == old(arrow.pending)
      ensures arrow.schema.Ok? && arrow.schema.value.importError.None? ==>
                var next := if old(arrow.pending) == [] then End else old(arrow.pending)[0];
                && gschema == Some(Schema(arrow.schema.value.columns))
                && liveSchemas == old(liveSchemas) + 1
                && r == BatchOutcome(next, gschema.value)
                && arrow.pending == (if old(arrow.pending) == [] then [] else old(arrow.pending)[1..])
                && errorMessage == if next.ArrayError? then Some(next.message) else old(errorMessage)
    {
      var failure := EnsureSchemaAsWritten();
      if failure.Some? {
        return Err(failure.value);
      }
      var next := arrow.NextArray();
      if next.ArrayError? {
        errorMessage := Some(next.message);
      }
      r := BatchOutcome(next, gschema.value);
    }

    /** `result_fetch` corrected: the schema is imported on the first fetch only and every later
        fetch reads its batch with that cached schema. */
    method FetchCorrected() returns (r: Result<Option<RecordBatch>, RubyError>)
      requires Valid() && arrow != null
      modifies this, arrow
      ensures Valid() && arrow == old(arrow)
      ensures old(SchemaAccounted()) ==> SchemaAccounted()
      ensures old(gschema).Some? ==> gschema == old(gschema) && liveSchemas == old(liveSchemas)
      ensures gschema.None? ==> r.Err? && arrow.pending == old(arrow.pending) && liveSchemas == old(liveSchemas)
      ensures old(gschema).None? && arrow.schema.Err? ==>
                r == Err(DuckDBError(SchemaFetchFailed + arrow.schema.error)) && errorMessage == Some(arrow.schema.error)
      ensures old(gschema).None? && arrow.schema.Ok? && arrow.schema.value.importError.Some? ==>
                r == Err(ArrowError(arrow.schema.value.importError.value)) && errorMessage == old(errorMessage)
      ensures old(gschema).None? && arrow.schema.Ok? && arrow.schema.value.importError.None? ==>
                gschema == Some(Schema(arrow.schema.value.columns)) && liveSchemas == old(liveSchemas) + 1
      ensures gschema.Some? ==>
                var next := if old(arrow.pending) == [] then End else old(arrow.pending)[0];
                && r == BatchOutcome(next, gschema.value)
                && arrow.pending == (if old(arrow.pending) == [] then [] else old(arrow.pending)[1..])
                && errorMessage == if next.ArrayError? then Some(next.message) else old(errorMessage)
    {
      var failure := EnsureSchema();
      if failure.Some? {
        return Err(failure.value);
      }
      var next := arrow.NextArray();
      if next.ArrayError? {
        errorMessage := Some(next.message);
      }
      r := BatchOutcome(next, gschema.value);
    }

    /** `result_free`: the schema object is released when there is one, the message freed and
        the handle destroyed. */
    method Free()
      requires Valid()
      modifies this
      ensures Valid()
      ensures arrow == null && errorMessage == None && gschema == None
      ensures liveSchemas == if old(gschema).Some? then old(liveSchemas) - 1 else old(liveSchemas)
      ensures old(SchemaAccounted()) ==> liveSchemas == 0
    {
      if gschema.Some? {
        liveSchemas := liveSchemas - 1;
      }
      gschema := None;
      errorMessage := None;
      arrow := null;
    }
  }

  /** Two fetches as written, then the free: the first schema object is never released. */
  method SchemaLeaksAsWritten() returns (unreleased: nat)
    ensures unreleased == 1
  {
    var query := new ArrowQuery(Ok(SchemaExport(["number"], None)), [], "");
    var result := new QueryResult();
    result.arrow := query;
    var _ := result.Fetch();
    var _ := result.Fetch();
    result.Free();
    unreleased := result.liveSchemas;
  }

  /** The same fetches with the corrected schema step: nothing is left unreleased. */
  method SchemaReleasedCorrected() returns (unreleased: nat)
    ensures unreleased == 0
  {
    var query := new ArrowQuery(Ok(SchemaExport(["number"], None)), [], "");
    var result := new QueryResult();
    result.arrow := query;
    var _ := result.FetchCorrected();
    var _ := result.FetchCorrected();
    result.Free();
    unreleased := result.liveSchemas;
  }

  /** A query yielding one batch: the first `fetch` returns it, the second returns `nil`. */
  method FetchOneBatchThenNil(rows: seq<Row>) returns (first: Result<Option<RecordBatch>, RubyError>, second: Result<Option<RecordBatch>, RubyError>)
    ensures first == Ok(Some(RecordBatch(Schema(["number", "string"]), rows)))
    ensures second == Ok(None)
  {
    var query := new ArrowQuery(Ok(SchemaExport(["number", "string"], None)), [Batch(rows, None)], "");
    var result := new QueryResult();
    result.arrow := query;
    first := result.Fetch();
    second := result.Fetch();
  }

  /** A Ruby value handed to `register_arrow`: an `Arrow::Table`, or anything else (with the
      `to_s` text that `%` `PRIsVALUE` formats into the message). */
  datatype RubyValue = TableValue(table: ArrowTable) | OtherValue(text: string)

  /** What a block passed to `register_arrow` does: return a value or raise. */
  datatype BlockOutcome = Returns(value: RubyValue) | Raises(error: RubyError)

  /** What a connection method returns: the connection itself, or the block's value. */
  datatype Returned = ReturnedSelf | BlockValue(value: RubyValue)

  /** DuckDB's answer to `duckdb_query_arrow`: a handle, or a failure with or without one. */
  datatype QueryAnswer = Answered(handle: ArrowQuery) | Refused(failed: Option<ArrowQuery>)

  /** Every view registered through the connection has its table held by `@arrow_tables`, so
      the table outlives the view that scans it. */
  predicate Pinned(views: Catalog, tables: map<string, ArrowTable>)
  {
    forall n :: n in views ==> n in tables && tables[n] == views[n]
  }

  /** With the quoting as written, unregistering `a"b` deletes the hash entry but keeps the view,
      which is left scanning a table nothing holds. */
  lemma AsWrittenUnpinsView(table: ArrowTable)
    ensures Pinned(map["a\"b" := table], map["a\"b" := table])
    ensures !Pinned(RunDropView(map["a\"b" := table], DropViewSql("a\"b")), map["a\"b" := table] - {"a\"b"})
  {
    QuoteInNameKeepsView(table);
    var left := map["a\"b" := table] - {"a\"b"};
    assert "a\"b" !in left;
  }

  /** A DuckDB connection as the bridge sees it: whether it is open, the views registration
      created, and the `@arrow_tables` instance variable (`None` while nil). */
  class Connection {
    var open: bool
    var views: Catalog
    var arrowTables: Option<map<string, ArrowTable>>

    constructor (open: bool, views: Catalog)
      ensures this.open == open && this.views == views && arrowTables == None
    {
      this.open := open;
      this.views := views;
      arrowTables := None;
    }

    /** The hash's contents; a nil hash holds nothing. */
    function Tables(): map<string, ArrowTable>
      reads this
    {
      if arrowTables.None? then map[] else arrowTables.value
    }

    /** `query_sql_arrow`: a new result wrapping DuckDB's handle, or the error raised. */
    method QuerySqlArrow(sql: string, answer: QueryAnswer) returns (r: Result<QueryResult, RubyError>)
      ensures !open ==> r == Err(DuckDBError(ConnectionClosed))
      ensures open && HasNul(sql) ==> r == Err(ArgumentError(NulInName))
      ensures open && !HasNul(sql) && answer.Refused? && answer.failed.Some? ==>
                r == Err(DuckDBError(QueryFailedWith + answer.failed.value.error))
      ensures open && !HasNul(sql) && answer.Refused? && answer.failed.None? ==> r == Err(DuckDBError(QueryFailed))
      ensures open && !HasNul(sql) && answer.Answered? ==>
                r.Ok? && fresh(r.value) && r.value.arrow == answer.handle
                && r.value.errorMessage == None && r.value.gschema == None && r.value.liveSchemas == 0
    {
      if !open {
        return Err(DuckDBError(ConnectionClosed));
      }
      var result := new QueryResult();
      if HasNul(sql) {
        return Err(ArgumentError(NulInName));
      }
      match answer
      case Answered(handle) =>
        result.arrow := handle;
        r := Ok(result);
      case Refused(failed) =>
        if failed.Some? {
          result.arrow := failed.value;
          result.errorMessage := Some(failed.value.error);
          r := Err(DuckDBError(QueryFailedWith + failed.value.error));
        } else {
          r := Err(DuckDBError(QueryFailed));
        }
    }

    /** `unregister_arrow`: the unescaped DROP VIEW is run, its failure ignored, and `name`
        deleted from `@arrow_tables` (created when nil); an absent name changes nothing else.
        Returns the connection.  A non-empty name without quotes drops exactly its own view; one
        with quotes, or the empty name, may leave its view scanning a table the hash no longer
        holds. */
    method Unregister(name: string) returns (r: Result<Returned, RubyError>)
      modifies this
      ensures open == old(open)
      ensures !open ==> r == Err(DuckDBError(ConnectionClosed))
      ensures open && HasNul(name) ==> r == Err(ArgumentError(NulInName))
      ensures r.Err? ==> views == old(views) && arrowTables == old(arrowTables)
      ensures r.Ok? <==> open && !HasNul(name)
      ensures r.Ok? ==> r.value == ReturnedSelf && views == RunDropView(old(views), DropViewSql(name))
                        && arrowTables == Some(old(Tables()) - {name})
      ensures r.Ok? && Unquoted(name) && name != "" ==> views == old(views) - {name}
      ensures old(Pinned(views, Tables())) && name !in views ==> Pinned(views, Tables())
      ensures old(Pinned(views, Tables())) && Unquoted(name) && name != "" ==> Pinned(views, Tables())
    {
      if !open {
        return Err(DuckDBError(ConnectionClosed));
      }
      var dropped := UnregisterViewAsWritten(views, name);
      if dropped.Err? {
        return Err(ArgumentError(dropped.error));
      }
      views := dropped.value;
      if arrowTables.None? {
        arrowTables := Some(map[]);
      }
      arrowTables := Some(arrowTables.value - {name});
      r := Ok(ReturnedSelf);
    }

    /** `connection_register` followed by `@arrow_tables[name] = table` (the hash created when
        nil): the view and the hash entry are set together, so every view stays backed. */
    method Store(name: string, table: ArrowTable) returns (failure: Option<RubyError>)
      modifies this
      ensures open == old(open)
      ensures failure.Some? <==> HasNul(name)
      ensures failure.Some? ==> failure.value == ArgumentError(NulInName) && views == old(views) && arrowTables == old(arrowTables)
      ensures failure.None? ==> views == old(views)[name := table] && arrowTables == Some(old(Tables())[name := table])
      ensures old(Pinned(views, Tables())) ==> Pinned(views, Tables())
    {
      var registered := RegisterView(views, name, table);
      if registered.Err? {
        return Some(ArgumentError(registered.error));
      }
      views := registered.value;
      if arrowTables.None? {
        arrowTables := Some(map[]);
      }
      arrowTables := Some(arrowTables.value[name := table]);
      failure := None;
    }

    /** `register_arrow`: after the checks, the view is created (replacing any of that name) and
        the table stored in `@arrow_tables`.  With a block the block's value is returned, or its
        error raised, and the name is unregistered either way, with the unescaped DROP VIEW;
        without one the connection is returned and the registration stays. */
    method Register(name: string, arg: RubyValue, block: Option<BlockOutcome>) returns (r: Result<Returned, RubyError>)
      modifies this
      ensures open == old(open)
      ensures !open ==> r == Err(DuckDBError(ConnectionClosed))
      ensures open && arg.OtherValue? ==> r == Err(ArgumentError(NotATable + arg.text))
      ensures open && arg.TableValue? && HasNul(name) ==> r == Err(ArgumentError(NulInName))
      ensures !(open && arg.TableValue? && !HasNul(name)) ==> views == old(views) && arrowTables == old(arrowTables)
      ensures open && arg.TableValue? && !HasNul(name) && block.None? ==>
                r == Ok(ReturnedSelf) && views == old(views)[name := arg.table]
                && arrowTables == Some(old(Tables())[name := arg.table])
      ensures open && arg.TableValue? && !HasNul(name) && block.Some? ==>
                r == (match block.value case Returns(v) => Ok(BlockValue(v)) case Raises(e) => Err(e))
                && views == RunDropView(old(views)[name := arg.table], DropViewSql(name))
                && arrowTables == Some(old(Tables()) - {name})
      ensures open && arg.TableValue? && !HasNul(name) && block.Some? && Unquoted(name) && name != "" ==> views == old(views) - {name}
      ensures old(Pinned(views, Tables())) && (block.None? || (Unquoted(name) && name != "")) ==> Pinned(views, Tables())
    {
      if !open {
        return Err(DuckDBError(ConnectionClosed));
      }
      if arg.OtherValue? {
        return Err(ArgumentError(NotATable + arg.text));
      }
      var failure := Store(name, arg.table);
      if failure.Some? {
        return Err(failure.value);
      }
      if block.None? {
        return Ok(ReturnedSelf);
      }
      var _ := Unregister(name);
      assert old(Tables())[name := arg.table] - {name} == old(Tables()) - {name};
      if Unquoted(name) && name != "" {
        assert old(views)[name := arg.table] - {name} == old(views) - {name};
      }
      match block.value
      case Returns(v) => r := Ok(BlockValue(v));
      case Raises(e) => r := Err(e);
    }
  }
}
