# red-arrow-duckdb in Dafny

This project models the core of red-arrow-duckdb, the Ruby binding that lets DuckDB query
Apache Arrow tables and return Arrow record batches. The model has three parts.

- **Predicate pushdown and scan set-up**
  (`ext/arrow-duckdb/arrow-duckdb-registration.cpp`).
  - DuckDB constants become Arrow scalars (`Constants`).
  - DuckDB `TableFilter` trees become Arrow compute expressions over a field reference
    (`Filters`).
  - `arrow_table_produce_internal` drives an Arrow `ScannerBuilder` step by step and stops at
    the first failing `Status` (`Scan`).
  - A boolean semantics of both filter languages over a record shows that pushing the filter
    into the scan keeps exactly the records DuckDB's filters keep (`Semantics`).
  - `connection_register` and `connection_unregister` create and drop the temporary views that
    scan a registered table (`Views`).
- **The Ruby bridge** (`ext/arrow-duckdb/arrow-duckdb.cpp`).
  - `ArrowDuckDB::Result` is a class with the fields `arrow`, `error_message` and `gschema`.
    Its `fetch` reads DuckDB's Arrow query handle, modelled as a sequence of array outcomes.
  - The connection's `query_sql_arrow`, `register_arrow` and `unregister_arrow` keep the
    catalog of views and the `@arrow_tables` hash in step (`Bridge`).
- **Query routing** (`lib/arrow-duckdb/connection.rb`).
  - `ArrowableQuery#query` chooses one of three routes: the original `query`,
    `query_sql_arrow`, or a prepared statement whose arguments are bound at positions 1, 2, …
    (`Dispatch`).

Arrow's and DuckDB's behaviour enters as parameters:
- the timestamp-scalar constructor (`TimestampFactory`);
- the set of builder steps that fail, with their `Status` messages (`Failures`);
- how `and_`/`or_` evaluate with no operands (`Combinators`);
- DuckDB's answers to queries (`QueryAnswer`, `ArrowQuery`).

A conversion failure inside `convert_filter` is a DuckDB exception, not an Arrow `Status`. The
`ARROW_RETURN_NOT_OK` around `Filter` never sees it, so `arrow_table_produce` lets it through
without the "[arrow][produce] failed to produce: " prefix. Only a failed builder step is
reported with that prefix. A reading in which every failure of `produce`, translation included,
is one prefixed scan error does not match this code. The model follows the code
(`Scan.ProduceFailure`, `Scan.Rethrow`).

## Model

| member | source | states |
|---|---|---|
| Values.ToValueInjective | ext/arrow-duckdb/arrow-duckdb-registration.cpp:58-96 | Two Arrow scalars that DuckDB reads back as the same value are the same scalar. Each type id has its own scalar type, width and signedness. |
| Values.CompareAgrees | ext/arrow-duckdb/arrow-duckdb-registration.cpp:115-126 | Arrow's comparison of two scalars orders them as DuckDB orders the values they carry. |
| Constants.ConvertConstantTimestamp | ext/arrow-duckdb/arrow-duckdb-registration.cpp:39-53 | Succeeds exactly when Arrow accepts the timestamp. The result is a timestamp scalar of the given unit whose epoch is the int64 payload, unchanged. A refusal is InvalidInput with the type, Arrow's status and the value. |
| Constants.ConvertConstant | ext/arrow-duckdb/arrow-duckdb-registration.cpp:55-103 | Succeeds exactly for the supported type ids, each timestamp only if Arrow accepts it. A success reads back as the original value. An unsupported type id fails with NotImplemented. A supported id fails only for a timestamp, with InvalidInput. |
| Constants.ConvertReadBack | ext/arrow-duckdb/arrow-duckdb-registration.cpp:58-96 | The converse round trip: every scalar DuckDB can read back converts to itself again. |
| Constants.TimestampUnits | ext/arrow-duckdb/arrow-duckdb-registration.cpp:75-82 | TIMESTAMP_SEC, TIMESTAMP_MS, TIMESTAMP and TIMESTAMP_NS map to SECOND, MILLI, MICRO and NANO, with the int64 used verbatim as the epoch offset. |
| Filters.Translate | ext/arrow-duckdb/arrow-duckdb-registration.cpp:105-163 | Translation succeeds exactly on the filters of its independently stated domain, `Translatable`. An expression it builds reads no field but the filter's column. |
| Filters.ComparisonTranslation | ext/arrow-duckdb/arrow-duckdb-registration.cpp:111-126 | A pushable comparison becomes its kernel (equal, less, greater, less_equal or greater_equal). The field reference is on the left and the literal on the right; the literal carries the constant's value. |
| Filters.TranslationErrors | ext/arrow-duckdb/arrow-duckdb-registration.cpp:111-161 | An unconvertible constant raises its own conversion error first. A convertible constant under any other comparison raises NotImplemented for the comparison. An unknown filter kind raises NotImplemented for the kind. |
| Filters.TranslateChildren | ext/arrow-duckdb/arrow-duckdb-registration.cpp:138-157 | A conjunction's children translate exactly when each child does. The number of children is kept, and each translation reads only the column. |
| Filters.ChildrenInOrder | ext/arrow-duckdb/arrow-duckdb-registration.cpp:138-157 | The i-th sub-expression is the translation of the i-th child, on the same column name. |
| Filters.FirstFailureWins | ext/arrow-duckdb/arrow-duckdb-registration.cpp:138-157 | A failed conjunction raises the error of the first failing child, and every child before it translates. No partial expression is returned. |
| Filters.ConvertFilter | ext/arrow-duckdb/arrow-duckdb-registration.cpp:105-163 | The recursive converter, including its loops over conjunction children, yields exactly `Translate`'s result. |
| Filters.ConvertChildren | ext/arrow-duckdb/arrow-duckdb-registration.cpp:141-146 | The loop that appends each child's translation to a vector yields `TranslateChildren`'s result, stopping at the first exception. |
| Filters.WithLookups | ext/arrow-duckdb/arrow-duckdb-registration.cpp:175 | `column_names[id]` only adds keys. Every id maps to its name, or to the empty string that `operator[]` inserts for an absent id. |
| Filters.ConvertFilters | ext/arrow-duckdb/arrow-duckdb-registration.cpp:165-178 | Succeeds exactly when every entry's filter translates. On success it yields `and_` of one expression per entry, in order, each on the name its id looks up. On failure it raises the first failing entry's error. The projection map afterwards holds exactly the lookups made up to the point where the loop stopped. |
| Semantics.ComparisonAgrees | ext/arrow-duckdb/arrow-duckdb-registration.cpp:111-133 | The translated comparison selects a record exactly when DuckDB's constant filter holds for the record's cell, null cells included. |
| Semantics.OrAgrees | ext/arrow-duckdb/arrow-duckdb-registration.cpp:138-147 | `or_` of children that agree one by one agrees with DuckDB's OR filter. |
| Semantics.AndAgrees | ext/arrow-duckdb/arrow-duckdb-registration.cpp:148-157 | `and_` of children that agree one by one agrees with DuckDB's AND filter. |
| Semantics.TranslationAgrees | ext/arrow-duckdb/arrow-duckdb-registration.cpp:105-163 | For every translatable filter, the Arrow expression selects a record exactly when the DuckDB filter holds. This needs Arrow's empty `and_`/`or_` to agree with DuckDB's empty conjunctions. |
| Semantics.FilterSetAgrees | ext/arrow-duckdb/arrow-duckdb-registration.cpp:165-178 | The combined `and_` selects a record exactly when every filter of the set holds for the cell its column id names. |
| Scan.ScannerBuilder.constructor | ext/arrow-duckdb/arrow-duckdb-registration.cpp:186-188 | A new scan of the table starts with no filter and no projection. |
| Scan.ScannerBuilder.Filter | ext/arrow-duckdb/arrow-duckdb-registration.cpp:193-196 | On success the condition is set and the projection is untouched. On failure nothing changes and the step's `Status` is returned. |
| Scan.ScannerBuilder.Project | ext/arrow-duckdb/arrow-duckdb-registration.cpp:198-201 | On success the column list is set and the filter is untouched. On failure nothing changes and the step's `Status` is returned. |
| Scan.ScannerBuilder.Finish | ext/arrow-duckdb/arrow-duckdb-registration.cpp:203 | The scanner built is the table with the filter and projection set so far, unless the step fails. |
| Scan.CompletedRunsPlanned | ext/arrow-duckdb/arrow-duckdb-registration.cpp:188-208 | A scan's calls all succeed exactly when none of its planned steps fails. The planned steps are NewScan, Filter only with a non-empty filter set, Project only with listed columns, then Finish, the reader and the export. |
| Scan.Configure | ext/arrow-duckdb/arrow-duckdb-registration.cpp:192-202 | Filter is called only with a condition and Project only with a non-empty column list, in that order. The run stops at the first failure. When neither fails, both settings are in place. |
| Scan.Complete | ext/arrow-duckdb/arrow-duckdb-registration.cpp:203-209 | Finish, the reader and the export run in order and stop at the first failure. They succeed exactly when none fails, and the stream is then the builder's configuration. |
| Scan.BuildScan | ext/arrow-duckdb/arrow-duckdb-registration.cpp:192-209 | The calls made on a fresh builder are a prefix of the plan. The result is a stream exactly when no planned call fails, and it carries the filter and, only for a non-empty list, the projection. Otherwise the last call is the failing one and every earlier call succeeded. |
| Scan.PushedFilter | ext/arrow-duckdb/arrow-duckdb-registration.cpp:189-197 | A filter set is converted only when it is present and non-empty. The condition is the conjunction of its translations. A failure is the first failing entry's error. The projection map only gains lookups. |
| Scan.ProduceInternal | ext/arrow-duckdb/arrow-duckdb-registration.cpp:180-210 | The calls are in build order and permitted by the parameters. A stream results exactly when no planned step fails and every filter translates. The stream's columns are the listed columns, or all of the table's for an empty list. A failed step stops the scan at that call with its `Status`. A conversion error stops the scan right after NewScan. |
| Scan.Rethrow | ext/arrow-duckdb/arrow-duckdb-registration.cpp:212-223 | A failed `Status` becomes a runtime error whose message is the produce prefix followed by the status text. A conversion exception passes through unchanged, and a stream is returned as is. |
| Scan.PushdownKeepsSameRows | ext/arrow-duckdb/arrow-duckdb-registration.cpp:192-197 | The rows the pushed-down condition keeps are exactly, and in the same order, the rows DuckDB's filter set keeps. |
| Scan.ScanIdGreaterThanOne | ext/arrow-duckdb/arrow-duckdb-registration.cpp:180-210 | Scenario: over a table with an `int32` column `id` and a `utf8` column `name`, the filter `id > 1` reaches the scan as `and_(greater(id, int32 1))`. The stream delivers the records with ids 2 and 3, and they hold only the projected column `id`. |
| Views.RegisterView | ext/arrow-duckdb/arrow-duckdb-registration.cpp:244-260 | A name holding NUL is refused. Otherwise the view of that name scans the table, replacing any earlier one, and every other view is unchanged. |
| Views.RunDropView | ext/arrow-duckdb/arrow-duckdb-registration.cpp:236-242 | A DROP VIEW that parses removes the view it names. One that does not parse leaves the catalog unchanged, and the failure is ignored. A zero-length quoted identifier (`DROP VIEW ""`) does not parse. |
| Views.EmptyNameKeepsView | ext/arrow-duckdb/arrow-duckdb-registration.cpp:236-242 | As written, the empty name gives `DROP VIEW ""`, which does not parse, so a view registered as `""` survives its unregistration. |
| Views.QuoteInNameKeepsView | ext/arrow-duckdb/arrow-duckdb-registration.cpp:236-242 | As written, the statement for the name `a"b` does not parse, so the view `a"b` survives its unregistration. |
| Views.DoubledQuoteDropsOtherView | ext/arrow-duckdb/arrow-duckdb-registration.cpp:236-242 | As written, unregistering `a""b` drops the view `a"b`. |
| Views.ParseEscaped | ext/arrow-duckdb/arrow-duckdb-registration.cpp:236-242 | Reading a name with its quotes doubled, up to the closing quote, gives back the name and the text after it. |
| Views.DropViewRoundTrip | ext/arrow-duckdb/arrow-duckdb-registration.cpp:236-242 | With quotes doubled, the DROP VIEW statement names exactly the view being unregistered, for every non-empty name. For the empty name the statement does not parse. |
| Views.UnquotedNamesUnchanged | ext/arrow-duckdb/arrow-duckdb-registration.cpp:236-242 | Escaping leaves a name without quotes unchanged. |
| Views.UnquotedStatementUnchanged | ext/arrow-duckdb/arrow-duckdb-registration.cpp:236-242 | For a name without quotes, the statement as written and the corrected statement are the same. |
| Views.UnregisterViewAsWritten | ext/arrow-duckdb/arrow-duckdb-registration.cpp:236-242 | A name holding NUL is refused. Otherwise the unescaped statement runs and its failure is ignored. Views are only ever removed, never changed. For a non-empty name without quotes, exactly the named view is gone, and an absent name changes nothing. For the empty name nothing is dropped. |
| Views.InjectedStatement | ext/arrow-duckdb/arrow-duckdb-registration.cpp:236-242 | As written, the name `x"; DROP VIEW "y` produces the text `DROP VIEW "x"; DROP VIEW "y"`, which holds a second statement. |
| Views.UnregisterView | ext/arrow-duckdb/arrow-duckdb-registration.cpp:236-242 | Corrected: a name holding NUL is refused. Otherwise, with quotes doubled, exactly the named view is gone for every non-empty name, and an absent name changes nothing. The empty name drops nothing. |
| Views.RegisterThenUnregister | ext/arrow-duckdb/arrow-duckdb-registration.cpp:236-260 | Corrected: with quotes doubled, registering a non-empty name and then unregistering it leaves every other view as it was. A view registered under the empty name stays. |
| Bridge.ArrowQuery.NextArray | ext/arrow-duckdb/arrow-duckdb.cpp:128-130 | Each call yields the next outcome of the query. Once the stream is drained, every call yields the end of the stream. |
| Bridge.BatchOutcome | ext/arrow-duckdb/arrow-duckdb.cpp:128-151 | `nil` exactly at the end of the stream. A batch is returned exactly when one arrives and imports, and it is read with the result's schema. An array error raises DuckDBError with the engine's message after the fixed text. A failed import raises Arrow's error. |
| Bridge.QueryResult.constructor | ext/arrow-duckdb/arrow-duckdb.cpp:84-96 | A new result has `arrow`, `error_message` and `gschema` all null. |
| Bridge.QueryResult.EnsureSchemaAsWritten | ext/arrow-duckdb/arrow-duckdb.cpp:98-118 | A schema fetch error replaces the message and raises. A failed import sets `gschema` to null and raises. A successful import overwrites `gschema` with a new schema object, so one more object is live. |
| Bridge.QueryResult.EnsureSchema | ext/arrow-duckdb/arrow-duckdb.cpp:98-118 | Corrected: an existing schema is kept and nothing is fetched, so a result holds at most one schema object. Otherwise the outcomes are as written. |
| Bridge.QueryResult.Fetch | ext/arrow-duckdb/arrow-duckdb.cpp:120-152 | Every fetch runs the schema step as written. A schema fetch error records the engine's message and raises. A failed import nulls `gschema` and raises. Neither consumes an array. Otherwise `gschema` is overwritten by a newly imported schema, one more schema object is live, and the next array is consumed: `nil` at the end of the stream, a batch read with that schema, or a raise that records the engine's message. |
| Bridge.QueryResult.FetchCorrected | ext/arrow-duckdb/arrow-duckdb.cpp:120-152 | Corrected: the schema is imported on the first successful fetch only, and later fetches read their batch with that cached schema. A result then holds at most one schema object. The array outcomes and messages are as in `Fetch`. |
| Bridge.QueryResult.Free | ext/arrow-duckdb/arrow-duckdb.cpp:62-71 | The schema object is released only when there is one. The message and the handle are cleared, and a result with its schema accounted for leaves nothing live. |
| Bridge.SchemaLeaksAsWritten | ext/arrow-duckdb/arrow-duckdb.cpp:98-126 | Two `fetch` calls as written on one result, then the free, leave one schema object unreleased. |
| Bridge.SchemaReleasedCorrected | ext/arrow-duckdb/arrow-duckdb.cpp:98-126 | Corrected: the same two fetches with the cached schema, then the free, leave nothing unreleased. |
| Bridge.FetchOneBatchThenNil | test/test-result.rb:27-37 | A query with one batch: the first `fetch` returns the batch with the query's schema, and the second returns `nil`. |
| Bridge.AsWrittenUnpinsView | ext/arrow-duckdb/arrow-duckdb.cpp:188-208 | As written, unregistering `a"b` deletes the hash entry but keeps the view, so a view is left scanning a table the hash no longer holds. |
| Bridge.Connection.QuerySqlArrow | ext/arrow-duckdb/arrow-duckdb.cpp:154-186 | A closed connection raises "Database connection closed", and SQL holding NUL raises ArgumentError. A refused query raises with the engine's message when a handle came back, and with the generic message otherwise. An answered query gives a fresh result holding the handle. |
| Bridge.Connection.Unregister | ext/arrow-duckdb/arrow-duckdb.cpp:188-208 | A closed connection or a name holding NUL raises before any change. Otherwise the unescaped DROP VIEW runs with its failure ignored, the name is deleted from `@arrow_tables` (created when nil), and the connection is returned. An absent key is a no-op. For a non-empty name without quotes, exactly its view is gone and every view stays backed by the hash. A quoted name or the empty name may leave its view behind with no hash entry. |
| Bridge.Connection.Store | ext/arrow-duckdb/arrow-duckdb.cpp:242-249 | A name holding NUL raises before any change. Otherwise the view (replacing any of that name) and `@arrow_tables[name]` are set to the table, the hash being created when nil. Every view stays backed by the hash. |
| Bridge.Connection.Register | ext/arrow-duckdb/arrow-duckdb.cpp:228-262 | A closed connection or a non-table argument raises before any change. Otherwise the view and `@arrow_tables[name]` are set. Without a block the connection is returned and the registration stays. With a block, the block's value or error is the outcome and the name is unregistered either way, by the unescaped DROP VIEW. Every view stays backed by the hash without a block, or with a block and a non-empty name without quotes. |
| Dispatch.PreparedStatement.Bind | lib/arrow-duckdb/connection.rb:24 | Binding appends the position and value to the statement's bindings. |
| Dispatch.Query | lib/arrow-duckdb/connection.rb:17-27 | Any output other than `:arrow` goes to the original `query` with the same SQL and arguments. `:arrow` without arguments goes to `query_sql_arrow`. `:arrow` with arguments executes one prepared statement on which `args[i]` is bound at position `i + 1`, for every `i` in order. Exactly one route is taken. |

## Left out

- The Arrow C data and stream interfaces (`ExportRecordBatchReader`, `ExportSchema`, the `garrow_*_import` calls, the import shims at `arrow-duckdb.cpp:30-51`) are foreign calls. They are modelled as steps that succeed or fail with a message.
- `arrow_table_get_schema` only exports the table's schema through the Arrow C interface; it is not part of this model beyond `Scan.StreamColumns`.
- Arrow's scanner and DuckDB's SQL engine are not modelled. The view catalog is a map from names to tables, and a query's answer is a parameter.
- DuckDB matches view names case-insensitively; the catalog here compares names exactly.
- Views.UnregisterView: even with the quoting corrected, a view registered under the empty name cannot be dropped, because a zero-length quoted identifier is a syntax error. The model keeps such a view, as DuckDB does, and does not model whether `CreateView` accepts the empty name.
- Views.RunDropView: reads only one `DROP VIEW "<identifier>"` statement and treats any text after the closing quote as a statement that does not parse. DuckDB's `Connection::Query` runs every `;`-separated statement, so as written a name like `x"; DROP VIEW "y` also drops `y` (or runs any other SQL it carries). The model does not capture that; `Views.InjectedStatement` only shows the text that reaches DuckDB.
- Floating-point constants are carried as bit patterns and compared by pattern on both sides of `Values.CompareAgrees`. IEEE ordering (negative numbers, NaN, signed zeros) is not modelled.
- A record without a column reads as null; the real scan would fail to bind the column.
- Ruby's exception messages are modelled by their fixed text followed by the engine's message. The `%s`/`%u` formatting of DuckDB's own exceptions is reduced to the data they carry (`Constants.ConvertError`).
- The `free` of `error_message` is not modelled as memory management. The field is simply replaced or cleared, because the message belongs to DuckDB's handle.
- Reference counting and the Ruby garbage collector are reduced to the count of live schema objects in `Bridge.QueryResult`.
- Bridge.QueryResult.Fetch: requires a non-null `arrow`, because a `Result` made by `Result.new` from Ruby without a query is not modelled.
- Bridge.QueryResult.FetchCorrected: requires a non-null `arrow`, for the same reason.
- Bridge.QueryResult.EnsureSchemaAsWritten: requires a non-null `arrow`, for the same reason.
- Bridge.QueryResult.EnsureSchema: requires a non-null `arrow`, for the same reason.
- A block passed to `register_arrow` is reduced to its outcome. Side effects of the block on the connection, such as closing it, are not modelled.
- `execute_arrow` and `DuckDB::PreparedStatement` are not part of this model beyond the bindings recorded in `Dispatch.PreparedStatement`.
- A name or SQL that is not a Ruby String raises TypeError in `StringValueCStr`; only strings are modelled, and a NUL inside one is refused.
- The filter set's `unordered_map` iteration order is unspecified. It is modelled as the order of the entry sequence, and every stated property holds for any order.
- `ext/arrow-duckdb/extconf.rb`, the tests and the examples are not modelled. `Bridge.FetchOneBatchThenNil` restates the `#fetch` scenario of `test/test-result.rb`. `Scan.ScanIdGreaterThanOne` is an illustration of the pushdown path of its own, not a restated test: the pushdown test filters a timestamp column.

## Findings

| source | as written | input that shows it | evidently intended | confidence | as-written member | corrected member |
|---|---|---|---|---|---|---|
| ext/arrow-duckdb/arrow-duckdb.cpp:98-126 | `result_fetch` calls `result_ensure_gschema` on every fetch. Each call fetches and imports the schema again and overwrites `gschema` without releasing the previous object. | Two `fetch` calls on one result, then `result_free`: one schema object is never released. | The schema is imported once and reused (`gschema` checked before importing), so the free releases everything. | not executed | Bridge.SchemaLeaksAsWritten | Bridge.SchemaReleasedCorrected |
| ext/arrow-duckdb/arrow-duckdb-registration.cpp:236-242 | `connection_unregister` pastes the name between double quotes without doubling the quotes inside it, and ignores the query's failure. | The name `a"b`: the statement does not parse, so the view stays while `unregister_arrow` deletes its hash entry. The empty name gives `DROP VIEW ""`, which does not parse either (`Views.EmptyNameKeepsView`). The name `a""b` drops the view `a"b` instead. The name `x"; DROP VIEW "y` sends a second statement, which DuckDB also runs (not captured by the model's DROP VIEW reader; see `Views.RunDropView` under Left out). | The name is quoted as an identifier, with every quote doubled, so exactly the named view is dropped. No quoted identifier spells the empty name, so the corrected statement still leaves a view named `""`. | not executed | Views.QuoteInNameKeepsView | Views.DropViewRoundTrip |
