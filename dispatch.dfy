/**
 * `ArrowDuckDB::ArrowableQuery#query`, prepended to `DuckDB::Connection`: with `output: :arrow`
 * a query goes to `query_sql_arrow`, or, when it has parameters, to a prepared statement
 * executed with `execute_arrow`; otherwise to the original `query`.
 */
module Dispatch {
  import opened Bridge

  /** A query parameter: any Ruby value. */
  type Arg = RubyValue

  /** The `output:` keyword: `:arrow`, some other value, or absent (nil). */
  datatype OutputOption = ArrowOutput | OtherOutput(name: string) | NoOutput

  /** `DuckDB::PreparedStatement`, as far as `query` uses it: its SQL and the values bound so far,
      each with its 1-based position, in the order they were bound. */
  class PreparedStatement {
    const sql: string
    var binds: seq<(nat, Arg)>

    constructor (sql: string)
      ensures this.sql == sql && binds == []
    {
      this.sql := sql;
      binds := [];
    }

    method Bind(position: nat, arg: Arg)
      modifies this
      ensures binds == old(binds) + [(position, arg)]
    {
      binds := binds + [(position, arg)];
    }
  }

  /** The one call `query` makes, which gives it its result. */
  datatype Route =
    | SuperQuery(sql: string, args: seq<Arg>)
    | SqlArrow(sql: string)
    | ExecuteArrow(sql: string, binds: seq<(nat, Arg)>)

  /** `query(sql, *args, output:)`: anything but `:arrow` goes to the original `query` with the
      same SQL and arguments and without the keyword; `:arrow` without arguments goes to
      `query_sql_arrow`; `:arrow` with arguments binds `args[i]` at position `i + 1`, in order, on
      one prepared statement and executes it. */
  method Query(sql: string, args: seq<Arg>, output: OutputOption) returns (route: Route)
    ensures output != ArrowOutput ==> route == SuperQuery(sql, args)
    ensures output == ArrowOutput && args == [] ==> route == SqlArrow(sql)
    ensures output == ArrowOutput && args != [] ==>
              route.ExecuteArrow? && route.sql == sql && |route.binds| == |args|
              && forall i :: 0 <= i < |args| ==> route.binds[i] == (i + 1, args[i])
  {
    if output != ArrowOutput {
      return SuperQuery(sql, args);
    }
    if args == [] {
      return SqlArrow(sql);
    }
    var statement := new PreparedStatement(sql);
    for i := 0 to |args|
      invariant |statement.binds| == i
      invariant forall k :: 0 <= k < i ==> statement.binds[k] == (k + 1, args[k])
    {
      statement.Bind(i + 1, args[i]);
    }
    route := ExecuteArrow(statement.sql, statement.binds);
  }
}
