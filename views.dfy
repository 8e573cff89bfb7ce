/**
 * `connection_register` and `connection_unregister`: the temporary views through which DuckDB
 * scans a registered Arrow table, and the `DROP VIEW` statement that removes one.
 */
module Views {
  import opened Wrappers
  import opened Scan

  /** The connection's temporary views created by registration: each name scans one table. */
  type Catalog = map<string, ArrowTable>

  /** Ruby's `StringValueCStr` refuses a name holding a NUL character. */
  const NulInName: string := "string contains null byte"

  predicate HasNul(name: string)
  {
    exists i :: 0 <= i < |name| && name[i] == '\0'
  }

  /** `connection_register`: an `arrow_scan` over the table, kept as a temporary view that
      replaces any view of the same name. */
  function RegisterView(catalog: Catalog, name: string, table: ArrowTable): (r: Result<Catalog, string>)
    ensures r.Err? <==> HasNul(name)
    ensures r.Err? ==> r.error == NulInName
    ensures r.Ok? ==> name in r.value && r.value[name] == table
    ensures r.Ok? ==> forall n :: n != name ==> (n in r.value <==> n in catalog) && (n in catalog ==> r.value[n] == catalog[n])
  {
    if HasNul(name) then Err(NulInName) else Ok(catalog[name := table])
  }

  /** SQL's double-quoted identifier, read after its opening quote: a doubled quote stands for
      one quote and a lone quote closes the identifier.  The identifier and the text after the
      closing quote, or `None` when no quote closes it. */
  function ParseQuoted(s: string): Option<(string, string)>
    decreases |s|
  {
    if s == [] then None
    else if s[0] == '"' then
      if |s| > 1 && s[1] == '"' then
        var inner := ParseQuoted(s[2..]);
        if inner.None? then None else Some(("\"" + inner.value.0, inner.value.1))
      else Some(("", s[1..]))
    else
      var inner := ParseQuoted(s[1..]);
      if inner.None? then None else Some(([s[0]] + inner.value.0, inner.value.1))
  }

  const DropViewPrefix: string := "DROP VIEW \""

  /** The view a `DROP VIEW "<identifier>"` statement names, or `None` when it does not parse.
      A zero-length quoted identifier is a syntax error, so `DROP VIEW ""` names no view. */
  function ParseDropView(sql: string): Option<string>
  {
    if |sql| < |DropViewPrefix| || sql[..|DropViewPrefix|] != DropViewPrefix then None
    else
      var quoted := ParseQuoted(sql[|DropViewPrefix|..]);
      if quoted.None? || quoted.value.1 != [] || quoted.value.0 == [] then None else Some(quoted.value.0)
  }

  /** Running a `DROP VIEW` statement: an existing view it names is removed.  A statement that
      does not parse or names no view fails, and the failure is ignored. */
  function RunDropView(catalog: Catalog, sql: string): (c: Catalog)
    ensures c.Keys <= catalog.Keys
    ensures forall n :: n in c ==> c[n] == catalog[n]
    ensures ParseDropView(sql).None? ==> c == catalog
    ensures ParseDropView(sql).Some? ==> c == catalog - {ParseDropView(sql).value}
  {
    var target := ParseDropView(sql);
    if target.Some? && target.value in catalog then catalog - {target.value} else catalog
  }

  /** `connection_unregister` as written: the name is pasted between double quotes unescaped. */
  function DropViewSql(name: string): string
  {
    DropViewPrefix + name + "\""
  }

  /** A quote in the name ends the identifier early: the statement for `a"b` does not parse, so
      the view `a"b` is left in place. */
  lemma QuoteInNameKeepsView(table: ArrowTable)
    ensures ParseDropView(DropViewSql("a\"b")) == None
    ensures RunDropView(map["a\"b" := table], DropViewSql("a\"b")) == map["a\"b" := table]
  {
    assert DropViewSql("a\"b")[|DropViewPrefix|..] == "a\"b\"";
    assert "\""[1..] == "" && "b\""[1..] == "\"" && "\"b\""[1..] == "b\"" && "a\"b\""[1..] == "\"b\"";
    assert ParseQuoted("\"") == Some(("", ""));
    assert ['b'] + "" == "b" && ['a'] + "" == "a";
    assert ParseQuoted("b\"") == Some(("b", ""));
    assert ParseQuoted("\"b\"") == Some(("", "b\""));
    assert ParseQuoted("a\"b\"") == Some(("a", "b\""));
  }

  /** A doubled quote in the name is read as one: unregistering `a""b` drops the view `a"b`. */
  lemma DoubledQuoteDropsOtherView(table: ArrowTable)
    ensures ParseDropView(DropViewSql("a\"\"b")) == Some("a\"b")
    ensures RunDropView(map["a\"b" := table], DropViewSql("a\"\"b")) == map[]
  {
    assert DropViewSql("a\"\"b")[|DropViewPrefix|..] == "a\"\"b\"";
    assert "\""[1..] == "" && "b\""[1..] == "\"" && "\"\"b\""[2..] == "b\"" && "a\"\"b\""[1..] == "\"\"b\"";
    assert ParseQuoted("\"") == Some(("", ""));
    assert ['b'] + "" == "b" && "\"" + "b" == "\"b" && ['a'] + "\"b" == "a\"b";
    assert ParseQuoted("b\"") == Some(("b", ""));
    assert ParseQuoted("\"\"b\"") == Some(("\"b", ""));
    assert ParseQuoted("a\"\"b\"") == Some(("a\"b", ""));
  }

  /** The name with every double quote doubled. */
  function Escape(name: string): string
  {
    if name == [] then ""
    else (if name[0] == '"' then "\"\"" else [name[0]]) + Escape(name[1..])
  }

  /** The name as a double-quoted SQL identifier. */
  function QuoteIdentifier(name: string): string
  {
    "\"" + Escape(name) + "\""
  }

  /** The statement `connection_unregister` is evidently meant to run for `name`. */
  function DropViewStatement(name: string): string
  {
    "DROP VIEW " + QuoteIdentifier(name)
  }

  /** Reading an escaped name back, up to its closing quote, gives the name and what follows. */
  lemma {:induction false} ParseEscaped(name: string, rest: string)
    requires rest == [] || rest[0] != '"'
    ensures ParseQuoted(Escape(name) + "\"" + rest) == Some((name, rest))
    decreases |name|
  {
    var s := Escape(name) + "\"" + rest;
    if name == [] {
      assert s == "\"" + rest;
    } else {
      ParseEscaped(name[1..], rest);
      var tail := Escape(name[1..]) + "\"" + rest;
      if name[0] == '"' {
        assert s == "\"\"" + tail;
        assert s[2..] == tail;
        assert "\"" + name[1..] == name;
      } else {
        assert s == [name[0]] + tail;
        assert s[1..] == tail;
        assert [name[0]] + name[1..] == name;
      }
    }
  }

  /** With quotes doubled the statement names exactly the view being unregistered, whatever
      the name holds; only the empty name has no quoted identifier. */
  lemma DropViewRoundTrip(name: string)
    ensures name != "" ==> ParseDropView(DropViewStatement(name)) == Some(name)
    ensures name == "" ==> ParseDropView(DropViewStatement(name)) == None
  {
    var sql := DropViewStatement(name);
    assert sql == DropViewPrefix + (Escape(name) + "\"" + "");
    assert sql[|DropViewPrefix|..] == Escape(name) + "\"" + "";
    ParseEscaped(name, "");
  }

  /** Escaping changes nothing in a name without quotes. */
  lemma {:induction false} UnquotedNamesUnchanged(name: string)
    requires Unquoted(name)
    ensures Escape(name) == name
    decreases |name|
  {
    if name != [] {
      assert name[0] != '"';
      UnquotedNamesUnchanged(name[1..]);
      assert [name[0]] + name[1..] == name;
    }
  }

  /** So for such names the statement as written is the right one. */
  lemma UnquotedStatementUnchanged(name: string)
    requires Unquoted(name)
    ensures DropViewSql(name) == DropViewStatement(name)
  {
    UnquotedNamesUnchanged(name);
    assert DropViewStatement(name) == "DROP VIEW " + ("\"" + name + "\"");
  }

  /** The name holds no double quote. */
  predicate Unquoted(name: string)
  {
    forall i :: 0 <= i < |name| ==> name[i] != '"'
  }

  /** `connection_unregister` as written: a name holding NUL is refused, otherwise the unescaped
      statement is run and its failure ignored.  Only views are removed, for a non-empty name
      without quotes exactly the named one, and for the empty name none. */
  function UnregisterViewAsWritten(catalog: Catalog, name: string): (r: Result<Catalog, string>)
    ensures r.Err? <==> HasNul(name)
    ensures r.Err? ==> r.error == NulInName
    ensures r.Ok? ==> r.value.Keys <= catalog.Keys && forall n :: n in r.value ==> r.value[n] == catalog[n]
    ensures r.Ok? && Unquoted(name) && name != "" ==> r.value == catalog - {name}
    ensures r.Ok? && name == "" ==> r.value == catalog
  {
    if HasNul(name) then Err(NulInName)
    else if Unquoted(name) then
      UnquotedStatementUnchanged(name);
      DropViewRoundTrip(name);
      Ok(RunDropView(catalog, DropViewSql(name)))
    else Ok(RunDropView(catalog, DropViewSql(name)))
  }

  /** The empty name gives `DROP VIEW ""`, which does not parse: the view `""` is left in place. */
  lemma EmptyNameKeepsView(table: ArrowTable)
    ensures ParseDropView(DropViewSql("")) == None
    ensures RunDropView(map["" := table], DropViewSql("")) == map["" := table]
  {
    assert DropViewSql("")[|DropViewPrefix|..] == "\"";
    assert "\""[1..] == "";
    assert ParseQuoted("\"") == Some(("", ""));
  }

  /** The name of a view that holds a quote and a semicolon makes the statement as written carry
      a second statement of the caller's choosing. */
  lemma InjectedStatement()
    ensures DropViewSql("x\"; DROP VIEW \"y") == "DROP VIEW \"x\"; DROP VIEW \"y\""
  {
  }

  /** `connection_unregister` with the quoting corrected: the named view, and only it, is gone;
      the empty name, which no quoted identifier can spell, drops nothing. */
  function UnregisterView(catalog: Catalog, name: string): (r: Result<Catalog, string>)
    ensures r.Err? <==> HasNul(name)
    ensures r.Err? ==> r.error == NulInName
    ensures r.Ok? && name != "" ==> r.value == catalog - {name}
    ensures r.Ok? && name == "" ==> r.value == catalog
  {
    if HasNul(name) then Err(NulInName)
    else
      DropViewRoundTrip(name);
      Ok(RunDropView(catalog, DropViewStatement(name)))
  }

  /** With the corrected quoting, registering and then unregistering a non-empty name leaves
      every other view as it was; a view registered under the empty name stays. */
  lemma RegisterThenUnregister(catalog: Catalog, name: string, table: ArrowTable)
    requires !HasNul(name)
    ensures name != "" ==> UnregisterView(RegisterView(catalog, name, table).value, name) == Ok(catalog - {name})
    ensures name == "" ==> UnregisterView(RegisterView(catalog, name, table).value, name) == Ok(catalog[name := table])
  {
    assert catalog[name := table] - {name} == catalog - {name};
  }
}
