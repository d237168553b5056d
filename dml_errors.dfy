/** How the DML statement parsers fail: always with a syntax error whose
    message names a step of that statement, and with the message of the
    first step, carrying the whole statement, exactly when the statement's
    keyword is missing. */
module DmlErrors {
  import opened Nom
  import opened Ast
  import opened Lexer
  import opened Dml

  // ----- SELECT -----

  predicate SelectMessage(m: string) {
    || m == "expected the select keyword"
    || m == "expected the column names or *"
    || m == "expected the from keyword"
    || m == "expected the table name"
    || m == "an error occurred while parsing where condition"
  }

  lemma SelectFailsAtKeyword(d: Dialect, query: string)
    requires Keyword("SELECT", query).None?
    ensures ParseSelect(d, query) == Err(QuerySyntaxError("expected the select keyword", query))
  {
  }

  lemma SelectFailsAtColumns(d: Dialect, query: string, r: string)
    requires Keyword("SELECT", query).Some? && Keyword("SELECT", query).value.rest == r
    requires SelectColumns(r).None?
    ensures ParseSelect(d, query) == Err(QuerySyntaxError("expected the column names or *", r))
  {
  }

  lemma SelectFailsAtFrom(d: Dialect, query: string, r: string, f: string)
    requires Keyword("SELECT", query).Some? && Keyword("SELECT", query).value.rest == r
    requires SelectColumns(r).Some? && SelectColumns(r).value.rest == f
    requires Keyword("FROM", f).None?
    ensures ParseSelect(d, query) == Err(QuerySyntaxError("expected the from keyword", f))
  {
  }

  lemma SelectFailsAtTable(d: Dialect, query: string, r: string, f: string, t: string)
    requires Keyword("SELECT", query).Some? && Keyword("SELECT", query).value.rest == r
    requires SelectColumns(r).Some? && SelectColumns(r).value.rest == f
    requires Keyword("FROM", f).Some? && Keyword("FROM", f).value.rest == t
    requires Identifier(t).None?
    ensures ParseSelect(d, query) == Err(QuerySyntaxError("expected the table name", t))
  {
  }

  lemma SelectFailsAtWhere(d: Dialect, query: string, r: string, f: string, t: string, w: string)
    requires Keyword("SELECT", query).Some? && Keyword("SELECT", query).value.rest == r
    requires SelectColumns(r).Some? && SelectColumns(r).value.rest == f
    requires Keyword("FROM", f).Some? && Keyword("FROM", f).value.rest == t
    requires Identifier(t).Some? && Identifier(t).value.rest == w
    requires ParseConditions(d, w).None?
    ensures ParseSelect(d, query) == Err(QuerySyntaxError("an error occurred while parsing where condition", w))
  {
  }

  lemma SelectSucceeds(d: Dialect, query: string, r: string, f: string, t: string, w: string)
    requires Keyword("SELECT", query).Some? && Keyword("SELECT", query).value.rest == r
    requires SelectColumns(r).Some? && SelectColumns(r).value.rest == f
    requires Keyword("FROM", f).Some? && Keyword("FROM", f).value.rest == t
    requires Identifier(t).Some? && Identifier(t).value.rest == w
    requires ParseConditions(d, w).Some?
    ensures ParseSelect(d, query).Ok?
  {
  }

  /** parse_select_query fails with a syntax error naming one of its steps;
      it names the keyword, with the whole statement, exactly when the
      keyword is missing. */
  lemma SelectErrors(d: Dialect, query: string)
    ensures ParseSelect(d, query).Err? ==>
              ParseSelect(d, query).error.QuerySyntaxError? && SelectMessage(ParseSelect(d, query).error.message)
    ensures Keyword("SELECT", query).None? <==>
              ParseSelect(d, query) == Err(QuerySyntaxError("expected the select keyword", query))
  {
    match Keyword("SELECT", query)
    case None => SelectFailsAtKeyword(d, query);
    case Some(kw) =>
      match SelectColumns(kw.rest)
      case None => SelectFailsAtColumns(d, query, kw.rest);
      case Some(cols) =>
        match Keyword("FROM", cols.rest)
        case None => SelectFailsAtFrom(d, query, kw.rest, cols.rest);
        case Some(from) =>
          match Identifier(from.rest)
          case None => SelectFailsAtTable(d, query, kw.rest, cols.rest, from.rest);
          case Some(table) =>
            if ParseConditions(d, table.rest).None? {
              SelectFailsAtWhere(d, query, kw.rest, cols.rest, from.rest, table.rest);
            } else {
              SelectSucceeds(d, query, kw.rest, cols.rest, from.rest, table.rest);
            }
  }

  // ----- INSERT -----

  predicate InsertMessage(m: string) {
    || m == "expected the insert into keyword"
    || m == "expected the table name"
    || m == "an error occurred while parsing column names"
    || m == "expected the values keyword"
    || m == "an error occurred while parsing values"
  }

  lemma InsertFailsAtKeyword(d: Dialect, query: string)
    requires Keyword("INSERT INTO", query).None?
    ensures ParseInsert(d, query) == Err(QuerySyntaxError("expected the insert into keyword", query))
  {
  }

  lemma InsertFailsAtTable(d: Dialect, query: string, r1: string)
    requires Keyword("INSERT INTO", query).Some? && Keyword("INSERT INTO", query).value.rest == r1
    requires Identifier(r1).None?
    ensures ParseInsert(d, query) == Err(QuerySyntaxError("expected the table name", r1))
  {
  }

  lemma InsertFailsAtColumns(d: Dialect, query: string, r1: string, r2: string)
    requires Keyword("INSERT INTO", query).Some? && Keyword("INSERT INTO", query).value.rest == r1
    requires Identifier(r1).Some? && Identifier(r1).value.rest == r2
    requires ColumnsInParens(r2).None?
    ensures ParseInsert(d, query) == Err(QuerySyntaxError("an error occurred while parsing column names", r2))
  {
  }

  lemma InsertFailsAtValuesKeyword(d: Dialect, query: string, r1: string, r2: string, r3: string)
    requires Keyword("INSERT INTO", query).Some? && Keyword("INSERT INTO", query).value.rest == r1
    requires Identifier(r1).Some? && Identifier(r1).value.rest == r2
    requires ColumnsInParens(r2).Some? && ColumnsInParens(r2).value.rest == r3
    requires Keyword("VALUES", r3).None?
    ensures ParseInsert(d, query) == Err(QuerySyntaxError("expected the values keyword", r3))
  {
  }

  lemma InsertFailsAtValues(d: Dialect, query: string, r1: string, r2: string, r3: string, r4: string)
    requires Keyword("INSERT INTO", query).Some? && Keyword("INSERT INTO", query).value.rest == r1
    requires Identifier(r1).Some? && Identifier(r1).value.rest == r2
    requires ColumnsInParens(r2).Some? && ColumnsInParens(r2).value.rest == r3
    requires Keyword("VALUES", r3).Some? && Keyword("VALUES", r3).value.rest == r4
    requires ValuesInParens(d, r4).None?
    ensures ParseInsert(d, query) == Err(QuerySyntaxError("an error occurred while parsing values", r4))
  {
  }

  lemma InsertSucceeds(d: Dialect, query: string, r1: string, r2: string, r3: string, r4: string)
    requires Keyword("INSERT INTO", query).Some? && Keyword("INSERT INTO", query).value.rest == r1
    requires Identifier(r1).Some? && Identifier(r1).value.rest == r2
    requires ColumnsInParens(r2).Some? && ColumnsInParens(r2).value.rest == r3
    requires Keyword("VALUES", r3).Some? && Keyword("VALUES", r3).value.rest == r4
    requires ValuesInParens(d, r4).Some?
    ensures ParseInsert(d, query).Ok?
  {
  }

  /** parse_insert fails with a syntax error naming one of its steps; it
      names the keyword, with the whole statement, exactly when INSERT INTO
      is missing. */
  lemma InsertErrors(d: Dialect, query: string)
    ensures ParseInsert(d, query).Err? ==>
              ParseInsert(d, query).error.QuerySyntaxError? && InsertMessage(ParseInsert(d, query).error.message)
    ensures Keyword("INSERT INTO", query).None? <==>
              ParseInsert(d, query) == Err(QuerySyntaxError("expected the insert into keyword", query))
  {
    match Keyword("INSERT INTO", query)
    case None => InsertFailsAtKeyword(d, query);
    case Some(kw) =>
      match Identifier(kw.rest)
      case None => InsertFailsAtTable(d, query, kw.rest);
      case Some(table) =>
        match ColumnsInParens(table.rest)
        case None => InsertFailsAtColumns(d, query, kw.rest, table.rest);
        case Some(cols) =>
          match Keyword("VALUES", cols.rest)
          case None => InsertFailsAtValuesKeyword(d, query, kw.rest, table.rest, cols.rest);
          case Some(values) =>
            if ValuesInParens(d, values.rest).None? {
              InsertFailsAtValues(d, query, kw.rest, table.rest, cols.rest, values.rest);
            } else {
              InsertSucceeds(d, query, kw.rest, table.rest, cols.rest, values.rest);
            }
  }

  // ----- UPDATE -----

  predicate UpdateMessage(m: string) {
    || m == "an error occurred while parsing update keyword"
    || m == "an error occurred while parsing the table name"
    || m == "expected set keyword"
    || m == "an error occurred while parsing values"
    || m == "an error occurred while parsing where condition"
  }

  lemma UpdateFailsAtKeyword(d: Dialect, query: string)
    requires Keyword("UPDATE", query).None?
    ensures ParseUpdate(d, query) == Err(QuerySyntaxError("an error occurred while parsing update keyword", query))
  {
  }

  lemma UpdateFailsAtTable(d: Dialect, query: string, r1: string)
    requires Keyword("UPDATE", query).Some? && Keyword("UPDATE", query).value.rest == r1
    requires Identifier(r1).None?
    ensures ParseUpdate(d, query) == Err(QuerySyntaxError("an error occurred while parsing the table name", r1))
  {
  }

  lemma UpdateFailsAtSet(d: Dialect, query: string, r1: string, r2: string)
    requires Keyword("UPDATE", query).Some? && Keyword("UPDATE", query).value.rest == r1
    requires Identifier(r1).Some? && Identifier(r1).value.rest == r2
    requires Keyword("SET", r2).None?
    ensures ParseUpdate(d, query) == Err(QuerySyntaxError("expected set keyword", r2))
  {
  }

  lemma UpdateFailsAtValues(d: Dialect, query: string, r1: string, r2: string, r3: string)
    requires Keyword("UPDATE", query).Some? && Keyword("UPDATE", query).value.rest == r1
    requires Identifier(r1).Some? && Identifier(r1).value.rest == r2
    requires Keyword("SET", r2).Some? && Keyword("SET", r2).value.rest == r3
    requires AssignmentList(d, r3).None?
    ensures ParseUpdate(d, query) == Err(QuerySyntaxError("an error occurred while parsing values", r3))
  {
  }

  lemma UpdateFailsAtWhere(d: Dialect, query: string, r1: string, r2: string, r3: string, w: string)
    requires Keyword("UPDATE", query).Some? && Keyword("UPDATE", query).value.rest == r1
    requires Identifier(r1).Some? && Identifier(r1).value.rest == r2
    requires Keyword("SET", r2).Some? && Keyword("SET", r2).value.rest == r3
    requires AssignmentList(d, r3).Some? && AssignmentList(d, r3).value.rest == w
    requires ParseConditions(d, w).None?
    ensures ParseUpdate(d, query) == Err(QuerySyntaxError("an error occurred while parsing where condition", w))
  {
  }

  lemma UpdateSucceeds(d: Dialect, query: string, r1: string, r2: string, r3: string, w: string)
    requires Keyword("UPDATE", query).Some? && Keyword("UPDATE", query).value.rest == r1
    requires Identifier(r1).Some? && Identifier(r1).value.rest == r2
    requires Keyword("SET", r2).Some? && Keyword("SET", r2).value.rest == r3
    requires AssignmentList(d, r3).Some? && AssignmentList(d, r3).value.rest == w
    requires ParseConditions(d, w).Some?
    ensures ParseUpdate(d, query).Ok?
  {
  }

  /** parse_update fails with a syntax error naming one of its steps; it
      names the keyword, with the whole statement, exactly when UPDATE is
      missing. */
  lemma UpdateErrors(d: Dialect, query: string)
    ensures ParseUpdate(d, query).Err? ==>
              ParseUpdate(d, query).error.QuerySyntaxError? && UpdateMessage(ParseUpdate(d, query).error.message)
    ensures Keyword("UPDATE", query).None? <==>
              ParseUpdate(d, query) == Err(QuerySyntaxError("an error occurred while parsing update keyword", query))
  {
    match Keyword("UPDATE", query)
    case None => UpdateFailsAtKeyword(d, query);
    case Some(kw) =>
      match Identifier(kw.rest)
      case None => UpdateFailsAtTable(d, query, kw.rest);
      case Some(table) =>
        match Keyword("SET", table.rest)
        case None => UpdateFailsAtSet(d, query, kw.rest, table.rest);
        case Some(setKw) =>
          match AssignmentList(d, setKw.rest)
          case None => UpdateFailsAtValues(d, query, kw.rest, table.rest, setKw.rest);
          case Some(values) =>
            if ParseConditions(d, values.rest).None? {
              UpdateFailsAtWhere(d, query, kw.rest, table.rest, setKw.rest, values.rest);
            } else {
              UpdateSucceeds(d, query, kw.rest, table.rest, setKw.rest, values.rest);
            }
  }

  // ----- DELETE -----

  predicate DeleteMessage(m: string) {
    || m == "an error occurred while parsing delete keyword"
    || m == "an error occurred while parsing the columns"
    || m == "an error occurred while parsing from keyword"
    || m == "an error occurred while parsing the table name"
    || m == "an error occurred while parsing where condition"
  }

  /** The column part of DELETE fails with one of its two messages. */
  lemma DeleteColumnsErrors(s: string)
    ensures DeleteColumns(s).Err? ==>
              || DeleteColumns(s).error == QuerySyntaxError("an error occurred while parsing the columns", s)
              || (&& ColumnList(s).Some?
                  && DeleteColumns(s).error == QuerySyntaxError("an error occurred while parsing from keyword", ColumnList(s).value.rest))
  {
  }

  lemma DeleteFailsAtKeyword(d: Dialect, query: string)
    requires Keyword("DELETE", query).None?
    ensures ParseDelete(d, query) == Err(QuerySyntaxError("an error occurred while parsing delete keyword", query))
  {
  }

  lemma DeleteFailsAtColumns(d: Dialect, query: string, r1: string)
    requires Keyword("DELETE", query).Some? && Keyword("DELETE", query).value.rest == r1
    requires DeleteColumns(r1).Err?
    ensures ParseDelete(d, query) == Err(DeleteColumns(r1).error)
  {
  }

  lemma DeleteFailsAtTable(d: Dialect, query: string, r1: string, t: string)
    requires Keyword("DELETE", query).Some? && Keyword("DELETE", query).value.rest == r1
    requires DeleteColumns(r1).Ok? && DeleteColumns(r1).value.rest == t
    requires Identifier(t).None?
    ensures ParseDelete(d, query) == Err(QuerySyntaxError("an error occurred while parsing the table name", t))
  {
  }

  lemma DeleteFailsAtWhere(d: Dialect, query: string, r1: string, t: string, w: string)
    requires Keyword("DELETE", query).Some? && Keyword("DELETE", query).value.rest == r1
    requires DeleteColumns(r1).Ok? && DeleteColumns(r1).value.rest == t
    requires Identifier(t).Some? && Identifier(t).value.rest == w
    requires ParseConditions(d, w).None?
    ensures ParseDelete(d, query) == Err(QuerySyntaxError("an error occurred while parsing where condition", w))
  {
  }

  lemma DeleteSucceeds(d: Dialect, query: string, r1: string, t: string, w: string)
    requires Keyword("DELETE", query).Some? && Keyword("DELETE", query).value.rest == r1
    requires DeleteColumns(r1).Ok? && DeleteColumns(r1).value.rest == t
    requires Identifier(t).Some? && Identifier(t).value.rest == w
    requires ParseConditions(d, w).Some?
    ensures ParseDelete(d, query).Ok?
  {
  }

  /** parse_delete fails with a syntax error naming one of its steps; it
      names the keyword, with the whole statement, exactly when DELETE is
      missing. */
  lemma DeleteErrors(d: Dialect, query: string)
    ensures ParseDelete(d, query).Err? ==>
              ParseDelete(d, query).error.QuerySyntaxError? && DeleteMessage(ParseDelete(d, query).error.message)
    ensures Keyword("DELETE", query).None? <==>
              ParseDelete(d, query) == Err(QuerySyntaxError("an error occurred while parsing delete keyword", query))
  {
    match Keyword("DELETE", query)
    case None => DeleteFailsAtKeyword(d, query);
    case Some(kw) =>
      match DeleteColumns(kw.rest)
      case Err(_) =>
        DeleteColumnsErrors(kw.rest);
        DeleteFailsAtColumns(d, query, kw.rest);
      case Ok(cols) =>
        match Identifier(cols.rest)
        case None => DeleteFailsAtTable(d, query, kw.rest, cols.rest);
        case Some(table) =>
          if ParseConditions(d, table.rest).None? {
            DeleteFailsAtWhere(d, query, kw.rest, cols.rest, table.rest);
          } else {
            DeleteSucceeds(d, query, kw.rest, cols.rest, table.rest);
          }
  }
}
