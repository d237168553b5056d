/** The data-manipulation grammar: SELECT, INSERT INTO, UPDATE and DELETE,
    with the WHERE clause they share. Each statement parser runs its steps
    in order and reports the first step that fails as a syntax error
    carrying the input that step was given; what is left after the last
    clause is ignored. */
module Dml {
  import opened Nom
  import opened Ast
  import opened Lexer

  /** One comparison operator spelled `lit`. */
  function OperatorAs(lit: string, op: Operator, s: string): (r: Option<Parsed<Operator>>)
    ensures r.Some? <==> Symbol(lit, s).Some?
    ensures r.Some? ==> r.value.value == op && r.value.rest == Symbol(lit, s).value.rest
  {
    match Symbol(lit, s)
    case None => None
    case Some(p) => Some(Parsed(op, p.rest))
  }

  /** The text of each operator. */
  function OperatorText(op: Operator): string {
    match op
    case GreaterOrEquals => ">="
    case LessOrEquals => "<="
    case Greater => ">"
    case Less => "<"
    case Equals => "="
    case NotEquals => "!="
  }

  /** The comparison operators in the order they are tried: `>=`, `<=`,
      `>`, `<`, `=`, `!=`. What is read is the operator whose text stands
      first in the input; when no operator's text stands there, nothing is. */
  function ParseOperator(s: string): (r: Option<Parsed<Operator>>)
    ensures r.Some? ==> |r.value.rest| < |s| && !StartsWithWs(r.value.rest)
    ensures r.Some? ==> Symbol(OperatorText(r.value.value), s).Some?
    ensures r.Some? ==> Symbol(OperatorText(r.value.value), s).value.rest == r.value.rest
    ensures r.None? <==> && Symbol(">=", s).None? && Symbol("<=", s).None? && Symbol(">", s).None?
                         && Symbol("<", s).None? && Symbol("=", s).None? && Symbol("!=", s).None?
  {
    OperatorAs(">=", GreaterOrEquals, s)
      .OrElse(OperatorAs("<=", LessOrEquals, s))
      .OrElse(OperatorAs(">", Greater, s))
      .OrElse(OperatorAs("<", Less, s))
      .OrElse(OperatorAs("=", Equals, s))
      .OrElse(OperatorAs("!=", NotEquals, s))
  }

  /** parse_condition: a column, an operator and a value. */
  function ParseCondition(d: Dialect, s: string): (r: Option<Parsed<Condition>>)
    ensures r.Some? ==> |r.value.rest| < |s| && !StartsWithWs(r.value.rest)
    ensures r.Some? ==> IsName(r.value.value.column)
  {
    var column :- Identifier(s);
    var op :- ParseOperator(column.rest);
    var value :- ParseValue(d, op.rest);
    Some(Parsed(Condition(column.value, op.value, value.value), value.rest))
  }

  /** The keyword that separates conditions. */
  function AndKeyword(s: string): (r: Option<Parsed<string>>)
    ensures r.Some? ==> |r.value.rest| < |s|
  {
    Keyword("AND", s)
  }

  /** parse_conditions: without WHERE there are no conditions and nothing is
      consumed; after WHERE, one or more conditions separated by AND. */
  function ParseConditions(d: Dialect, s: string): (r: Option<Parsed<seq<Condition>>>)
    ensures Keyword("WHERE", s).None? ==> r == Some(Parsed([], s))
    ensures Keyword("WHERE", s).Some? && r.Some? ==> |r.value.value| >= 1
  {
    match Keyword("WHERE", s)
    case None => Some(Parsed([], s))
    case Some(w) =>
      SepList1(AndKeyword, t => ParseCondition(d, t), w.rest)
  }

  /** One or more column names separated by commas. */
  function ColumnList(s: string): (r: Option<Parsed<seq<string>>>)
    ensures r.Some? ==> |r.value.value| >= 1
    ensures Identifier(s).None? ==> r.None?
    ensures r.Some? ==> r.value.value[0] == Identifier(s).value.value
  {
    SepList1(Comma, Identifier, s)
  }

  /** The column part of SELECT: `*` for no columns, or a column list. */
  function SelectColumns(s: string): (r: Option<Parsed<seq<string>>>)
    ensures Symbol("*", s).Some? ==> r == Some(Parsed([], Symbol("*", s).value.rest))
    ensures Symbol("*", s).None? ==> r == ColumnList(s)
  {
    match Symbol("*", s)
    case Some(star) => Some(Parsed([], star.rest))
    case None => ColumnList(s)
  }

  /** `delimited(tag("("), items, tag(")"))`. */
  function Between<T>(items: Parser<seq<T>>, t: string): (r: Option<Parsed<seq<T>>>)
  {
    var open :- Tag("(", t);
    var xs :- items(open.rest);
    var close :- Tag(")", xs.rest);
    Some(Parsed(xs.value, close.rest))
  }

  /** A parenthesised column list, with the whitespace around it. */
  function ColumnsInParens(s: string): (r: Option<Parsed<seq<string>>>)
  {
    Ws(t => Between(ColumnList, t), s)
  }

  /** One or more values separated by commas. */
  function ValueList(d: Dialect, s: string): (r: Option<Parsed<seq<Value>>>)
    ensures r.Some? ==> |r.value.value| >= 1
    ensures ParseValue(d, s).None? ==> r.None?
    ensures r.Some? ==> r.value.value[0] == ParseValue(d, s).value.value
  {
    SepList1(Comma, t => ParseValue(d, t), s)
  }

  /** A parenthesised value list, with the whitespace around it. */
  function ValuesInParens(d: Dialect, s: string): (r: Option<Parsed<seq<Value>>>)
  {
    Ws(t => Between(u => ValueList(d, u), t), s)
  }

  /** `column = value` in the SET clause of UPDATE. */
  function Assignment(d: Dialect, s: string): (r: Option<Parsed<(string, Value)>>)
    ensures r.Some? ==> |r.value.rest| < |s| && IsName(r.value.value.0)
    ensures r.Some? ==> Identifier(s).Some? && r.value.value.0 == Identifier(s).value.value
    ensures r.Some? ==> Symbol("=", Identifier(s).value.rest).Some?
  {
    var column :- Identifier(s);
    var eq :- Symbol("=", column.rest);
    var value :- ParseValue(d, eq.rest);
    Some(Parsed((column.value, value.value), value.rest))
  }

  /** One or more assignments separated by commas. */
  function AssignmentList(d: Dialect, s: string): (r: Option<Parsed<seq<(string, Value)>>>)
    ensures r.Some? ==> |r.value.value| >= 1
    ensures Assignment(d, s).None? ==> r.None?
    ensures r.Some? ==> r.value.value[0] == Assignment(d, s).value.value
  {
    SepList1(Comma, t => Assignment(d, t), s)
  }

  /** A failed step becomes a syntax error with its message and the input it was given. */
  function Expect<T>(r: Option<Parsed<T>>, message: string, at: string): (e: Result<Parsed<T>>)
    ensures r.None? <==> e == Err(QuerySyntaxError(message, at))
    ensures r.Some? ==> e == Ok(r.value)
  {
    match r
    case None => Err(QuerySyntaxError(message, at))
    case Some(p) => Ok(p)
  }

  /** parse_select_query. */
  function ParseSelect(d: Dialect, query: string): (r: Result<DataManipulationQuery>)
  {
    var kw :- Expect(Keyword("SELECT", query), "expected the select keyword", query);
    var columns :- Expect(SelectColumns(kw.rest), "expected the column names or *", kw.rest);
    var from :- Expect(Keyword("FROM", columns.rest), "expected the from keyword", columns.rest);
    var table :- Expect(Identifier(from.rest), "expected the table name", from.rest);
    var conditions :- Expect(ParseConditions(d, table.rest), "an error occurred while parsing where condition", table.rest);
    Ok(DataManipulationQuery.Select(SelectQuery(columns.value, table.value, conditions.value)))
  }

  /** parse_insert. */
  function ParseInsert(d: Dialect, query: string): (r: Result<DataManipulationQuery>)
  {
    var kw :- Expect(Keyword("INSERT INTO", query), "expected the insert into keyword", query);
    var table :- Expect(Identifier(kw.rest), "expected the table name", kw.rest);
    var columns :- Expect(ColumnsInParens(table.rest), "an error occurred while parsing column names", table.rest);
    var values :- Expect(Keyword("VALUES", columns.rest), "expected the values keyword", columns.rest);
    var list :- Expect(ValuesInParens(d, values.rest), "an error occurred while parsing values", values.rest);
    Ok(DataManipulationQuery.Insert(InsertQuery(columns.value, table.value, list.value)))
  }

  /** parse_update. */
  function ParseUpdate(d: Dialect, query: string): (r: Result<DataManipulationQuery>)
  {
    var kw :- Expect(Keyword("UPDATE", query), "an error occurred while parsing update keyword", query);
    var table :- Expect(Identifier(kw.rest), "an error occurred while parsing the table name", kw.rest);
    var setKw :- Expect(Keyword("SET", table.rest), "expected set keyword", table.rest);
    var values :- Expect(AssignmentList(d, setKw.rest), "an error occurred while parsing values", setKw.rest);
    var conditions :- Expect(ParseConditions(d, values.rest), "an error occurred while parsing where condition", values.rest);
    Ok(DataManipulationQuery.Update(UpdateQuery(table.value, values.value, conditions.value)))
  }

  /** The column part of DELETE: FROM at once means no columns; otherwise a
      column list that FROM must follow. */
  function DeleteColumns(s: string): (r: Result<Parsed<seq<string>>>)
  {
    match Keyword("FROM", s)
    case Some(from) => Ok(Parsed([], from.rest))
    case None =>
      var columns :- Expect(ColumnList(s), "an error occurred while parsing the columns", s);
      var from :- Expect(Keyword("FROM", columns.rest), "an error occurred while parsing from keyword", columns.rest);
      Ok(Parsed(columns.value, from.rest))
  }

  /** parse_delete. */
  function ParseDelete(d: Dialect, query: string): (r: Result<DataManipulationQuery>)
  {
    var kw :- Expect(Keyword("DELETE", query), "an error occurred while parsing delete keyword", query);
    var columns :- DeleteColumns(kw.rest);
    var table :- Expect(Identifier(columns.rest), "an error occurred while parsing the table name", columns.rest);
    var conditions :- Expect(ParseConditions(d, table.rest), "an error occurred while parsing where condition", table.rest);
    Ok(DataManipulationQuery.Delete(DeleteQuery(columns.value, table.value, conditions.value)))
  }
}
