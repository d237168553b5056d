/** What the data-manipulation grammar promises: each statement reads back
    from its canonical text, lists keep their source order, comparison
    operators are disambiguated by the order they are tried in, and a
    missing WHERE clause means no conditions. */
module DmlFacts {
  import opened Nom
  import opened NomFacts
  import opened Ast
  import opened Lexer
  import opened LexerFacts
  import opened Dml

  // ----- operators -----

  /** Each operator reads back from its text when a space follows it. */
  lemma OperatorReads(op: Operator, u: string)
    requires StartsWord(u)
    ensures ParseOperator(OperatorText(op) + (" " + u)) == Some(Parsed(op, u))
    ensures StartsWord(OperatorText(op))
  {
    var s := OperatorText(op) + (" " + u);
    OperatorHits(OperatorText(op), op, u);
    match op
    case GreaterOrEquals =>
    case LessOrEquals =>
      OperatorMisses(">=", GreaterOrEquals, s);
    case Greater =>
      OperatorMisses(">=", GreaterOrEquals, s);
      OperatorMisses("<=", LessOrEquals, s);
    case Less =>
      OperatorMisses(">=", GreaterOrEquals, s);
      OperatorMisses("<=", LessOrEquals, s);
      OperatorMisses(">", Greater, s);
    case Equals =>
      OperatorMisses(">=", GreaterOrEquals, s);
      OperatorMisses("<=", LessOrEquals, s);
      OperatorMisses(">", Greater, s);
      OperatorMisses("<", Less, s);
    case NotEquals =>
      OperatorMisses(">=", GreaterOrEquals, s);
      OperatorMisses("<=", LessOrEquals, s);
      OperatorMisses(">", Greater, s);
      OperatorMisses("<", Less, s);
      OperatorMisses("=", Equals, s);
  }

  /** An operator literal followed by a space is read, and so is the space. */
  lemma OperatorHits(lit: string, op: Operator, u: string)
    requires StartsWord(lit) && StartsWord(u)
    ensures OperatorAs(lit, op, lit + (" " + u)) == Some(Parsed(op, u))
  {
    SymbolReads(lit, " " + u);
    SkipLeadingSpace(" ", u);
    SkipNothing(u);
  }

  /** An operator literal is not read where its first or second character differs. */
  lemma OperatorMisses(lit: string, op: Operator, s: string)
    requires StartsWord(lit) && StartsWord(s)
    requires s[0] != lit[0] || (|lit| > 1 && |s| > 1 && s[1] != lit[1])
    ensures OperatorAs(lit, op, s).None?
  {
    SkipNothing(s);
  }

  /** `>=` is never read as `>`, because it is tried first. */
  lemma GreaterOrEqualsFirst(s: string)
    requires ">=" <= Multispace0(s)
    ensures ParseOperator(s).Some? && ParseOperator(s).value.value == GreaterOrEquals
  {
  }

  /** `<=` is never read as `<`, because it is tried first. */
  lemma LessOrEqualsFirst(s: string)
    requires "<=" <= Multispace0(s)
    ensures ParseOperator(s).Some? && ParseOperator(s).value.value == LessOrEquals
  {
    assert Multispace0(s)[0] == '<';
  }

  // ----- conditions -----

  predicate ConditionRenderable(c: Condition) {
    IsName(c.column) && Renderable(c.value)
  }

  predicate AllConditionsRenderable(cs: seq<Condition>) {
    forall i :: 0 <= i < |cs| ==> ConditionRenderable(cs[i])
  }

  /** `column op value`, one space on each side of the operator. */
  function ConditionText(c: Condition): string
    requires ConditionRenderable(c)
  {
    c.column + (" " + (OperatorText(c.operator) + (" " + RenderValue(c.value))))
  }

  lemma ConditionReads(d: Dialect, c: Condition, f: string)
    requires ConditionRenderable(c) && AtBoundary(f)
    ensures ParseCondition(d, ConditionText(c) + f) == Some(Parsed(c, Multispace0(f)))
  {
    ValueReadsAt(d, c.value, f);
    OperatorReads(c.operator, RenderValue(c.value) + f);
    ConditionTextThen(c, f);
    ConditionFromParts(d, c.column, OperatorText(c.operator), c.operator, RenderValue(c.value), c.value, f);
  }

  lemma ConditionTextThen(c: Condition, f: string)
    requires ConditionRenderable(c)
    ensures ConditionText(c) + f == c.column + (" " + (OperatorText(c.operator) + (" " + (RenderValue(c.value) + f))))
  {
  }

  /** A value with a text reads back from it, and is a word. */
  lemma ValueReadsAt(d: Dialect, x: Value, f: string)
    requires Renderable(x) && AtBoundary(f)
    ensures ParseValue(d, RenderValue(x) + f) == Some(Parsed(x, Multispace0(f)))
    ensures StartsWord(RenderValue(x) + f)
  {
    ValueParsesAs(d, x);
    UseParsesAs(t => ParseValue(d, t), RenderValue(x), x, f);
  }

  /** parse_condition over a column, a space, an operator text, a space and
      a value text, given what the operator and value parsers read there. */
  lemma ConditionFromParts(d: Dialect, column: string, ot: string, op: Operator, vt: string, x: Value, f: string)
    requires IsName(column) && StartsWord(ot)
    requires ParseOperator(ot + (" " + (vt + f))) == Some(Parsed(op, vt + f))
    requires ParseValue(d, vt + f) == Some(Parsed(x, Multispace0(f)))
    ensures ParseCondition(d, column + (" " + (ot + (" " + (vt + f))))) == Some(Parsed(Condition(column, op, x), Multispace0(f)))
  {
    var o := ot + (" " + (vt + f));
    NameThenSpace(column, o);
  }

  /** A name and a space before a word: the identifier is read, and the space. */
  lemma NameThenSpace(n: string, o: string)
    requires IsName(n) && StartsWord(o)
    ensures Identifier(n + (" " + o)) == Some(Parsed(n, o))
  {
    IdentifierReads(n, " " + o);
    SkipLeadingSpace(" ", o);
    SkipNothing(o);
  }

  /** Every condition reads back from its text, whatever boundary follows. */
  lemma ConditionParsesAs(d: Dialect, c: Condition)
    requires ConditionRenderable(c)
    ensures ParsesAs(t => ParseCondition(d, t), ConditionText(c), c) && StartsWord(ConditionText(c))
  {
    forall f | AtBoundary(f)
      ensures ParseCondition(d, ConditionText(c) + f) == Some(Parsed(c, Multispace0(f)))
    {
      ConditionReads(d, c, f);
    }
  }

  function ConditionTexts(cs: seq<Condition>): (ts: seq<string>)
    requires AllConditionsRenderable(cs)
    ensures |ts| == |cs|
  {
    seq(|cs|, i requires 0 <= i < |cs| => ConditionText(cs[i]))
  }

  lemma ConditionsParseAs(d: Dialect, cs: seq<Condition>)
    requires AllConditionsRenderable(cs)
    ensures ElementsRead(t => ParseCondition(d, t), ConditionTexts(cs), cs)
  {
    var ts := ConditionTexts(cs);
    forall i | 0 <= i < |cs|
      ensures ParsesAs(t => ParseCondition(d, t), ts[i], cs[i]) && StartsWord(ts[i])
    {
      ConditionParsesAs(d, cs[i]);
    }
  }

  /** The separator text `" AND "` is read by the AND keyword. */
  lemma AndSeparates()
    ensures ReadsSeparator(AndKeyword, " AND ")
  {
    assert Multispace0(" AND ") == "AND ";
    forall u | StartsWord(u)
      ensures SeparatorGives(AndKeyword, Multispace0(" AND ") + u, u)
    {
      KeywordReads("AND", " " + u);
      assert "AND " + u == "AND" + (" " + u);
      SkipLeadingSpace(" ", u);
      SkipNothing(u);
    }
  }

  /** Nothing for no conditions, otherwise ` WHERE c1 AND c2 ...`. */
  function WhereText(cs: seq<Condition>): string
    requires AllConditionsRenderable(cs)
  {
    if cs == [] then "" else " " + ("WHERE" + (" " + Join(ConditionTexts(cs), " AND ")))
  }

  /** The WHERE clause reads back its conditions, in source order. */
  lemma WhereReads(d: Dialect, cs: seq<Condition>)
    requires AllConditionsRenderable(cs)
    ensures ParseConditions(d, Multispace0(WhereText(cs))) == Some(Parsed(cs, ""))
  {
    if cs != [] {
      ConditionsParseAs(d, cs);
      ConditionListReads(d, ConditionTexts(cs), cs);
    }
  }

  lemma ConditionListReads(d: Dialect, ts: seq<string>, cs: seq<Condition>)
    requires ElementsRead(t => ParseCondition(d, t), ts, cs) && |ts| >= 1
    ensures ParseConditions(d, Multispace0(" " + ("WHERE" + (" " + Join(ts, " AND "))))) == Some(Parsed(cs, ""))
  {
    ConditionsJoined(d, ts, cs);
    WhereThen(d, Join(ts, " AND "), cs);
  }

  /** WHERE, then conditions that the AND-separated list reads whole. */
  lemma WhereThen(d: Dialect, j: string, cs: seq<Condition>)
    requires StartsWord(j) && SepList1(AndKeyword, t => ParseCondition(d, t), j) == Some(Parsed(cs, ""))
    ensures ParseConditions(d, Multispace0(" " + ("WHERE" + (" " + j)))) == Some(Parsed(cs, ""))
  {
    SpaceThenWord("WHERE" + (" " + j));
    KeywordThenSpace("WHERE", j);
  }

  /** Conditions separated by ` AND ` read back in order. */
  lemma ConditionsJoined(d: Dialect, ts: seq<string>, cs: seq<Condition>)
    requires ElementsRead(t => ParseCondition(d, t), ts, cs) && |ts| >= 1
    ensures SepList1(AndKeyword, t => ParseCondition(d, t), Join(ts, " AND ")) == Some(Parsed(cs, ""))
    ensures StartsWord(Join(ts, " AND "))
  {
    var j := Join(ts, " AND ");
    ElementsReadTail(t => ParseCondition(d, t), ts, cs);
    assert j == ts[0] + Interleave(ts[1..], " AND ");
    WordThen(ts[0], Interleave(ts[1..], " AND "));
    AndSeparates();
    SepList1Reads(AndKeyword, t => ParseCondition(d, t), ts, cs, " AND ", "");
    assert j + "" == j;
  }

  // ----- column lists -----

  predicate AllNames(ns: seq<string>) {
    forall i :: 0 <= i < |ns| ==> IsName(ns[i])
  }

  /** A keyword and a space before a word: both are read. */
  lemma KeywordThenSpace(kw: string, u: string)
    requires StartsWord(kw) && StartsWord(u)
    ensures Keyword(kw, kw + (" " + u)) == Some(Parsed(kw, u))
  {
    KeywordReads(kw, " " + u);
    SkipLeadingSpace(" ", u);
    SkipNothing(u);
  }

  /** A comma-separated list of names reads back in order, up to a text
      that does not go on with a comma. */
  lemma ColumnListReads(cols: seq<string>, rest: string)
    requires AllNames(cols) && |cols| >= 1
    requires AtBoundary(rest) && Comma(Multispace0(rest)).None?
    ensures ColumnList(Join(cols, ", ") + rest) == Some(Parsed(cols, Multispace0(rest)))
  {
    NamesParseAs(cols);
    CommaSeparates();
    SepList1Reads(Comma, Identifier, cols, cols, ", ", rest);
  }

  /** `*` for no columns, otherwise the names separated by `, `. */
  function SelectColumnsText(cols: seq<string>): string
    requires AllNames(cols)
  {
    if cols == [] then "*" else Join(cols, ", ")
  }

  /** `SELECT *` reads as no columns; a list reads as its names, in order. */
  lemma SelectColumnsReads(cols: seq<string>, u: string)
    requires AllNames(cols) && StartsWord(u) && u[0] != ','
    ensures SelectColumns(SelectColumnsText(cols) + (" " + u)) == Some(Parsed(cols, u))
    ensures StartsWord(SelectColumnsText(cols))
  {
    if cols == [] {
      StarReads(u);
    } else {
      ListedColumnsRead(cols, u);
    }
  }

  lemma StarReads(u: string)
    requires StartsWord(u)
    ensures SelectColumns("*" + (" " + u)) == Some(Parsed([], u))
  {
    SymbolReads("*", " " + u);
    SkipLeadingSpace(" ", u);
    SkipNothing(u);
  }

  lemma ListedColumnsRead(cols: seq<string>, u: string)
    requires AllNames(cols) && |cols| >= 1 && StartsWord(u) && u[0] != ','
    ensures SelectColumns(Join(cols, ", ") + (" " + u)) == Some(Parsed(cols, u))
    ensures StartsWord(Join(cols, ", "))
  {
    NotStar(cols, " " + u);
    SpaceThenWord(u);
    ColumnListReads(cols, " " + u);
  }

  /** A column list is not the star. */
  lemma NotStar(cols: seq<string>, g: string)
    requires AllNames(cols) && |cols| >= 1
    ensures Symbol("*", Join(cols, ", ") + g).None?
    ensures StartsWord(Join(cols, ", "))
  {
    var n := cols[0];
    assert IsName(n);
    var j := Join(cols, ", ");
    var tail := Interleave(cols[1..], ", ");
    assert j == n + tail;
    WordThen(n, tail);
    WordThen(j, g);
    NameIsNotStar(j + g);
  }

  /** A text starts with the first character of its non-empty first part. */
  lemma WordThen(a: string, b: string)
    requires |a| > 0
    ensures (a + b)[0] == a[0] && |a + b| > 0
  {
  }

  lemma NameIsNotStar(s: string)
    requires |s| > 0 && IsIdentChar(s[0])
    ensures Symbol("*", s).None? && StartsWord(s)
  {
    SkipNothing(s);
    SymbolMismatch("*", s);
  }

  /** One space before a word is skipped. */
  lemma SpaceThenWord(u: string)
    requires StartsWord(u)
    ensures Multispace0(" " + u) == u
  {
    SkipLeadingSpace(" ", u);
    SkipNothing(u);
  }

  // ----- SELECT -----

  predicate SelectRenderable(q: SelectQuery) {
    AllNames(q.columns) && IsName(q.table) && AllConditionsRenderable(q.conditions)
  }

  /** `SELECT columns FROM table` and the WHERE clause, single spaces between words. */
  function SelectText(q: SelectQuery): string
    requires SelectRenderable(q)
  {
    "SELECT" + (" " + (SelectColumnsText(q.columns) + (" " + ("FROM" + (" " + (q.table + WhereText(q.conditions)))))))
  }

  /** Every SELECT statement reads back from its text. */
  lemma SelectRoundTrip(d: Dialect, q: SelectQuery)
    requires SelectRenderable(q)
    ensures ParseSelect(d, SelectText(q)) == Ok(DataManipulationQuery.Select(q))
  {
    WhereTextBoundary(q.conditions);
    WhereReads(d, q.conditions);
    SelectWithWhere(d, q.columns, q.table, WhereText(q.conditions), q.conditions, "");
  }

  /** SELECT over any text after the table name that parse_conditions reads. */
  lemma SelectWithWhere(d: Dialect, cols: seq<string>, table: string, wt: string, cs: seq<Condition>, wr: string)
    requires AllNames(cols) && IsName(table) && (wt == [] || IsWs(wt[0]))
    requires ParseConditions(d, Multispace0(wt)) == Some(Parsed(cs, wr))
    ensures ParseSelect(d, "SELECT" + (" " + (SelectColumnsText(cols) + (" " + ("FROM" + (" " + (table + wt))))))) ==
            Ok(DataManipulationQuery.Select(SelectQuery(cols, table, cs)))
  {
    SelectAfterColumns(d, cols, table + wt, table, wt, cs, wr);
  }

  /** The same, with the text after FROM named `t`. */
  lemma SelectAfterColumns(d: Dialect, cols: seq<string>, t: string, table: string, wt: string, cs: seq<Condition>, wr: string)
    requires AllNames(cols) && IsName(table) && (wt == [] || IsWs(wt[0]))
    requires t == table + wt
    requires ParseConditions(d, Multispace0(wt)) == Some(Parsed(cs, wr))
    ensures ParseSelect(d, "SELECT" + (" " + (SelectColumnsText(cols) + (" " + ("FROM" + (" " + t)))))) ==
            Ok(DataManipulationQuery.Select(SelectQuery(cols, table, cs)))
  {
    var r := SelectColumnsText(cols) + (" " + ("FROM" + (" " + t)));
    TableThen(table, wt, t);
    FromThen(t, "FROM" + (" " + t));
    SelectHead(cols, t);
    SelectOf(d, "SELECT" + (" " + r), r, cols, "FROM" + (" " + t), t, table, Multispace0(wt), cs, wr);
  }

  /** A table name is read where it stands, up to the text after it. */
  lemma TableThen(table: string, wt: string, t: string)
    requires IsName(table) && (wt == [] || IsWs(wt[0])) && t == table + wt
    ensures StartsWord(t) && Identifier(t) == Some(Parsed(table, Multispace0(wt)))
  {
    NameStartsWord(table, wt, t);
    IdentifierReads(table, wt);
  }

  /** FROM is read where it stands. */
  lemma FromThen(t: string, f: string)
    requires StartsWord(t) && f == "FROM" + (" " + t)
    ensures StartsWord(f) && f[0] != ','
    ensures Keyword("FROM", f) == Some(Parsed("FROM", t))
  {
    KeywordThenSpace("FROM", t);
  }

  /** SELECT and the column part are read where they stand. */
  lemma SelectHead(cols: seq<string>, t: string)
    requires AllNames(cols) && StartsWord(t)
    ensures var f := "FROM" + (" " + t);
            var r := SelectColumnsText(cols) + (" " + f);
            SelectColumns(r) == Some(Parsed(cols, f)) && Keyword("SELECT", "SELECT" + (" " + r)) == Some(Parsed("SELECT", r))
  {
    var f := "FROM" + (" " + t);
    var r := SelectColumnsText(cols) + (" " + f);
    FromThen(t, f);
    SelectColumnsReads(cols, f);
    KeywordThenSpace("SELECT", r);
  }

  /** parse_select_query from the results of its steps. */
  lemma SelectOf(d: Dialect, query: string, r: string, cols: seq<string>, f: string, t: string,
                 table: string, w: string, cs: seq<Condition>, wr: string)
    requires Keyword("SELECT", query) == Some(Parsed("SELECT", r))
    requires SelectColumns(r) == Some(Parsed(cols, f))
    requires Keyword("FROM", f) == Some(Parsed("FROM", t))
    requires Identifier(t) == Some(Parsed(table, w))
    requires ParseConditions(d, w) == Some(Parsed(cs, wr))
    ensures ParseSelect(d, query) == Ok(DataManipulationQuery.Select(SelectQuery(cols, table, cs)))
  {
  }

  // ----- INSERT -----

  predicate AllRenderable(vs: seq<Value>) {
    forall i :: 0 <= i < |vs| ==> Renderable(vs[i])
  }

  function ValueTexts(vs: seq<Value>): (ts: seq<string>)
    requires AllRenderable(vs)
    ensures |ts| == |vs|
  {
    seq(|vs|, i requires 0 <= i < |vs| => RenderValue(vs[i]))
  }

  lemma ValuesParseAs(d: Dialect, vs: seq<Value>)
    requires AllRenderable(vs)
    ensures ElementsRead(t => ParseValue(d, t), ValueTexts(vs), vs)
  {
    var ts := ValueTexts(vs);
    forall i | 0 <= i < |vs|
      ensures ParsesAs(t => ParseValue(d, t), ts[i], vs[i]) && StartsWord(ts[i])
    {
      ValueParsesAs(d, vs[i]);
    }
  }

  /** A comma-separated list of values reads back in order, up to a text
      that does not go on with a comma. */
  lemma ValueListReads(d: Dialect, vs: seq<Value>, rest: string)
    requires AllRenderable(vs) && |vs| >= 1
    requires AtBoundary(rest) && Comma(Multispace0(rest)).None?
    ensures ValueList(d, Join(ValueTexts(vs), ", ") + rest) == Some(Parsed(vs, Multispace0(rest)))
  {
    ValuesParseAs(d, vs);
    CommaSeparates();
    SepList1Reads(Comma, t => ParseValue(d, t), ValueTexts(vs), vs, ", ", rest);
  }

  /** A closing parenthesis ends a comma-separated list. */
  lemma ParenCloses(r: string)
    requires |r| > 0 && r[0] == ')'
    ensures AtBoundary(r) && Multispace0(r) == r && Comma(r).None?
  {
    SkipNothing(r);
  }

  /** `delimited(tag("("), items, tag(")"))` over a parenthesised text. */
  lemma BetweenReads<T>(items: Parser<seq<T>>, j: string, xs: seq<T>, g: string)
    requires items(j + (")" + g)) == Some(Parsed(xs, ")" + g))
    ensures Between(items, "(" + (j + (")" + g))) == Some(Parsed(xs, g))
  {
    assert ("(" + (j + (")" + g)))[1..] == j + (")" + g);
    assert (")" + g)[1..] == g;
  }

  lemma ColumnsInParensReads(cols: seq<string>, g: string)
    requires AllNames(cols) && |cols| >= 1
    ensures ColumnsInParens("(" + (Join(cols, ", ") + (")" + g))) == Some(Parsed(cols, Multispace0(g)))
  {
    ColumnsBetween(cols, g);
    WsOnWord(t => Between(ColumnList, t), "(" + (Join(cols, ", ") + (")" + g)));
  }

  lemma ColumnsBetween(cols: seq<string>, g: string)
    requires AllNames(cols) && |cols| >= 1
    ensures Between(ColumnList, "(" + (Join(cols, ", ") + (")" + g))) == Some(Parsed(cols, g))
  {
    ParenCloses(")" + g);
    ColumnListReads(cols, ")" + g);
    BetweenReads(ColumnList, Join(cols, ", "), cols, g);
  }

  lemma ValuesInParensReads(d: Dialect, vs: seq<Value>, g: string)
    requires AllRenderable(vs) && |vs| >= 1
    ensures ValuesInParens(d, "(" + (Join(ValueTexts(vs), ", ") + (")" + g))) == Some(Parsed(vs, Multispace0(g)))
  {
    ValuesBetween(d, vs, g);
    WsOnWord(t => Between(u => ValueList(d, u), t), "(" + (Join(ValueTexts(vs), ", ") + (")" + g)));
  }

  lemma ValuesBetween(d: Dialect, vs: seq<Value>, g: string)
    requires AllRenderable(vs) && |vs| >= 1
    ensures Between(u => ValueList(d, u), "(" + (Join(ValueTexts(vs), ", ") + (")" + g))) == Some(Parsed(vs, g))
  {
    ParenCloses(")" + g);
    ValueListReads(d, vs, ")" + g);
    BetweenReads(u => ValueList(d, u), Join(ValueTexts(vs), ", "), vs, g);
  }

  predicate InsertRenderable(q: InsertQuery) {
    IsName(q.table) && AllNames(q.columns) && |q.columns| >= 1 && AllRenderable(q.values) && |q.values| >= 1
  }

  /** `INSERT INTO table (c1, c2) VALUES (v1, v2)`. */
  function InsertText(q: InsertQuery): string
    requires InsertRenderable(q)
  {
    "INSERT INTO" + (" " + (q.table + (" " + ("(" + (Join(q.columns, ", ") + (")" + (" " + ("VALUES" + (" " +
      ("(" + (Join(ValueTexts(q.values), ", ") + ")")))))))))))
  }

  /** Every INSERT statement reads back from its text, whatever text
      follows it: nothing after the closing parenthesis is looked at. The
      numbers of columns and values need not agree. */
  lemma InsertRoundTrip(d: Dialect, q: InsertQuery, f: string)
    requires InsertRenderable(q)
    ensures ParseInsert(d, InsertText(q) + f) == Ok(DataManipulationQuery.Insert(q))
  {
    var jv := Join(ValueTexts(q.values), ", ");
    var r4 := "(" + (jv + (")" + f));
    var r3 := "VALUES" + (" " + r4);
    var jc := Join(q.columns, ", ");
    var r2 := "(" + (jc + (")" + (" " + r3)));
    var r1 := q.table + (" " + r2);
    InsertTextThen(q, f, jc, jv);
    InsertTableSteps(r1, q.table, r2);
    ValuesSteps(r3, r4);
    ColumnsInParensReads(q.columns, " " + r3);
    SpaceThenWord(r3);
    ValuesInParensReads(d, q.values, f);
    InsertOf(d, InsertText(q) + f, r1, q.table, r2, q.columns, r3, r4, q.values, Multispace0(f));
  }

  lemma InsertTextThen(q: InsertQuery, f: string, jc: string, jv: string)
    requires InsertRenderable(q) && jc == Join(q.columns, ", ") && jv == Join(ValueTexts(q.values), ", ")
    ensures InsertText(q) + f == "INSERT INTO" + (" " + (q.table + (" " + ("(" + (jc + (")" + (" " + ("VALUES" + (" " +
              ("(" + (jv + (")" + f))))))))))))
  {
  }

  /** VALUES is read where it stands. */
  lemma ValuesSteps(r3: string, r4: string)
    requires r3 == "VALUES" + (" " + r4) && |r4| > 0 && r4[0] == '('
    ensures Keyword("VALUES", r3) == Some(Parsed("VALUES", r4))
    ensures StartsWord(r3)
  {
    NameStartsWord("VALUES", " " + r4, r3);
    KeywordThenSpace("VALUES", r4);
  }

  /** INSERT INTO and the table name are read where they stand. */
  lemma InsertTableSteps(r1: string, table: string, r2: string)
    requires IsName(table) && r1 == table + (" " + r2) && |r2| > 0 && r2[0] == '('
    ensures Keyword("INSERT INTO", "INSERT INTO" + (" " + r1)) == Some(Parsed("INSERT INTO", r1))
    ensures Identifier(r1) == Some(Parsed(table, r2))
  {
    NameStartsWord(table, " " + r2, r1);
    KeywordThenSpace("INSERT INTO", r1);
    NameThenSpace(table, r2);
  }

  /** parse_insert from the results of its steps. */
  lemma InsertOf(d: Dialect, query: string, r1: string, table: string, r2: string, cols: seq<string>,
                 r3: string, r4: string, vs: seq<Value>, rest: string)
    requires Keyword("INSERT INTO", query) == Some(Parsed("INSERT INTO", r1))
    requires Identifier(r1) == Some(Parsed(table, r2))
    requires ColumnsInParens(r2) == Some(Parsed(cols, r3))
    requires Keyword("VALUES", r3) == Some(Parsed("VALUES", r4))
    requires ValuesInParens(d, r4) == Some(Parsed(vs, rest))
    ensures ParseInsert(d, query) == Ok(DataManipulationQuery.Insert(InsertQuery(cols, table, vs)))
  {
  }

  // ----- UPDATE -----

  predicate AssignmentRenderable(a: (string, Value)) {
    IsName(a.0) && Renderable(a.1)
  }

  predicate AllAssignmentsRenderable(as_: seq<(string, Value)>) {
    forall i :: 0 <= i < |as_| ==> AssignmentRenderable(as_[i])
  }

  /** `column = value`. */
  function AssignmentText(a: (string, Value)): string
    requires AssignmentRenderable(a)
  {
    a.0 + (" " + ("=" + (" " + RenderValue(a.1))))
  }

  lemma AssignmentReads(d: Dialect, a: (string, Value), f: string)
    requires AssignmentRenderable(a) && AtBoundary(f)
    ensures Assignment(d, AssignmentText(a) + f) == Some(Parsed(a, Multispace0(f)))
  {
    ValueReadsAt(d, a.1, f);
    AssignmentTextThen(a, f);
    AssignmentFromParts(d, a.0, RenderValue(a.1), a.1, f);
  }

  lemma AssignmentTextThen(a: (string, Value), f: string)
    requires AssignmentRenderable(a)
    ensures AssignmentText(a) + f == a.0 + (" " + ("=" + (" " + (RenderValue(a.1) + f))))
  {
  }

  /** An exact literal and a space before a word: both are read. */
  lemma SymbolThenSpace(lit: string, u: string)
    requires StartsWord(lit) && StartsWord(u)
    ensures Symbol(lit, lit + (" " + u)) == Some(Parsed(lit, u))
  {
    SymbolReads(lit, " " + u);
    SpaceThenWord(u);
  }

  lemma AssignmentFromParts(d: Dialect, column: string, vt: string, x: Value, f: string)
    requires IsName(column) && StartsWord(vt + f)
    requires ParseValue(d, vt + f) == Some(Parsed(x, Multispace0(f)))
    ensures Assignment(d, column + (" " + ("=" + (" " + (vt + f))))) == Some(Parsed((column, x), Multispace0(f)))
  {
    var e := "=" + (" " + (vt + f));
    NameThenSpace(column, e);
    SymbolThenSpace("=", vt + f);
    AssignmentOf(d, column + (" " + e), column, e, vt + f, x, Multispace0(f));
  }

  /** The `column = value` parser from the results of its three steps. */
  lemma AssignmentOf(d: Dialect, s: string, column: string, e: string, v: string, x: Value, r: string)
    requires Identifier(s) == Some(Parsed(column, e))
    requires Symbol("=", e) == Some(Parsed("=", v))
    requires ParseValue(d, v) == Some(Parsed(x, r))
    ensures Assignment(d, s) == Some(Parsed((column, x), r))
  {
  }

  lemma AssignmentParsesAs(d: Dialect, a: (string, Value))
    requires AssignmentRenderable(a)
    ensures ParsesAs(t => Assignment(d, t), AssignmentText(a), a) && StartsWord(AssignmentText(a))
  {
    forall f | AtBoundary(f)
      ensures Assignment(d, AssignmentText(a) + f) == Some(Parsed(a, Multispace0(f)))
    {
      AssignmentReads(d, a, f);
    }
  }

  function AssignmentTexts(as_: seq<(string, Value)>): (ts: seq<string>)
    requires AllAssignmentsRenderable(as_)
    ensures |ts| == |as_|
  {
    seq(|as_|, i requires 0 <= i < |as_| => AssignmentText(as_[i]))
  }

  lemma AssignmentsParseAs(d: Dialect, as_: seq<(string, Value)>)
    requires AllAssignmentsRenderable(as_)
    ensures ElementsRead(t => Assignment(d, t), AssignmentTexts(as_), as_)
  {
    var ts := AssignmentTexts(as_);
    forall i | 0 <= i < |as_|
      ensures ParsesAs(t => Assignment(d, t), ts[i], as_[i]) && StartsWord(ts[i])
    {
      AssignmentParsesAs(d, as_[i]);
    }
  }

  /** The SET clause reads back its pairs, in source order. */
  lemma AssignmentListReads(d: Dialect, as_: seq<(string, Value)>, rest: string)
    requires AllAssignmentsRenderable(as_) && |as_| >= 1
    requires AtBoundary(rest) && Comma(Multispace0(rest)).None?
    ensures AssignmentList(d, Join(AssignmentTexts(as_), ", ") + rest) == Some(Parsed(as_, Multispace0(rest)))
    ensures StartsWord(Join(AssignmentTexts(as_), ", "))
  {
    var ts := AssignmentTexts(as_);
    AssignmentsParseAs(d, as_);
    CommaSeparates();
    SepList1Reads(Comma, t => Assignment(d, t), ts, as_, ", ", rest);
    assert Join(ts, ", ") == ts[0] + Interleave(ts[1..], ", ");
    WordThen(ts[0], Interleave(ts[1..], ", "));
  }

  /** What follows the last list item of UPDATE, SELECT or DELETE: nothing,
      or a WHERE clause. */
  lemma WhereTextBoundary(cs: seq<Condition>)
    requires AllConditionsRenderable(cs)
    ensures var wt := WhereText(cs); AtBoundary(wt) && (wt == [] || IsWs(wt[0])) && Comma(Multispace0(wt)).None?
  {
    if cs != [] {
      SpaceThenWord("WHERE" + (" " + Join(ConditionTexts(cs), " AND ")));
    }
  }

  predicate UpdateRenderable(q: UpdateQuery) {
    IsName(q.table) && AllAssignmentsRenderable(q.values) && |q.values| >= 1 && AllConditionsRenderable(q.conditions)
  }

  /** `UPDATE table SET c1 = v1, c2 = v2` and the WHERE clause. */
  function UpdateText(q: UpdateQuery): string
    requires UpdateRenderable(q)
  {
    "UPDATE" + (" " + (q.table + (" " + ("SET" + (" " + (Join(AssignmentTexts(q.values), ", ") + WhereText(q.conditions)))))))
  }

  /** Every UPDATE statement reads back from its text. */
  lemma UpdateRoundTrip(d: Dialect, q: UpdateQuery)
    requires UpdateRenderable(q)
    ensures ParseUpdate(d, UpdateText(q)) == Ok(DataManipulationQuery.Update(q))
  {
    WhereTextBoundary(q.conditions);
    WhereReads(d, q.conditions);
    UpdateWithWhere(d, q.table, q.values, WhereText(q.conditions), q.conditions, "");
  }

  /** UPDATE over any text after the last pair that does not go on with a
      comma and that parse_conditions reads. */
  lemma UpdateWithWhere(d: Dialect, table: string, as_: seq<(string, Value)>, wt: string, cs: seq<Condition>, wr: string)
    requires IsName(table) && AllAssignmentsRenderable(as_) && |as_| >= 1
    requires AtBoundary(wt) && Comma(Multispace0(wt)).None?
    requires ParseConditions(d, Multispace0(wt)) == Some(Parsed(cs, wr))
    ensures ParseUpdate(d, "UPDATE" + (" " + (table + (" " + ("SET" + (" " + (Join(AssignmentTexts(as_), ", ") + wt))))))) ==
            Ok(DataManipulationQuery.Update(UpdateQuery(table, as_, cs)))
  {
    var ja := Join(AssignmentTexts(as_), ", ");
    var r3 := ja + wt;
    var r2 := "SET" + (" " + r3);
    var r1 := table + (" " + r2);
    AssignmentListReads(d, as_, wt);
    UpdateSteps(r1, table, r2, r3, ja, wt);
    UpdateOf(d, "UPDATE" + (" " + r1), r1, table, r2, r3, as_, Multispace0(wt), cs, wr);
  }

  /** The keywords and the table name of an UPDATE text are read where they stand. */
  lemma UpdateSteps(r1: string, table: string, r2: string, r3: string, ja: string, wt: string)
    requires IsName(table) && r1 == table + (" " + r2) && r2 == "SET" + (" " + r3)
    requires StartsWord(ja) && r3 == ja + wt
    ensures Keyword("UPDATE", "UPDATE" + (" " + r1)) == Some(Parsed("UPDATE", r1))
    ensures Identifier(r1) == Some(Parsed(table, r2))
    ensures Keyword("SET", r2) == Some(Parsed("SET", r3))
  {
    assert r1[0] == table[0];
    WordThen(ja, wt);
    KeywordThenSpace("UPDATE", r1);
    NameThenSpace(table, r2);
    KeywordThenSpace("SET", r3);
  }

  /** parse_update from the results of its steps. */
  lemma UpdateOf(d: Dialect, query: string, r1: string, table: string, r2: string, r3: string,
                 as_: seq<(string, Value)>, w: string, cs: seq<Condition>, wr: string)
    requires Keyword("UPDATE", query) == Some(Parsed("UPDATE", r1))
    requires Identifier(r1) == Some(Parsed(table, r2))
    requires Keyword("SET", r2) == Some(Parsed("SET", r3))
    requires AssignmentList(d, r3) == Some(Parsed(as_, w))
    requires ParseConditions(d, w) == Some(Parsed(cs, wr))
    ensures ParseUpdate(d, query) == Ok(DataManipulationQuery.Update(UpdateQuery(table, as_, cs)))
  {
  }

  // ----- DELETE -----

  /** A name whose first four letters spell FROM in some letter case. The
      FROM keyword is matched without looking at what follows it, so such a
      name at the head of a DELETE column list is read as the keyword. */
  predicate StartsLikeFrom(n: string) {
    |n| >= 4 && EqualsNoCase(n[..4], "FROM")
  }

  predicate DeleteRenderable(q: DeleteQuery) {
    AllNames(q.columns) && (q.columns != [] ==> !StartsLikeFrom(q.columns[0]))
    && IsName(q.table) && AllConditionsRenderable(q.conditions)
  }

  /** The column list, if any, and a space, before `rest`. */
  function ColumnsBefore(cols: seq<string>, rest: string): string {
    if cols == [] then rest else Join(cols, ", ") + (" " + rest)
  }

  /** `DELETE [c1, c2 ]FROM table` and the WHERE clause. */
  function DeleteText(q: DeleteQuery): string
    requires DeleteRenderable(q)
  {
    "DELETE" + (" " + ColumnsBefore(q.columns, "FROM" + (" " + (q.table + WhereText(q.conditions)))))
  }

  /** Every DELETE statement whose first column does not begin like FROM
      reads back from its text. */
  lemma DeleteRoundTrip(d: Dialect, q: DeleteQuery)
    requires DeleteRenderable(q)
    ensures ParseDelete(d, DeleteText(q)) == Ok(DataManipulationQuery.Delete(q))
  {
    WhereTextBoundary(q.conditions);
    WhereReads(d, q.conditions);
    DeleteWithWhere(d, q.columns, q.table, WhereText(q.conditions), q.conditions, "");
  }

  /** DELETE over any text after the table name that parse_conditions reads whole. */
  lemma DeleteWithWhere(d: Dialect, cols: seq<string>, table: string, wt: string, cs: seq<Condition>, wr: string)
    requires AllNames(cols) && (cols != [] ==> !StartsLikeFrom(cols[0])) && IsName(table)
    requires wt == [] || IsWs(wt[0])
    requires ParseConditions(d, Multispace0(wt)) == Some(Parsed(cs, wr))
    ensures ParseDelete(d, "DELETE" + (" " + ColumnsBefore(cols, "FROM" + (" " + (table + wt))))) ==
            Ok(DataManipulationQuery.Delete(DeleteQuery(cols, table, cs)))
  {
    DeleteAfterColumns(d, cols, table + wt, table, wt, cs, wr);
  }

  /** The same, with the text after FROM named `t`. */
  lemma DeleteAfterColumns(d: Dialect, cols: seq<string>, t: string, table: string, wt: string, cs: seq<Condition>, wr: string)
    requires AllNames(cols) && (cols != [] ==> !StartsLikeFrom(cols[0])) && IsName(table)
    requires wt == [] || IsWs(wt[0])
    requires t == table + wt
    requires ParseConditions(d, Multispace0(wt)) == Some(Parsed(cs, wr))
    ensures ParseDelete(d, "DELETE" + (" " + ColumnsBefore(cols, "FROM" + (" " + t)))) ==
            Ok(DataManipulationQuery.Delete(DeleteQuery(cols, table, cs)))
  {
    NameStartsWord(table, wt, t);
    DeleteColumnsReads(cols, t);
    DeleteFromParts(d, ColumnsBefore(cols, "FROM" + (" " + t)), cols, table, wt, cs, wr);
  }

  lemma NameStartsWord(n: string, g: string, t: string)
    requires IsName(n) && t == n + g
    ensures StartsWord(t)
  {
    WordThen(n, g);
  }

  lemma DeleteFromParts(d: Dialect, r1: string, cols: seq<string>, table: string, wt: string, cs: seq<Condition>, wr: string)
    requires StartsWord(r1) && IsName(table) && (wt == [] || IsWs(wt[0]))
    requires DeleteColumns(r1) == Ok(Parsed(cols, table + wt))
    requires ParseConditions(d, Multispace0(wt)) == Some(Parsed(cs, wr))
    ensures ParseDelete(d, "DELETE" + (" " + r1)) == Ok(DataManipulationQuery.Delete(DeleteQuery(cols, table, cs)))
  {
    DeleteSteps(r1, table, wt);
    DeleteOf(d, "DELETE" + (" " + r1), r1, cols, table + wt, table, Multispace0(wt), cs, wr);
  }

  /** The keyword and the table name of a DELETE text are read where they stand. */
  lemma DeleteSteps(r1: string, table: string, wt: string)
    requires StartsWord(r1) && IsName(table) && (wt == [] || IsWs(wt[0]))
    ensures Keyword("DELETE", "DELETE" + (" " + r1)) == Some(Parsed("DELETE", r1))
    ensures Identifier(table + wt) == Some(Parsed(table, Multispace0(wt)))
  {
    KeywordThenSpace("DELETE", r1);
    IdentifierReads(table, wt);
  }

  /** The column part of DELETE reads back, up to and including FROM. */
  lemma DeleteColumnsReads(cols: seq<string>, t: string)
    requires AllNames(cols) && (cols != [] ==> !StartsLikeFrom(cols[0])) && StartsWord(t)
    ensures DeleteColumns(ColumnsBefore(cols, "FROM" + (" " + t))) == Ok(Parsed(cols, t))
    ensures StartsWord(ColumnsBefore(cols, "FROM" + (" " + t)))
  {
    var rest := "FROM" + (" " + t);
    KeywordThenSpace("FROM", t);
    if cols != [] {
      var s := Join(cols, ", ") + (" " + rest);
      NotFrom(cols, " " + rest);
      SpaceThenWord(rest);
      ColumnListReads(cols, " " + rest);
      ListThenFrom(s, cols, rest, t);
    }
  }

  lemma ListThenFrom(s: string, cols: seq<string>, rest: string, t: string)
    requires Keyword("FROM", s).None?
    requires ColumnList(s) == Some(Parsed(cols, rest))
    requires Keyword("FROM", rest) == Some(Parsed("FROM", t))
    ensures DeleteColumns(s) == Ok(Parsed(cols, t))
  {
  }

  /** A column list whose first name does not begin like FROM is not read as FROM. */
  lemma NotFrom(cols: seq<string>, g: string)
    requires AllNames(cols) && |cols| >= 1 && !StartsLikeFrom(cols[0])
    requires |g| > 0 && g[0] == ' '
    ensures Keyword("FROM", Join(cols, ", ") + g).None?
    ensures StartsWord(Join(cols, ", ") + g)
  {
    var n := cols[0];
    assert IsName(n);
    var tail := Interleave(cols[1..], ", ");
    assert Join(cols, ", ") + g == n + (tail + g);
    assert tail + g != [] && (tail + g)[0] in {',', ' '} by {
      if tail != [] {
        assert tail == ", " + cols[1..][0] + Interleave(cols[1..][1..], ", ");
      }
    }
    NameNotFrom(n, tail + g);
  }

  lemma NameNotFrom(n: string, h: string)
    requires IsName(n) && !StartsLikeFrom(n)
    requires |h| > 0 && (h[0] == ',' || h[0] == ' ')
    ensures Keyword("FROM", n + h).None? && StartsWord(n + h)
  {
    var s := n + h;
    WordThen(n, h);
    SkipNothing(s);
    if |n| >= 4 {
      assert s[..4] == n[..4];
    } else {
      assert s[|n|] == h[0];
      KeywordMismatch("FROM", s, |n|);
    }
  }

  /** parse_delete from the results of its steps. */
  lemma DeleteOf(d: Dialect, query: string, r1: string, cols: seq<string>, t: string,
                 table: string, w: string, cs: seq<Condition>, wr: string)
    requires Keyword("DELETE", query) == Some(Parsed("DELETE", r1))
    requires DeleteColumns(r1) == Ok(Parsed(cols, t))
    requires Identifier(t) == Some(Parsed(table, w))
    requires ParseConditions(d, w) == Some(Parsed(cs, wr))
    ensures ParseDelete(d, query) == Ok(DataManipulationQuery.Delete(DeleteQuery(cols, table, cs)))
  {
  }

  // ----- what the statement parsers leave alone -----

  /** Text that is not a WHERE clause is left for the caller: the
      conditions are empty and nothing is consumed. */
  lemma NoWhereClause(d: Dialect, g: string)
    requires StartsWord(g) && Keyword("WHERE", g).None?
    ensures ParseConditions(d, Multispace0(" " + g)) == Some(Parsed([], g))
  {
    SpaceThenWord(g);
  }

  /** Text after the table name of a SELECT that does not start a WHERE
      clause is ignored. */
  lemma SelectIgnoresTrailingText(d: Dialect, cols: seq<string>, table: string, g: string)
    requires AllNames(cols) && IsName(table) && StartsWord(g) && Keyword("WHERE", g).None?
    ensures ParseSelect(d, "SELECT" + (" " + (SelectColumnsText(cols) + (" " + ("FROM" + (" " + (table + (" " + g)))))))) ==
            Ok(DataManipulationQuery.Select(SelectQuery(cols, table, [])))
  {
    NoWhereClause(d, g);
    SelectWithWhere(d, cols, table, " " + g, [], g);
  }

  /** Text after the SET clause of an UPDATE that neither goes on with a
      comma nor starts a WHERE clause is ignored. */
  lemma UpdateIgnoresTrailingText(d: Dialect, table: string, as_: seq<(string, Value)>, g: string)
    requires IsName(table) && AllAssignmentsRenderable(as_) && |as_| >= 1
    requires StartsWord(g) && g[0] != ',' && Keyword("WHERE", g).None?
    ensures ParseUpdate(d, "UPDATE" + (" " + (table + (" " + ("SET" + (" " + (Join(AssignmentTexts(as_), ", ") + (" " + g)))))))) ==
            Ok(DataManipulationQuery.Update(UpdateQuery(table, as_, [])))
  {
    NoWhereClause(d, g);
    UpdateWithWhere(d, table, as_, " " + g, [], g);
  }

  /** Text after the table name of a DELETE that does not start a WHERE
      clause is ignored. */
  lemma DeleteIgnoresTrailingText(d: Dialect, cols: seq<string>, table: string, g: string)
    requires AllNames(cols) && (cols != [] ==> !StartsLikeFrom(cols[0])) && IsName(table)
    requires StartsWord(g) && Keyword("WHERE", g).None?
    ensures ParseDelete(d, "DELETE" + (" " + ColumnsBefore(cols, "FROM" + (" " + (table + (" " + g)))))) ==
            Ok(DataManipulationQuery.Delete(DeleteQuery(cols, table, [])))
  {
    NoWhereClause(d, g);
    DeleteWithWhere(d, cols, table, " " + g, [], g);
  }

  /** FROM is matched on its four letters alone, so in `DELETE fromX FROM t`
      the column name `fromX` is taken for the keyword: the statement reads
      as deleting from table X, and `t` is ignored. */
  lemma DeleteReadsFromPrefixAsKeyword(d: Dialect, m: string, table: string)
    requires IsName(m) && IsName(table)
    ensures ParseDelete(d, "DELETE" + (" " + ("from" + (m + (" " + ("FROM" + (" " + table))))))) ==
            Ok(DataManipulationQuery.Delete(DeleteQuery([], m, [])))
  {
    var x := "FROM" + (" " + table);
    var r1 := "from" + (m + (" " + x));
    KeywordThenSpace("DELETE", r1);
    assert EqualsNoCase("from", "FROM");
    KeywordIgnoresCase("FROM", "from", m + (" " + x));
    WordThen(m, " " + x);
    SkipNothing(m + (" " + x));
    NameThenSpace(m, x);
    SkipNothing(x);
    KeywordMismatch("WHERE", x, 0);
    DeleteOf(d, "DELETE" + (" " + r1), r1, [], m + (" " + x), m, x, [], x);
  }
}
