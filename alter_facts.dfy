/** Facts about ALTER TABLE and DROP TABLE: the clause list of ALTER TABLE
    never fails, each statement fails exactly at its keyword or its table
    name, and the canonical text of a statement reads back as that
    statement. */
module AlterFacts {
  import opened Nom
  import opened NomFacts
  import opened Metadata
  import opened Ast
  import opened Lexer
  import opened LexerFacts
  import opened Dml
  import opened DmlFacts
  import opened Ddl
  import opened DdlFacts

  // ----- the clause list never fails -----

  /** A parenthesised parser consumes at least the parentheses. */
  lemma InParensConsumes<T>(p: Parser<T>, s: string)
    requires NeverGrows(p)
    ensures InParens(p, s).Some? ==> |InParens(p, s).value.rest| < |s|
  {
  }

  lemma AddListNeverGrows()
    ensures NeverGrows(AddList)
  {
    forall s | AddList(s).Some?
      ensures |AddList(s).value.rest| <= |s|
    {
    }
  }

  lemma DropListNeverGrows()
    ensures NeverGrows(DropList)
  {
    forall s | DropList(s).Some?
      ensures |DropList(s).value.rest| <= |s|
    {
    }
  }

  /** An ADD or DROP clause consumes at least its keyword. */
  lemma AlterClauseConsumes()
    ensures NeverGrows(AlterClause) && Consumes(AlterClause)
  {
    AddListNeverGrows();
    DropListNeverGrows();
    forall s | AlterClause(s).Some?
      ensures |AlterClause(s).value.rest| < |s|
    {
      if AddClause(s).Some? {
        InParensConsumes(AddList, Keyword("ADD", s).value.rest);
      } else {
        InParensConsumes(DropList, Keyword("DROP", s).value.rest);
      }
    }
  }

  /** parse_alter_table_condition succeeds on every input: a clause that
      fails only ends the list. */
  lemma AlterConditionsSucceed(s: string)
    ensures AlterConditions(s).Some?
  {
    match AlterClause(s)
    case None =>
    case Some(first) =>
      AlterClauseConsumes();
      CommaConsumes();
      SepTailSucceeds(Comma, AlterClause, first.rest, [first.value]);
  }

  // ----- how ALTER TABLE and DROP TABLE end -----

  lemma AlterKeywordFails(query: string)
    requires Keyword("ALTER TABLE", query).None?
    ensures ParseAlterTable(query) == Err(QuerySyntaxError("expected 'DROP TABLE' statement", query))
  {
  }

  lemma AlterNameFails(query: string, r1: string)
    requires Keyword("ALTER TABLE", query).Some? && Keyword("ALTER TABLE", query).value.rest == r1
    requires Identifier(r1).None?
    ensures ParseAlterTable(query) == Err(QuerySyntaxError("cannot parse table name", r1))
  {
  }

  /** parse_alter_table_query from the results of its steps. */
  lemma AlterOf(query: string, r1: string, table: string, r2: string, changes: seq<AlterTableCondition>, rest: string)
    requires Keyword("ALTER TABLE", query).Some? && Keyword("ALTER TABLE", query).value.rest == r1
    requires Identifier(r1) == Some(Parsed(table, r2))
    requires AlterConditions(r2) == Some(Parsed(changes, rest))
    ensures ParseAlterTable(query) == Ok(DataDefinitionQuery.AlterTable(AlterTableQuery(table, changes)))
  {
  }

  /** ALTER TABLE fails only at its keyword, with the message of DROP
      TABLE and the whole query, or at the table name; once both are read
      it succeeds with the changes of the clause list. The branch that the
      source leaves unimplemented is never taken. */
  lemma AlterTableOutcome(query: string)
    ensures Keyword("ALTER TABLE", query).None? ==>
              ParseAlterTable(query) == Err(QuerySyntaxError("expected 'DROP TABLE' statement", query))
    ensures Keyword("ALTER TABLE", query).Some? ==>
              var r1 := Keyword("ALTER TABLE", query).value.rest;
              && (Identifier(r1).None? ==> ParseAlterTable(query) == Err(QuerySyntaxError("cannot parse table name", r1)))
              && (Identifier(r1).Some? ==>
                    var r2 := Identifier(r1).value.rest;
                    && AlterConditions(r2).Some?
                    && ParseAlterTable(query) == Ok(DataDefinitionQuery.AlterTable(AlterTableQuery(
                      Identifier(r1).value.value, AlterConditions(r2).value.value))))
  {
    match Keyword("ALTER TABLE", query)
    case None =>
      AlterKeywordFails(query);
    case Some(kw) =>
      match Identifier(kw.rest)
      case None =>
        AlterNameFails(query, kw.rest);
      case Some(table) =>
        AlterConditionsSucceed(table.rest);
        var c := AlterConditions(table.rest).value;
        AlterOf(query, kw.rest, table.value, table.rest, c.value, c.rest);
  }

  lemma DropKeywordFails(query: string)
    requires Keyword("DROP TABLE", query).None?
    ensures ParseDropTable(query) == Err(QuerySyntaxError("expected 'DROP TABLE' statement", query))
  {
  }

  lemma DropNameFails(query: string, r1: string)
    requires Keyword("DROP TABLE", query).Some? && Keyword("DROP TABLE", query).value.rest == r1
    requires Identifier(r1).None?
    ensures ParseDropTable(query) == Err(QuerySyntaxError("cannot parse table name", r1))
  {
  }

  /** parse_drop_table_query from the results of its steps. */
  lemma DropOf(query: string, r1: string, table: string, r2: string)
    requires Keyword("DROP TABLE", query).Some? && Keyword("DROP TABLE", query).value.rest == r1
    requires Identifier(r1) == Some(Parsed(table, r2))
    ensures ParseDropTable(query) == Ok(DropTable(DropTableQuery(table)))
  {
  }

  /** DROP TABLE fails at its keyword with the whole query, or at the table
      name with what follows the keyword; otherwise it names the table and
      ignores the rest. */
  lemma DropTableOutcome(query: string)
    ensures Keyword("DROP TABLE", query).None? ==>
              ParseDropTable(query) == Err(QuerySyntaxError("expected 'DROP TABLE' statement", query))
    ensures Keyword("DROP TABLE", query).Some? ==>
              var r1 := Keyword("DROP TABLE", query).value.rest;
              && (Identifier(r1).None? ==> ParseDropTable(query) == Err(QuerySyntaxError("cannot parse table name", r1)))
              && (Identifier(r1).Some? ==>
                    ParseDropTable(query) == Ok(DropTable(DropTableQuery(Identifier(r1).value.value))))
  {
    match Keyword("DROP TABLE", query)
    case None =>
      DropKeywordFails(query);
    case Some(kw) =>
      match Identifier(kw.rest)
      case None =>
        DropNameFails(query, kw.rest);
      case Some(table) =>
        DropOf(query, kw.rest, table.value, table.rest);
  }

  /** DROP TABLE, a space and a name read back as that name, whatever
      follows the name. */
  lemma DropTableRoundTrip(table: string, f: string)
    requires IsName(table) && (f == [] || !IsIdentChar(f[0]))
    ensures ParseDropTable("DROP TABLE" + (" " + (table + f))) == Ok(DropTable(DropTableQuery(table)))
  {
    var r1 := table + f;
    NameStartsWord(table, f, r1);
    assert StartsWord("DROP TABLE");
    KeywordThenSpace("DROP TABLE", r1);
    IdentifierReads(table, f);
    DropOf("DROP TABLE" + (" " + r1), r1, table, Multispace0(f));
  }

  // ----- ALTER TABLE clauses read back -----

  /** The four shapes of an ALTER TABLE clause: ADD with one column
      definition or a parenthesised list of them, DROP with one column name
      or a parenthesised list of them. */
  datatype ClauseForm =
    | AddOne(column: Column)
    | AddMany(columns: seq<Column>)
    | DropOne(name: string)
    | DropMany(names: seq<string>)

  predicate Renderable(form: ClauseForm) {
    match form
    case AddOne(c) => IsName(c.name)
    case AddMany(cs) => |cs| >= 1 && ColumnsNamed(cs)
    case DropOne(n) => IsName(n)
    case DropMany(ns) => |ns| >= 1 && AllNames(ns)
  }

  function AddChanges(cs: seq<Column>): (xs: seq<AlterTableCondition>)
    ensures |xs| == |cs|
  {
    seq(|cs|, i requires 0 <= i < |cs| => AddColumn(cs[i].name, cs[i].columnType))
  }

  function DropChanges(ns: seq<string>): (xs: seq<AlterTableCondition>)
    ensures |xs| == |ns|
  {
    seq(|ns|, i requires 0 <= i < |ns| => DropColumn(ns[i]))
  }

  /** The changes a clause stands for, in the order it lists them. */
  function Changes(form: ClauseForm): seq<AlterTableCondition> {
    match form
    case AddOne(c) => [AddColumn(c.name, c.columnType)]
    case AddMany(cs) => AddChanges(cs)
    case DropOne(n) => [DropColumn(n)]
    case DropMany(ns) => DropChanges(ns)
  }

  /** A clause's canonical text. */
  function ClauseText(form: ClauseForm): string
    requires Renderable(form)
  {
    match form
    case AddOne(c) => "ADD" + (" " + ColumnDefText(c))
    case AddMany(cs) => "ADD" + (" " + ("(" + (ColumnsText(cs) + ")")))
    case DropOne(n) => "DROP" + (" " + n)
    case DropMany(ns) => "DROP" + (" " + ("(" + (Join(ns, ", ") + ")")))
  }

  lemma AddDefReads(c: Column, f: string)
    requires IsName(c.name)
    ensures AddDef(ColumnDefText(c) + f) == Some(Parsed(AddColumn(c.name, c.columnType), Multispace0(f)))
  {
    ColumnDefReads(c, f);
  }

  lemma AddDefsParseAs(cs: seq<Column>)
    requires ColumnsNamed(cs)
    ensures ElementsRead(AddDef, ColumnDefTexts(cs), AddChanges(cs))
  {
    var ts := ColumnDefTexts(cs);
    forall i | 0 <= i < |cs|
      ensures ParsesAs(AddDef, ts[i], AddChanges(cs)[i]) && StartsWord(ts[i])
    {
      forall f | AtBoundary(f)
        ensures AddDef(ts[i] + f) == Some(Parsed(AddChanges(cs)[i], Multispace0(f)))
      {
        AddDefReads(cs[i], f);
      }
      ColumnDefReads(cs[i], []);
    }
  }

  lemma DropDefsParseAs(ns: seq<string>)
    requires AllNames(ns)
    ensures ElementsRead(DropDef, ns, DropChanges(ns))
  {
    forall i | 0 <= i < |ns|
      ensures ParsesAs(DropDef, ns[i], DropChanges(ns)[i]) && StartsWord(ns[i])
    {
      forall f | AtBoundary(f)
        ensures DropDef(ns[i] + f) == Some(Parsed(DropChanges(ns)[i], Multispace0(f)))
      {
        IdentifierReads(ns[i], f);
      }
      NameStartsWord(ns[i], [], ns[i] + []);
    }
  }

  /** A list of column definitions reads back as ADD changes up to `)`. */
  lemma AddListReads(cs: seq<Column>, g: string)
    requires |cs| >= 1 && ColumnsNamed(cs)
    ensures AddList(ColumnsText(cs) + (")" + g)) == Some(Parsed(AddChanges(cs), ")" + g))
  {
    AddDefsParseAs(cs);
    CommaSeparates();
    ParenCloses(")" + g);
    SepList1Reads(Comma, AddDef, ColumnDefTexts(cs), AddChanges(cs), ", ", ")" + g);
  }

  /** A list of column names reads back as DROP changes up to `)`. */
  lemma DropListReads(ns: seq<string>, g: string)
    requires |ns| >= 1 && AllNames(ns)
    ensures DropList(Join(ns, ", ") + (")" + g)) == Some(Parsed(DropChanges(ns), ")" + g))
  {
    DropDefsParseAs(ns);
    CommaSeparates();
    ParenCloses(")" + g);
    SepList1Reads(Comma, DropDef, ns, DropChanges(ns), ", ", ")" + g);
  }

  /** No name starts at an opening parenthesis. */
  lemma NoNameAtParen(x: string)
    ensures Identifier("(" + x).None?
  {
    ParenStarts(x);
    SkipNothing("(" + x);
  }

  /** ADD is not the start of DROP. */
  lemma AddIsNotDrop(u: string)
    ensures Keyword("ADD", "DROP" + u).None?
  {
    WordThen("DROP", u);
    SkipNothing("DROP" + u);
    KeywordMismatch("ADD", "DROP" + u, 0);
  }

  /** parse_add_column with a single definition, from the results of its steps. */
  lemma AddOneOf(s: string, u: string, c: Column, r: string)
    requires Keyword("ADD", s).Some? && Keyword("ADD", s).value.rest == u
    requires ColumnDef(u) == Some(Parsed(c, r))
    ensures AlterClause(s) == Some(Parsed([AddColumn(c.name, c.columnType)], r))
  {
  }

  /** parse_add_column with a parenthesised list, from the results of its steps. */
  lemma AddManyOf(s: string, u: string, xs: seq<AlterTableCondition>, r: string)
    requires Keyword("ADD", s).Some? && Keyword("ADD", s).value.rest == u
    requires Identifier(u).None? && InParens(AddList, u) == Some(Parsed(xs, r))
    ensures AlterClause(s) == Some(Parsed(xs, r))
  {
  }

  /** parse_drop_column with a single name, from the results of its steps. */
  lemma DropOneOf(s: string, u: string, n: string, r: string)
    requires Keyword("ADD", s).None?
    requires Keyword("DROP", s).Some? && Keyword("DROP", s).value.rest == u
    requires Identifier(u) == Some(Parsed(n, r))
    ensures AlterClause(s) == Some(Parsed([DropColumn(n)], r))
  {
  }

  /** parse_drop_column with a parenthesised list, from the results of its steps. */
  lemma DropManyOf(s: string, u: string, xs: seq<AlterTableCondition>, r: string)
    requires Keyword("ADD", s).None?
    requires Keyword("DROP", s).Some? && Keyword("DROP", s).value.rest == u
    requires Identifier(u).None? && InParens(DropList, u) == Some(Parsed(xs, r))
    ensures AlterClause(s) == Some(Parsed(xs, r))
  {
  }

  /** Text that follows a three-part text attaches to its last part. */
  lemma Append3(a: string, b: string, c: string, f: string)
    ensures (a + (b + c)) + f == a + (b + (c + f))
  {
  }

  /** Text that follows a five-part text attaches to its last part. */
  lemma Append5(a: string, b: string, c: string, d: string, e: string, f: string)
    ensures (a + (b + (c + (d + e)))) + f == a + (b + (c + (d + (e + f))))
  {
  }

  lemma AddOneReads(c: Column, f: string)
    requires IsName(c.name)
    ensures AlterClause("ADD" + (" " + (ColumnDefText(c) + f))) == Some(Parsed([AddColumn(c.name, c.columnType)], Multispace0(f)))
  {
    var u := ColumnDefText(c) + f;
    ColumnDefReads(c, f);
    WordThen(ColumnDefText(c), f);
    assert StartsWord("ADD");
    KeywordThenSpace("ADD", u);
    AddOneOf("ADD" + (" " + u), u, c, Multispace0(f));
  }

  lemma AddManyReads(cs: seq<Column>, f: string)
    requires |cs| >= 1 && ColumnsNamed(cs)
    ensures AlterClause("ADD" + (" " + ("(" + (ColumnsText(cs) + (")" + f))))) == Some(Parsed(AddChanges(cs), Multispace0(f)))
  {
    var u := "(" + (ColumnsText(cs) + (")" + f));
    ParenStarts(ColumnsText(cs) + (")" + f));
    assert StartsWord("ADD");
    KeywordThenSpace("ADD", u);
    NoNameAtParen(ColumnsText(cs) + (")" + f));
    AddListReads(cs, f);
    ColumnsTextStarts(cs, []);
    InParensReads(AddList, ColumnsText(cs), AddChanges(cs), f);
    AddManyOf("ADD" + (" " + u), u, AddChanges(cs), Multispace0(f));
  }

  lemma DropOneReads(n: string, f: string)
    requires IsName(n) && AtBoundary(f)
    ensures AlterClause("DROP" + (" " + (n + f))) == Some(Parsed([DropColumn(n)], Multispace0(f)))
  {
    var u := n + f;
    NameStartsWord(n, f, u);
    assert StartsWord("DROP");
    KeywordThenSpace("DROP", u);
    AddIsNotDrop(" " + u);
    IdentifierReads(n, f);
    DropOneOf("DROP" + (" " + u), u, n, Multispace0(f));
  }

  lemma DropManyReads(ns: seq<string>, f: string)
    requires |ns| >= 1 && AllNames(ns)
    ensures AlterClause("DROP" + (" " + ("(" + (Join(ns, ", ") + (")" + f))))) == Some(Parsed(DropChanges(ns), Multispace0(f)))
  {
    var u := "(" + (Join(ns, ", ") + (")" + f));
    ParenStarts(Join(ns, ", ") + (")" + f));
    assert StartsWord("DROP");
    KeywordThenSpace("DROP", u);
    AddIsNotDrop(" " + u);
    NoNameAtParen(Join(ns, ", ") + (")" + f));
    DropListReads(ns, f);
    NamesStart(ns, []);
    InParensReads(DropList, Join(ns, ", "), DropChanges(ns), f);
    DropManyOf("DROP" + (" " + u), u, DropChanges(ns), Multispace0(f));
  }

  /** Each clause's text reads back as its changes, up to a boundary. */
  lemma ClauseReads(form: ClauseForm, f: string)
    requires Renderable(form) && AtBoundary(f)
    ensures AlterClause(ClauseText(form) + f) == Some(Parsed(Changes(form), Multispace0(f)))
  {
    match form
    case AddOne(c) =>
      Append3("ADD", " ", ColumnDefText(c), f);
      AddOneReads(c, f);
    case AddMany(cs) =>
      Append5("ADD", " ", "(", ColumnsText(cs), ")", f);
      AddManyReads(cs, f);
    case DropOne(n) =>
      Append3("DROP", " ", n, f);
      DropOneReads(n, f);
    case DropMany(ns) =>
      Append5("DROP", " ", "(", Join(ns, ", "), ")", f);
      DropManyReads(ns, f);
  }

  lemma ClauseStarts(form: ClauseForm)
    requires Renderable(form)
    ensures StartsWord(ClauseText(form))
  {
    match form
    case AddOne(c) => WordThen("ADD", " " + ColumnDefText(c));
    case AddMany(cs) => WordThen("ADD", " " + ("(" + (ColumnsText(cs) + ")")));
    case DropOne(n) => WordThen("DROP", " " + n);
    case DropMany(ns) => WordThen("DROP", " " + ("(" + (Join(ns, ", ") + ")")));
  }

  lemma ClauseParsesAs(form: ClauseForm)
    requires Renderable(form)
    ensures ParsesAs(AlterClause, ClauseText(form), Changes(form)) && StartsWord(ClauseText(form))
  {
    forall f | AtBoundary(f)
      ensures AlterClause(ClauseText(form) + f) == Some(Parsed(Changes(form), Multispace0(f)))
    {
      ClauseReads(form, f);
    }
    ClauseStarts(form);
  }

  // ----- ALTER TABLE statements read back -----

  predicate AllRenderable(forms: seq<ClauseForm>) {
    forall i :: 0 <= i < |forms| ==> Renderable(forms[i])
  }

  function ClauseTexts(forms: seq<ClauseForm>): (ts: seq<string>)
    requires AllRenderable(forms)
    ensures |ts| == |forms|
  {
    seq(|forms|, i requires 0 <= i < |forms| => ClauseText(forms[i]))
  }

  function AllChanges(forms: seq<ClauseForm>): (xss: seq<seq<AlterTableCondition>>)
    ensures |xss| == |forms|
  {
    seq(|forms|, i requires 0 <= i < |forms| => Changes(forms[i]))
  }

  lemma ClausesParseAs(forms: seq<ClauseForm>)
    requires AllRenderable(forms)
    ensures ElementsRead(AlterClause, ClauseTexts(forms), AllChanges(forms))
  {
    forall i | 0 <= i < |forms|
      ensures ParsesAs(AlterClause, ClauseTexts(forms)[i], AllChanges(forms)[i]) && StartsWord(ClauseTexts(forms)[i])
    {
      ClauseParsesAs(forms[i]);
    }
  }

  /** The clause list after the table name: nothing, or a space and the
      clauses separated by commas. */
  function ClausesText(forms: seq<ClauseForm>): string
    requires AllRenderable(forms)
  {
    if forms == [] then "" else " " + Join(ClauseTexts(forms), ", ")
  }

  /** An ALTER TABLE statement's canonical text. */
  function AlterText(table: string, forms: seq<ClauseForm>): string
    requires IsName(table) && AllRenderable(forms)
  {
    "ALTER TABLE" + (" " + (table + ClausesText(forms)))
  }

  /** What may follow a statement without being read as part of it. */
  predicate StatementEnds(f: string) {
    AtBoundary(f) && Comma(Multispace0(f)).None? && AlterClause(Multispace0(f)).None?
  }

  /** The list of clauses becomes the list of their changes, in order. */
  lemma ConditionsOf(s: string, xss: seq<seq<AlterTableCondition>>, r: string)
    requires SepList1(Comma, AlterClause, s) == Some(Parsed(xss, r))
    ensures AlterConditions(s) == Some(Parsed(Flatten(xss), r))
  {
  }

  lemma NoConditions(s: string)
    requires AlterClause(s).None?
    ensures AlterConditions(s) == Some(Parsed([], s))
  {
  }

  lemma AlterTextThen(table: string, forms: seq<ClauseForm>, f: string)
    requires IsName(table) && AllRenderable(forms)
    ensures forms == [] ==> AlterText(table, forms) + f == "ALTER TABLE" + (" " + (table + f))
    ensures forms != [] ==>
              AlterText(table, forms) + f == "ALTER TABLE" + (" " + (table + (" " + (Join(ClauseTexts(forms), ", ") + f))))
  {
  }

  /** ALTER TABLE with no clauses reads back with no changes. */
  lemma AlterNoClauses(table: string, f: string)
    requires IsName(table) && StatementEnds(f)
    ensures ParseAlterTable("ALTER TABLE" + (" " + (table + f))) == Ok(DataDefinitionQuery.AlterTable(AlterTableQuery(table, [])))
  {
    var r1 := table + f;
    NameStartsWord(table, f, r1);
    assert StartsWord("ALTER TABLE");
    KeywordThenSpace("ALTER TABLE", r1);
    IdentifierReads(table, f);
    NoConditions(Multispace0(f));
    AlterOf("ALTER TABLE" + (" " + r1), r1, table, Multispace0(f), [], Multispace0(f));
  }

  /** ALTER TABLE with clauses reads back their changes, one clause after
      the other. */
  lemma AlterSomeClauses(table: string, forms: seq<ClauseForm>, f: string)
    requires IsName(table) && AllRenderable(forms) && |forms| >= 1 && StatementEnds(f)
    ensures ParseAlterTable("ALTER TABLE" + (" " + (table + (" " + (Join(ClauseTexts(forms), ", ") + f))))) ==
            Ok(DataDefinitionQuery.AlterTable(AlterTableQuery(table, Flatten(AllChanges(forms)))))
  {
    var r2 := Join(ClauseTexts(forms), ", ") + f;
    var r1 := table + (" " + r2);
    ClausesParseAs(forms);
    JoinStarts(ClauseTexts(forms), ", ", f);
    StatementHead("ALTER TABLE", r1, table, r2);
    CommaSeparates();
    SepList1Reads(Comma, AlterClause, ClauseTexts(forms), AllChanges(forms), ", ", f);
    ConditionsOf(r2, AllChanges(forms), Multispace0(f));
    AlterOf("ALTER TABLE" + (" " + r1), r1, table, r2, Flatten(AllChanges(forms)), Multispace0(f));
  }

  /** parse_alter_table_query reads back a statement's canonical text: the
      table and the changes of every clause, in order. */
  lemma AlterTableRoundTrip(table: string, forms: seq<ClauseForm>, f: string)
    requires IsName(table) && AllRenderable(forms) && StatementEnds(f)
    ensures ParseAlterTable(AlterText(table, forms) + f) ==
            Ok(DataDefinitionQuery.AlterTable(AlterTableQuery(table, Flatten(AllChanges(forms)))))
  {
    AlterTextThen(table, forms, f);
    if forms == [] {
      AlterNoClauses(table, f);
    } else {
      AlterSomeClauses(table, forms, f);
    }
  }

  /** The end of the text ends a statement. */
  lemma NothingEnds()
    ensures StatementEnds("")
  {
    assert Multispace0("") == "";
  }

  /** The changes of two runs of clauses, one after the other. */
  lemma {:induction false} FlattenAppend<T>(a: seq<seq<T>>, b: seq<seq<T>>)
    ensures Flatten(a + b) == Flatten(a) + Flatten(b)
    decreases |a|
  {
    if a == [] {
      assert a + b == b;
    } else {
      assert (a + b)[1..] == a[1..] + b;
      FlattenAppend(a[1..], b);
    }
  }
}
