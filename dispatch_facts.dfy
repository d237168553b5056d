/** What the dispatchers do with each kind of statement: the leading keyword
    alone decides which grammar reads the statement, an unsupported request
    is reported exactly when no keyword matches, every rendered statement of
    the four DML kinds reads back through `parse_query`, and the two
    dispatcher defects together with the corrected dispatcher. */
module DispatchFacts {
  import opened Nom
  import NomFacts
  import opened Ast
  import opened Lexer
  import opened LexerFacts
  import opened Dml
  import opened DmlFacts
  import opened DmlErrors
  import opened Ddl
  import opened DdlFacts
  import opened AlterFacts
  import opened Dispatch

  /** Two keywords that differ, ignoring case, at a position both have
      cannot both match the same statement. */
  lemma KeywordsExclude(a: string, b: string, s: string, i: nat)
    requires Keyword(a, s).Some?
    requires i < |a| && i < |b| && Lower(a[i]) != Lower(b[i])
    ensures Keyword(b, s).None?
  {
    var m := Multispace0(s);
    assert m[..|a|][i] == m[i];
    KeywordMismatch(b, s, i);
  }

  // ----- Which grammar each leading keyword selects -----

  lemma InsertExcludes(s: string)
    requires Keyword("INSERT INTO", s).Some?
    ensures Keyword("SELECT", s).None?
  {
    KeywordsExclude("INSERT INTO", "SELECT", s, 0);
  }

  lemma UpdateExcludes(s: string)
    requires Keyword("UPDATE", s).Some?
    ensures Keyword("SELECT", s).None? && Keyword("INSERT INTO", s).None?
  {
    KeywordsExclude("UPDATE", "SELECT", s, 0);
    KeywordsExclude("UPDATE", "INSERT INTO", s, 0);
  }

  lemma DeleteExcludes(s: string)
    requires Keyword("DELETE", s).Some?
    ensures Keyword("SELECT", s).None? && Keyword("INSERT INTO", s).None? && Keyword("UPDATE", s).None?
  {
    KeywordsExclude("DELETE", "SELECT", s, 0);
    KeywordsExclude("DELETE", "INSERT INTO", s, 0);
    KeywordsExclude("DELETE", "UPDATE", s, 0);
  }

  /** CREATE TABLE starts none of the DML statements. */
  lemma CreateExcludes(s: string)
    requires Keyword("CREATE TABLE", s).Some?
    ensures !StartsManipulation(s)
  {
    KeywordsExclude("CREATE TABLE", "SELECT", s, 0);
    KeywordsExclude("CREATE TABLE", "INSERT INTO", s, 0);
    KeywordsExclude("CREATE TABLE", "UPDATE", s, 0);
    KeywordsExclude("CREATE TABLE", "DELETE", s, 0);
  }

  /** ALTER TABLE starts none of the DML statements, nor CREATE TABLE. */
  lemma AlterExcludes(s: string)
    requires Keyword("ALTER TABLE", s).Some?
    ensures !StartsManipulation(s) && Keyword("CREATE TABLE", s).None?
  {
    KeywordsExclude("ALTER TABLE", "SELECT", s, 0);
    KeywordsExclude("ALTER TABLE", "INSERT INTO", s, 0);
    KeywordsExclude("ALTER TABLE", "UPDATE", s, 0);
    KeywordsExclude("ALTER TABLE", "DELETE", s, 0);
    KeywordsExclude("ALTER TABLE", "CREATE TABLE", s, 0);
  }

  /** DROP TABLE starts no statement get_query_type knows; it shares its
      first letter with DELETE and differs at the second. */
  lemma DropExcludes(s: string)
    requires Keyword("DROP TABLE", s).Some?
    ensures !StartsManipulation(s) && Keyword("CREATE TABLE", s).None? && Keyword("ALTER TABLE", s).None?
  {
    KeywordsExclude("DROP TABLE", "SELECT", s, 0);
    KeywordsExclude("DROP TABLE", "INSERT INTO", s, 0);
    KeywordsExclude("DROP TABLE", "UPDATE", s, 0);
    KeywordsExclude("DROP TABLE", "DELETE", s, 1);
    KeywordsExclude("DROP TABLE", "CREATE TABLE", s, 0);
    KeywordsExclude("DROP TABLE", "ALTER TABLE", s, 0);
  }

  /** The grammar ParseAs picks for each data-manipulation kind. */
  lemma ManipulationKinds(kind: QueryType, query: string)
    ensures kind == QueryType.Select ==> ParseAs(kind, query) == AsManipulation(ParseSelect(Current, query))
    ensures kind == QueryType.Insert ==> ParseAs(kind, query) == AsManipulation(ParseInsert(Current, query))
    ensures kind == QueryType.Update ==> ParseAs(kind, query) == AsManipulation(ParseUpdate(Current, query))
    ensures kind == QueryType.Delete ==> ParseAs(kind, query) == AsManipulation(ParseDelete(Current, query))
  {
  }

  /** The grammar ParseAs picks for each data-definition kind. */
  lemma DefinitionKinds(kind: QueryType, query: string)
    ensures kind == QueryType.CreateTable ==> ParseAs(kind, query) == AsDefinition(ParseCreateTable(query))
    ensures kind == QueryType.AlterTable ==> ParseAs(kind, query) == AsDefinition(ParseAlterTable(query))
  {
  }

  /** parse_query reads a statement with the grammar of the kind
      get_query_type found for it. */
  lemma ByKind(query: string, kind: QueryType)
    requires GetQueryType(query) == Ok(kind)
    ensures ParseQuery(query) == ParseAs(kind, query)
  {
  }

  /** parse_query hands a statement that starts with a DML keyword, whole,
      to the grammar of that keyword. */
  lemma SelectRoute(query: string)
    requires Keyword("SELECT", query).Some?
    ensures ParseQuery(query) == AsManipulation(ParseSelect(Current, query))
  {
    ByKind(query, QueryType.Select);
    ManipulationKinds(QueryType.Select, query);
  }

  lemma InsertRoute(query: string)
    requires Keyword("INSERT INTO", query).Some?
    ensures ParseQuery(query) == AsManipulation(ParseInsert(Current, query))
  {
    InsertExcludes(query);
    ByKind(query, QueryType.Insert);
    ManipulationKinds(QueryType.Insert, query);
  }

  lemma UpdateRoute(query: string)
    requires Keyword("UPDATE", query).Some?
    ensures ParseQuery(query) == AsManipulation(ParseUpdate(Current, query))
  {
    UpdateExcludes(query);
    ByKind(query, QueryType.Update);
    ManipulationKinds(QueryType.Update, query);
  }

  lemma DeleteRoute(query: string)
    requires Keyword("DELETE", query).Some?
    ensures ParseQuery(query) == AsManipulation(ParseDelete(Current, query))
  {
    DeleteExcludes(query);
    ByKind(query, QueryType.Delete);
    ManipulationKinds(QueryType.Delete, query);
  }

  /** The older parse_query reads a statement with the grammar of the kind
      its get_query_type found, with its own literals. */
  lemma LegacyByKind(query: string, kind: LegacyQueryType)
    requires LegacyGetQueryType(query) == Ok(kind)
    ensures kind == LegacySelect ==> LegacyParseQuery(query) == ParseSelect(Legacy, query)
    ensures kind == LegacyInsert ==> LegacyParseQuery(query) == ParseInsert(Legacy, query)
    ensures kind == LegacyUpdate ==> LegacyParseQuery(query) == ParseUpdate(Legacy, query)
    ensures kind == LegacyDelete ==> LegacyParseQuery(query) == ParseDelete(Legacy, query)
  {
  }

  lemma LegacySelectRoute(query: string)
    requires Keyword("SELECT", query).Some?
    ensures LegacyParseQuery(query) == ParseSelect(Legacy, query)
  {
    LegacyByKind(query, LegacySelect);
  }

  lemma LegacyInsertRoute(query: string)
    requires Keyword("INSERT INTO", query).Some?
    ensures LegacyParseQuery(query) == ParseInsert(Legacy, query)
  {
    InsertExcludes(query);
    LegacyByKind(query, LegacyInsert);
  }

  lemma LegacyUpdateRoute(query: string)
    requires Keyword("UPDATE", query).Some?
    ensures LegacyParseQuery(query) == ParseUpdate(Legacy, query)
  {
    UpdateExcludes(query);
    LegacyByKind(query, LegacyUpdate);
  }

  lemma LegacyDeleteRoute(query: string)
    requires Keyword("DELETE", query).Some?
    ensures LegacyParseQuery(query) == ParseDelete(Legacy, query)
  {
    DeleteExcludes(query);
    LegacyByKind(query, LegacyDelete);
  }

  // ----- Unsupported requests -----

  /** parse_query reports an unsupported request, carrying the whole
      statement, exactly when none of its six keywords starts it: the
      grammars it hands statements to report syntax errors only. */
  lemma UnsupportedExactly(query: string)
    ensures ParseQuery(query).Err? && ParseQuery(query).error.UnsupportedRequest? <==>
              !StartsManipulation(query) && Keyword("CREATE TABLE", query).None? && Keyword("ALTER TABLE", query).None?
    ensures ParseQuery(query).Err? && ParseQuery(query).error.UnsupportedRequest? ==>
              ParseQuery(query).error.query == query
  {
    match GetQueryType(query)
    case Err(_) =>
    case Ok(kind) =>
      ByKind(query, kind);
      ManipulationKinds(kind, query);
      match kind
      case Select => SelectErrors(Current, query);
      case Insert => InsertErrors(Current, query);
      case Update => UpdateErrors(Current, query);
      case Delete => DeleteErrors(Current, query);
      case CreateTable =>
      case AlterTable =>
  }

  /** The older parse_query reports an unsupported request exactly when none
      of the four DML keywords starts the statement. */
  lemma LegacyUnsupportedExactly(query: string)
    ensures LegacyParseQuery(query).Err? && LegacyParseQuery(query).error.UnsupportedRequest? <==>
              !StartsManipulation(query)
    ensures LegacyParseQuery(query).Err? && LegacyParseQuery(query).error.UnsupportedRequest? ==>
              LegacyParseQuery(query).error.query == query
  {
    match LegacyGetQueryType(query)
    case Err(_) =>
    case Ok(kind) =>
      match kind
      case LegacySelect => SelectErrors(Legacy, query);
      case LegacyInsert => InsertErrors(Legacy, query);
      case LegacyUpdate => UpdateErrors(Legacy, query);
      case LegacyDelete => DeleteErrors(Legacy, query);
  }

  // ----- Round trips through the dispatcher -----

  lemma SelectStarts(d: Dialect, query: string)
    requires ParseSelect(d, query).Ok?
    ensures Keyword("SELECT", query).Some?
  {
    SelectErrors(d, query);
  }

  lemma InsertStarts(d: Dialect, query: string)
    requires ParseInsert(d, query).Ok?
    ensures Keyword("INSERT INTO", query).Some?
  {
    InsertErrors(d, query);
  }

  lemma UpdateStarts(d: Dialect, query: string)
    requires ParseUpdate(d, query).Ok?
    ensures Keyword("UPDATE", query).Some?
  {
    UpdateErrors(d, query);
  }

  lemma DeleteStarts(d: Dialect, query: string)
    requires ParseDelete(d, query).Ok?
    ensures Keyword("DELETE", query).Some?
  {
    DeleteErrors(d, query);
  }

  /** Every rendered SELECT, INSERT, UPDATE and DELETE statement reads back
      through parse_query. */
  lemma QueryRoundTrips(s: SelectQuery, i: InsertQuery, u: UpdateQuery, x: DeleteQuery)
    requires SelectRenderable(s) && InsertRenderable(i) && UpdateRenderable(u) && DeleteRenderable(x)
    ensures ParseQuery(SelectText(s)) == Ok(Manipulation(DataManipulationQuery.Select(s)))
    ensures ParseQuery(InsertText(i)) == Ok(Manipulation(DataManipulationQuery.Insert(i)))
    ensures ParseQuery(UpdateText(u)) == Ok(Manipulation(DataManipulationQuery.Update(u)))
    ensures ParseQuery(DeleteText(x)) == Ok(Manipulation(DataManipulationQuery.Delete(x)))
  {
    SelectRoundTrip(Current, s);
    SelectStarts(Current, SelectText(s));
    SelectRoute(SelectText(s));
    InsertRoundTrip(Current, i, "");
    assert InsertText(i) + "" == InsertText(i);
    InsertStarts(Current, InsertText(i));
    InsertRoute(InsertText(i));
    UpdateRoundTrip(Current, u);
    UpdateStarts(Current, UpdateText(u));
    UpdateRoute(UpdateText(u));
    DeleteRoundTrip(Current, x);
    DeleteStarts(Current, DeleteText(x));
    DeleteRoute(DeleteText(x));
  }

  /** The same through the older parse_query, with its own literals. */
  lemma LegacyRoundTrips(s: SelectQuery, i: InsertQuery, u: UpdateQuery, x: DeleteQuery)
    requires SelectRenderable(s) && InsertRenderable(i) && UpdateRenderable(u) && DeleteRenderable(x)
    ensures LegacyParseQuery(SelectText(s)) == Ok(DataManipulationQuery.Select(s))
    ensures LegacyParseQuery(InsertText(i)) == Ok(DataManipulationQuery.Insert(i))
    ensures LegacyParseQuery(UpdateText(u)) == Ok(DataManipulationQuery.Update(u))
    ensures LegacyParseQuery(DeleteText(x)) == Ok(DataManipulationQuery.Delete(x))
  {
    SelectRoundTrip(Legacy, s);
    SelectStarts(Legacy, SelectText(s));
    LegacySelectRoute(SelectText(s));
    InsertRoundTrip(Legacy, i, "");
    assert InsertText(i) + "" == InsertText(i);
    InsertStarts(Legacy, InsertText(i));
    LegacyInsertRoute(InsertText(i));
    UpdateRoundTrip(Legacy, u);
    UpdateStarts(Legacy, UpdateText(u));
    LegacyUpdateRoute(UpdateText(u));
    DeleteRoundTrip(Legacy, x);
    DeleteStarts(Legacy, DeleteText(x));
    LegacyDeleteRoute(DeleteText(x));
  }

  // ----- The dispatcher as written: its two defects -----

  /** parse_query hands a CREATE TABLE statement to the DELETE grammar,
      which rejects it at its keyword, whatever the statement says. */
  lemma CreateTableMisrouted(query: string)
    requires Keyword("CREATE TABLE", query).Some?
    ensures ParseQuery(query) == Err(QuerySyntaxError("an error occurred while parsing delete keyword", query))
  {
    CreateExcludes(query);
    KeywordsExclude("CREATE TABLE", "DELETE", query, 0);
    ByKind(query, QueryType.Delete);
    ManipulationKinds(QueryType.Delete, query);
    DeleteFailsAtKeyword(Current, query);
  }

  /** The same holds for ALTER TABLE. */
  lemma AlterTableMisrouted(query: string)
    requires Keyword("ALTER TABLE", query).Some?
    ensures ParseQuery(query) == Err(QuerySyntaxError("an error occurred while parsing delete keyword", query))
  {
    AlterExcludes(query);
    KeywordsExclude("ALTER TABLE", "DELETE", query, 0);
    ByKind(query, QueryType.Delete);
    ManipulationKinds(QueryType.Delete, query);
    DeleteFailsAtKeyword(Current, query);
  }

  /** parse_query has no route to the DROP TABLE grammar: such a statement
      is an unsupported request. */
  lemma DropTableUnsupported(query: string)
    requires Keyword("DROP TABLE", query).Some?
    ensures ParseQuery(query) == Err(UnsupportedRequest(query))
  {
    DropExcludes(query);
  }

  /** INSERT INTO is one keyword: INSERT followed by anything but INTO is an
      unsupported request, to both dispatchers. */
  lemma InsertWithoutInto(t: string)
    requires |t| > 0 && Lower(t[0]) != 'i'
    ensures ParseQuery("INSERT " + t) == Err(UnsupportedRequest("INSERT " + t))
    ensures LegacyParseQuery("INSERT " + t) == Err(UnsupportedRequest("INSERT " + t))
  {
    var query := "INSERT " + t;
    NomFacts.SkipNothing(query);
    assert query[7] == t[0];
    KeywordMismatch("SELECT", query, 0);
    KeywordMismatch("INSERT INTO", query, 7);
    KeywordMismatch("UPDATE", query, 0);
    KeywordMismatch("DELETE", query, 0);
    KeywordMismatch("CREATE TABLE", query, 0);
    KeywordMismatch("ALTER TABLE", query, 0);
  }

  /** Every rendered CREATE TABLE statement, which its own grammar reads
      back, is rejected by parse_query. */
  lemma CreateTableRejected(q: CreateTableQuery, f: string)
    requires CreateRenderable(q)
    ensures ParseCreateTable(CreateTableText(q) + f) == Ok(DataDefinitionQuery.CreateTable(q))
    ensures ParseQuery(CreateTableText(q) + f) ==
              Err(QuerySyntaxError("an error occurred while parsing delete keyword", CreateTableText(q) + f))
  {
    CreateTableRoundTrip(q, f);
    CreateFound(CreateTableText(q) + f);
    CreateTableMisrouted(CreateTableText(q) + f);
  }

  /** Every rendered ALTER TABLE statement, which its own grammar reads
      back, is rejected by parse_query. */
  lemma AlterTableRejected(table: string, forms: seq<ClauseForm>, f: string)
    requires IsName(table) && AlterFacts.AllRenderable(forms) && StatementEnds(f)
    ensures ParseAlterTable(AlterText(table, forms) + f) ==
              Ok(DataDefinitionQuery.AlterTable(AlterTableQuery(table, Flatten(AllChanges(forms)))))
    ensures ParseQuery(AlterText(table, forms) + f) ==
              Err(QuerySyntaxError("an error occurred while parsing delete keyword", AlterText(table, forms) + f))
  {
    AlterTableRoundTrip(table, forms, f);
    AlterFound(AlterText(table, forms) + f);
    AlterTableMisrouted(AlterText(table, forms) + f);
  }

  /** Every DROP TABLE statement, which its own grammar reads, is an
      unsupported request to parse_query. */
  lemma DropTableRejected(table: string, f: string)
    requires IsName(table) && (f == [] || !IsIdentChar(f[0]))
    ensures ParseDropTable("DROP TABLE" + (" " + (table + f))) == Ok(DropTable(DropTableQuery(table)))
    ensures ParseQuery("DROP TABLE" + (" " + (table + f))) == Err(UnsupportedRequest("DROP TABLE" + (" " + (table + f))))
  {
    DropTableRoundTrip(table, f);
    DropFound("DROP TABLE" + (" " + (table + f)));
    DropTableUnsupported("DROP TABLE" + (" " + (table + f)));
  }

  lemma CreateFound(query: string)
    requires ParseCreateTable(query).Ok?
    ensures Keyword("CREATE TABLE", query).Some?
  {
  }

  lemma AlterFound(query: string)
    requires ParseAlterTable(query).Ok?
    ensures Keyword("ALTER TABLE", query).Some?
  {
  }

  lemma DropFound(query: string)
    requires ParseDropTable(query).Ok?
    ensures Keyword("DROP TABLE", query).Some?
  {
  }

  // ----- The corrected dispatcher -----

  /** The corrected parse_query reads a statement with the grammar of the
      kind its classifier found. */
  lemma IntendedByKind(query: string, kind: QueryType)
    requires IntendedRoute(query) == Ok(ToKind(kind))
    ensures IntendedParseQuery(query) == ParseAs(kind, query)
  {
  }

  /** The corrected parse_query agrees with parse_query on every statement
      that starts with a DML keyword. */
  lemma IntendedAgrees(query: string)
    requires StartsManipulation(query)
    ensures IntendedParseQuery(query) == ParseQuery(query)
  {
    var kind := GetQueryType(query).value;
    ByKind(query, kind);
    IntendedByKind(query, kind);
  }

  /** The corrected parse_query hands each data-definition statement, whole,
      to its own grammar. */
  lemma IntendedCreateRoute(query: string)
    requires Keyword("CREATE TABLE", query).Some?
    ensures IntendedParseQuery(query) == AsDefinition(ParseCreateTable(query))
  {
    CreateExcludes(query);
    IntendedByKind(query, QueryType.CreateTable);
    DefinitionKinds(QueryType.CreateTable, query);
  }

  lemma IntendedAlterRoute(query: string)
    requires Keyword("ALTER TABLE", query).Some?
    ensures IntendedParseQuery(query) == AsDefinition(ParseAlterTable(query))
  {
    AlterExcludes(query);
    IntendedByKind(query, QueryType.AlterTable);
    DefinitionKinds(QueryType.AlterTable, query);
  }

  lemma IntendedDropRoute(query: string)
    requires Keyword("DROP TABLE", query).Some?
    ensures IntendedParseQuery(query) == AsDefinition(ParseDropTable(query))
  {
    DropExcludes(query);
  }

  /** Every rendered data-definition statement reads back through the
      corrected parse_query. */
  lemma IntendedRoundTrips(q: CreateTableQuery, table: string, forms: seq<ClauseForm>, f: string, g: string)
    requires CreateRenderable(q)
    requires IsName(table) && AlterFacts.AllRenderable(forms) && StatementEnds(f)
    requires g == [] || !IsIdentChar(g[0])
    ensures IntendedParseQuery(CreateTableText(q) + g) == Ok(Definition(DataDefinitionQuery.CreateTable(q)))
    ensures IntendedParseQuery(AlterText(table, forms) + f) ==
              Ok(Definition(DataDefinitionQuery.AlterTable(AlterTableQuery(table, Flatten(AllChanges(forms))))))
    ensures IntendedParseQuery("DROP TABLE" + (" " + (table + g))) == Ok(Definition(DropTable(DropTableQuery(table))))
  {
    CreateTableRoundTrip(q, g);
    CreateFound(CreateTableText(q) + g);
    IntendedCreateRoute(CreateTableText(q) + g);
    AlterTableRoundTrip(table, forms, f);
    AlterFound(AlterText(table, forms) + f);
    IntendedAlterRoute(AlterText(table, forms) + f);
    DropTableRoundTrip(table, g);
    DropFound("DROP TABLE" + (" " + (table + g)));
    IntendedDropRoute("DROP TABLE" + (" " + (table + g)));
  }

  /** The corrected parse_query reports an unsupported request exactly when
      none of its seven keywords starts the statement. */
  lemma IntendedUnsupportedExactly(query: string)
    ensures IntendedParseQuery(query).Err? && IntendedParseQuery(query).error.UnsupportedRequest? <==>
              && !StartsManipulation(query) && Keyword("CREATE TABLE", query).None?
              && Keyword("ALTER TABLE", query).None? && Keyword("DROP TABLE", query).None?
  {
    if StartsManipulation(query) {
      UnsupportedExactly(query);
      IntendedAgrees(query);
    } else if Keyword("CREATE TABLE", query).Some? {
      CreateTableErrorShape(query);
      IntendedCreateRoute(query);
    } else if Keyword("ALTER TABLE", query).Some? {
      AlterTableOutcome(query);
      IntendedAlterRoute(query);
    } else if Keyword("DROP TABLE", query).Some? {
      DropTableOutcome(query);
      IntendedDropRoute(query);
    }
  }
}
