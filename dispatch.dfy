/** The dispatchers: `parse_query` classifies a statement by the first of
    its leading keywords that matches and hands the whole statement to the
    grammar of that kind. Three versions are modelled: the dispatcher of the
    current parser as written, the dispatcher of the older DML-only copy,
    and the current dispatcher as its tests expect it to behave. */
module Dispatch {
  import opened Nom
  import opened Ast
  import opened Lexer
  import opened Dml
  import opened Ddl

  /** One alternative of get_query_type: the keyword, mapped to a kind. */
  function KindAs<K>(kw: string, kind: K, s: string): (r: Option<K>)
    ensures r.Some? <==> Keyword(kw, s).Some?
    ensures r.Some? ==> r.value == kind
  {
    match Keyword(kw, s)
    case None => None
    case Some(_) => Some(kind)
  }

  /** The statement starts with one of the four data-manipulation keywords. */
  predicate StartsManipulation(query: string) {
    || Keyword("SELECT", query).Some?
    || Keyword("INSERT INTO", query).Some?
    || Keyword("UPDATE", query).Some?
    || Keyword("DELETE", query).Some?
  }

  /** get_query_type as written: SELECT, INSERT INTO, UPDATE, DELETE,
      CREATE TABLE and ALTER TABLE are tried in this order, and both CREATE
      TABLE and ALTER TABLE are classified as DELETE. */
  function GetQueryType(query: string): (r: Result<QueryType>)
    ensures r == Ok(QueryType.Select) <==> Keyword("SELECT", query).Some?
    ensures r == Ok(QueryType.Insert) <==>
              Keyword("SELECT", query).None? && Keyword("INSERT INTO", query).Some?
    ensures r == Ok(QueryType.Update) <==>
              Keyword("SELECT", query).None? && Keyword("INSERT INTO", query).None? && Keyword("UPDATE", query).Some?
    ensures r == Ok(QueryType.Delete) <==>
              && Keyword("SELECT", query).None? && Keyword("INSERT INTO", query).None? && Keyword("UPDATE", query).None?
              && (Keyword("DELETE", query).Some? || Keyword("CREATE TABLE", query).Some? || Keyword("ALTER TABLE", query).Some?)
    ensures r.Err? <==> r == Err(UnsupportedRequest(query))
    ensures r.Err? <==> !StartsManipulation(query) && Keyword("CREATE TABLE", query).None? && Keyword("ALTER TABLE", query).None?
    ensures r.Ok? ==> r.value != QueryType.CreateTable && r.value != QueryType.AlterTable
  {
    match KindAs("SELECT", QueryType.Select, query)
      .OrElse(KindAs("INSERT INTO", QueryType.Insert, query))
      .OrElse(KindAs("UPDATE", QueryType.Update, query))
      .OrElse(KindAs("DELETE", QueryType.Delete, query))
      .OrElse(KindAs("CREATE TABLE", QueryType.Delete, query))
      .OrElse(KindAs("ALTER TABLE", QueryType.Delete, query))
    case Some(kind) => Ok(kind)
    case None => Err(UnsupportedRequest(query))
  }

  function AsManipulation(r: Result<DataManipulationQuery>): (q: Result<Query>)
    ensures r.Ok? <==> q.Ok?
    ensures r.Ok? ==> q.value == Manipulation(r.value)
    ensures r.Err? ==> q.error == r.error
  {
    match r
    case Ok(m) => Ok(Manipulation(m))
    case Err(e) => Err(e)
  }

  function AsDefinition(r: Result<DataDefinitionQuery>): (q: Result<Query>)
    ensures r.Ok? <==> q.Ok?
    ensures r.Ok? ==> q.value == Definition(r.value)
    ensures r.Err? ==> q.error == r.error
  {
    match r
    case Ok(d) => Ok(Definition(d))
    case Err(e) => Err(e)
  }

  /** The grammar of each kind, given the whole statement. */
  function ParseAs(kind: QueryType, query: string): Result<Query> {
    match kind
    case Select => AsManipulation(ParseSelect(Current, query))
    case Insert => AsManipulation(ParseInsert(Current, query))
    case Update => AsManipulation(ParseUpdate(Current, query))
    case Delete => AsManipulation(ParseDelete(Current, query))
    case CreateTable => AsDefinition(ParseCreateTable(query))
    case AlterTable => AsDefinition(ParseAlterTable(query))
  }

  /** parse_query as written. */
  function ParseQuery(query: string): (r: Result<Query>)
  {
    var kind :- GetQueryType(query);
    ParseAs(kind, query)
  }

  /** The statement kinds of the older copy. */
  datatype LegacyQueryType = LegacySelect | LegacyInsert | LegacyUpdate | LegacyDelete

  /** get_query_type of the older copy: only the four DML keywords. */
  function LegacyGetQueryType(query: string): (r: Result<LegacyQueryType>)
    ensures r == Ok(LegacySelect) <==> Keyword("SELECT", query).Some?
    ensures r == Ok(LegacyInsert) <==>
              Keyword("SELECT", query).None? && Keyword("INSERT INTO", query).Some?
    ensures r == Ok(LegacyUpdate) <==>
              Keyword("SELECT", query).None? && Keyword("INSERT INTO", query).None? && Keyword("UPDATE", query).Some?
    ensures r == Ok(LegacyDelete) <==>
              && Keyword("SELECT", query).None? && Keyword("INSERT INTO", query).None? && Keyword("UPDATE", query).None?
              && Keyword("DELETE", query).Some?
    ensures r.Err? <==> r == Err(UnsupportedRequest(query))
    ensures r.Err? <==> !StartsManipulation(query)
  {
    match KindAs("SELECT", LegacySelect, query)
      .OrElse(KindAs("INSERT INTO", LegacyInsert, query))
      .OrElse(KindAs("UPDATE", LegacyUpdate, query))
      .OrElse(KindAs("DELETE", LegacyDelete, query))
    case Some(kind) => Ok(kind)
    case None => Err(UnsupportedRequest(query))
  }

  /** parse_query of the older copy, with its own boolean literals. */
  function LegacyParseQuery(query: string): (r: Result<DataManipulationQuery>)
  {
    var kind :- LegacyGetQueryType(query);
    match kind
    case LegacySelect => ParseSelect(Legacy, query)
    case LegacyInsert => ParseInsert(Legacy, query)
    case LegacyUpdate => ParseUpdate(Legacy, query)
    case LegacyDelete => ParseDelete(Legacy, query)
  }

  /** Where the corrected dispatcher sends a statement: the kinds of
      QueryType, and DROP TABLE, which QueryType has no kind for. */
  datatype Route = ToKind(kind: QueryType) | ToDropTable

  /** A kind that get_query_type found, as a route. */
  function RouteOf(k: Result<QueryType>): Result<Route> {
    match k
    case Ok(kind) => Ok(ToKind(kind))
    case Err(e) => Err(e)
  }

  /** get_query_type as the tests expect it: CREATE TABLE and ALTER TABLE
      go to their own grammars, and DROP TABLE is recognised last. */
  function IntendedRoute(query: string): (r: Result<Route>)
    ensures StartsManipulation(query) ==> r.Ok? && r == RouteOf(GetQueryType(query))
    ensures !StartsManipulation(query) ==>
              && (r == Ok(ToKind(QueryType.CreateTable)) <==> Keyword("CREATE TABLE", query).Some?)
              && (r == Ok(ToKind(QueryType.AlterTable)) <==>
                    Keyword("CREATE TABLE", query).None? && Keyword("ALTER TABLE", query).Some?)
              && (r == Ok(ToDropTable) <==>
                    Keyword("CREATE TABLE", query).None? && Keyword("ALTER TABLE", query).None? && Keyword("DROP TABLE", query).Some?)
    ensures r.Err? <==> r == Err(UnsupportedRequest(query))
    ensures r.Err? <==> GetQueryType(query).Err? && Keyword("DROP TABLE", query).None?
  {
    match KindAs("SELECT", ToKind(QueryType.Select), query)
      .OrElse(KindAs("INSERT INTO", ToKind(QueryType.Insert), query))
      .OrElse(KindAs("UPDATE", ToKind(QueryType.Update), query))
      .OrElse(KindAs("DELETE", ToKind(QueryType.Delete), query))
      .OrElse(KindAs("CREATE TABLE", ToKind(QueryType.CreateTable), query))
      .OrElse(KindAs("ALTER TABLE", ToKind(QueryType.AlterTable), query))
      .OrElse(KindAs("DROP TABLE", ToDropTable, query))
    case Some(route) => Ok(route)
    case None => Err(UnsupportedRequest(query))
  }

  /** parse_query as the tests expect it. */
  function IntendedParseQuery(query: string): (r: Result<Query>)
  {
    var route :- IntendedRoute(query);
    match route
    case ToKind(kind) => ParseAs(kind, query)
    case ToDropTable => AsDefinition(ParseDropTable(query))
  }
}
