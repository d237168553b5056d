/** The data-definition grammar: CREATE TABLE with its two primary-key
    layouts, ALTER TABLE with ADD and DROP clauses, DROP TABLE, and the
    column types. As in the DML grammar, each statement parser reports the
    first step that fails as a syntax error carrying the input that step was
    given, and ignores whatever follows the last clause. */
module Ddl {
  import opened Nom
  import opened Metadata
  import opened Ast
  import opened Lexer
  import opened Dml

  /** The keyword that spells each column type. */
  function TypeName(t: ColumnType): string {
    match t
    case Uuid => "UUID"
    case Int => "INT"
    case Long => "LONG"
    case Float => "FLOAT"
    case Double => "DOUBLE"
    case Timestamp => "TIMESTAMP"
    case Text => "TEXT"
    case Bool => "BOOL"
  }

  /** One column type, read by its keyword. */
  function TypeAs(t: ColumnType, s: string): (r: Option<Parsed<ColumnType>>)
    ensures r.Some? <==> Keyword(TypeName(t), s).Some?
    ensures r.Some? ==> r.value.value == t && r.value.rest == Keyword(TypeName(t), s).value.rest
  {
    match Keyword(TypeName(t), s)
    case None => None
    case Some(k) => Some(Parsed(t, k.rest))
  }

  /** parse_column_type: the type keywords in any letter case, tried in the
      order UUID, INT, LONG, FLOAT, DOUBLE, TIMESTAMP, TEXT, BOOL. */
  function ParseColumnType(s: string): (r: Option<Parsed<ColumnType>>)
    ensures r.Some? ==> |r.value.rest| < |s|
    ensures r.Some? ==> Keyword(TypeName(r.value.value), s).Some?
    ensures r.Some? ==> Keyword(TypeName(r.value.value), s).value.rest == r.value.rest
  {
    TypeAs(Uuid, s)
      .OrElse(TypeAs(Int, s))
      .OrElse(TypeAs(Long, s))
      .OrElse(TypeAs(ColumnType.Float, s))
      .OrElse(TypeAs(Double, s))
      .OrElse(TypeAs(Timestamp, s))
      .OrElse(TypeAs(Text, s))
      .OrElse(TypeAs(ColumnType.Bool, s))
  }

  /** A column definition: a name and then its type. */
  function ColumnDef(s: string): (r: Option<Parsed<Column>>)
    ensures r.Some? ==> |r.value.rest| < |s| && IsName(r.value.value.name)
    ensures r.Some? ==> Identifier(s).Some? && r.value.value.name == Identifier(s).value.value
  {
    var name :- Identifier(s);
    var t :- ParseColumnType(name.rest);
    Some(Parsed(Column(name.value, t.value), t.rest))
  }

  /** `delimited(ws(tag("(")), p, ws(tag(")")))`. */
  function InParens<T>(p: Parser<T>, s: string): (r: Option<Parsed<T>>)
  {
    var open :- Symbol("(", s);
    var x :- p(open.rest);
    var close :- Symbol(")", x.rest);
    Some(Parsed(x.value, close.rest))
  }

  /** is_single_pk: an opening parenthesis right here, a column definition,
      and then PRIMARY KEY in capitals. */
  function IsSinglePk(s: string): bool {
    match Tag("(", s)
    case None => false
    case Some(open) =>
      match ColumnDef(open.rest)
      case None => false
      case Some(c) => Symbol("PRIMARY KEY", c.rest).Some?
  }

  /** parse_create_table_with_single_pk: the key column, PRIMARY KEY, an
      optional comma and any further column definitions. */
  function SinglePkBody(s: string): (r: Option<Parsed<(seq<Column>, PrimaryKey)>>)
    ensures r.Some? ==> var (columns, key) := r.value.value;
                        |columns| >= 1 && key == PrimaryKey([columns[0].name], [])
  {
    var first :- ColumnDef(s);
    var pk :- Keyword("PRIMARY KEY", first.rest);
    var afterComma := match Comma(pk.rest) case Some(c) => c.rest case None => pk.rest;
    var others :- SepList0(Comma, ColumnDef, afterComma);
    Some(Parsed(([first.value] + others.value, PrimaryKey([first.value.name], [])), others.rest))
  }

  /** The nested key `((a, b), c)`: the partition key in its own parentheses,
      then a comma and the clustering columns, if any. */
  function NestedKey(s: string): (r: Option<Parsed<PrimaryKey>>)
  {
    var partition :- InParens(ColumnList, s);
    var comma :- Symbol(",", partition.rest);
    var clustering :- SepList0(Comma, Identifier, comma.rest);
    Some(Parsed(PrimaryKey(partition.value, clustering.value), clustering.rest))
  }

  /** The flat key `(a, b, c)`: the first name is the partition key and the
      others are the clustering columns. */
  function FlatKey(s: string): (r: Option<Parsed<PrimaryKey>>)
  {
    var names :- ColumnList(s);
    Some(Parsed(PrimaryKey([names.value[0]], names.value[1..]), names.rest))
  }

  /** parse_composite_pk: the nested key is tried before the flat one. */
  function CompositeKey(s: string): (r: Option<Parsed<PrimaryKey>>)
  {
    InParens(t => NestedKey(t).OrElse(FlatKey(t)), s)
  }

  /** parse_create_table_with_composite_pk: column definitions, a comma,
      PRIMARY KEY and the key. */
  function CompositeBody(s: string): (r: Option<Parsed<(seq<Column>, PrimaryKey)>>)
  {
    var columns :- SepList1(Comma, ColumnDef, s);
    var comma :- Symbol(",", columns.rest);
    var kw :- Keyword("PRIMARY KEY", comma.rest);
    var key :- CompositeKey(kw.rest);
    Some(Parsed((columns.value, key.value), key.rest))
  }

  /** parse_create_table_query. */
  function ParseCreateTable(query: string): (r: Result<DataDefinitionQuery>)
  {
    var kw :- Expect(Keyword("CREATE TABLE", query), "cannot parse statement 'CREATE TABLE'", query);
    var table :- Expect(Identifier(kw.rest), "cannot parse table name", kw.rest);
    var body :-
      if IsSinglePk(table.rest) then
        Expect(InParens(SinglePkBody, table.rest), "cannot parse the column definition with a simple primary key", table.rest)
      else
        Expect(InParens(CompositeBody, table.rest), "cannot parse the column definition with a composite primary key", table.rest);
    Ok(DataDefinitionQuery.CreateTable(CreateTableQuery(table.value, body.value.1, body.value.0)))
  }

  /** A parser of one item, as a parser of a one-item list. */
  function Single<T>(p: Parser<T>, s: string): (r: Option<Parsed<seq<T>>>)
    ensures r.Some? <==> p(s).Some?
    ensures r.Some? ==> r.value == Parsed([p(s).value.value], p(s).value.rest)
  {
    var x :- p(s);
    Some(Parsed([x.value], x.rest))
  }

  /** A column definition as an ADD change. */
  function AddDef(s: string): (r: Option<Parsed<AlterTableCondition>>)
    ensures r.Some? ==> |r.value.rest| < |s| && r.value.value.AddColumn?
    ensures r.Some? ==> Identifier(s).Some? && r.value.value.columnName == Identifier(s).value.value
  {
    var c :- ColumnDef(s);
    Some(Parsed(AddColumn(c.value.name, c.value.columnType), c.rest))
  }

  /** A column name as a DROP change. */
  function DropDef(s: string): (r: Option<Parsed<AlterTableCondition>>)
    ensures r.Some? ==> |r.value.rest| < |s| && r.value.value.DropColumn?
    ensures r.Some? <==> Identifier(s).Some?
    ensures r.Some? ==> r.value.value.columnName == Identifier(s).value.value && r.value.rest == Identifier(s).value.rest
  {
    var n :- Identifier(s);
    Some(Parsed(DropColumn(n.value), n.rest))
  }

  /** parse_add_column: ADD, then one column definition or a parenthesised
      list of them. */
  function AddClause(s: string): (r: Option<Parsed<seq<AlterTableCondition>>>)
  {
    var kw :- Keyword("ADD", s);
    Single(AddDef, kw.rest).OrElse(InParens(AddList, kw.rest))
  }

  /** One or more column definitions separated by commas, as ADD changes. */
  function AddList(s: string): (r: Option<Parsed<seq<AlterTableCondition>>>)
  {
    SepList1(Comma, AddDef, s)
  }

  /** parse_drop_column: DROP, then one column name or a parenthesised list
      of them. */
  function DropClause(s: string): (r: Option<Parsed<seq<AlterTableCondition>>>)
  {
    var kw :- Keyword("DROP", s);
    Single(DropDef, kw.rest).OrElse(InParens(DropList, kw.rest))
  }

  /** One or more column names separated by commas, as DROP changes. */
  function DropList(s: string): (r: Option<Parsed<seq<AlterTableCondition>>>)
  {
    SepList1(Comma, DropDef, s)
  }

  /** One ADD or DROP clause; ADD is tried first. */
  function AlterClause(s: string): (r: Option<Parsed<seq<AlterTableCondition>>>)
  {
    AddClause(s).OrElse(DropClause(s))
  }

  /** The lists of a list, one after the other. */
  function Flatten<T>(xss: seq<seq<T>>): seq<T> {
    if xss == [] then [] else xss[0] + Flatten(xss[1..])
  }

  /** parse_alter_table_condition: zero or more clauses separated by commas,
      their changes concatenated in order. */
  function AlterConditions(s: string): (r: Option<Parsed<seq<AlterTableCondition>>>)
  {
    var clauses :- SepList0(Comma, AlterClause, s);
    Some(Parsed(Flatten(clauses.value), clauses.rest))
  }

  /** parse_alter_table_query. The source has no message for a failed clause
      list; it stops there instead. */
  function ParseAlterTable(query: string): (r: Result<DataDefinitionQuery>)
  {
    var kw :- Expect(Keyword("ALTER TABLE", query), "expected 'DROP TABLE' statement", query);
    var table :- Expect(Identifier(kw.rest), "cannot parse table name", kw.rest);
    var conditions :- Expect(AlterConditions(table.rest), "not yet implemented", table.rest);
    Ok(DataDefinitionQuery.AlterTable(AlterTableQuery(table.value, conditions.value)))
  }

  /** parse_drop_table_query. */
  function ParseDropTable(query: string): (r: Result<DataDefinitionQuery>)
  {
    var kw :- Expect(Keyword("DROP TABLE", query), "expected 'DROP TABLE' statement", query);
    var table :- Expect(Identifier(kw.rest), "cannot parse table name", kw.rest);
    Ok(DropTable(DropTableQuery(table.value)))
  }
}
