/** The values the statement parser builds: the parsed query, its parts, and
    the error it reports instead. */
module Ast {
  import opened Metadata

  const I64_MIN: int := -0x8000_0000_0000_0000
  const I64_MAX: int := 0x7fff_ffff_ffff_ffff

  /** Rust's `i64`. */
  newtype i64 = x: int | -0x8000_0000_0000_0000 <= x <= 0x7fff_ffff_ffff_ffff

  /** A floating-point literal as it was written: an optional minus sign,
      the digits before the point and the digits after it. */
  datatype FloatLexeme = FloatLexeme(negative: bool, whole: string, fraction: string)

  datatype Value = Integer(i: i64) | Float(f: FloatLexeme) | String(s: string) | Bool(b: bool)

  datatype Operator = Equals | NotEquals | Greater | GreaterOrEquals | Less | LessOrEquals

  /** The statement kinds the dispatcher can choose. */
  datatype QueryType = Select | Insert | Update | Delete | CreateTable | AlterTable

  datatype Condition = Condition(column: string, operator: Operator, value: Value)

  datatype SelectQuery = SelectQuery(columns: seq<string>, table: string, conditions: seq<Condition>)

  datatype InsertQuery = InsertQuery(columns: seq<string>, table: string, values: seq<Value>)

  datatype UpdateQuery = UpdateQuery(table: string, values: seq<(string, Value)>, conditions: seq<Condition>)

  datatype DeleteQuery = DeleteQuery(columns: seq<string>, table: string, conditions: seq<Condition>)

  datatype DataManipulationQuery =
    | Select(select: SelectQuery)
    | Insert(insert: InsertQuery)
    | Update(update: UpdateQuery)
    | Delete(delete: DeleteQuery)

  datatype Column = Column(name: string, columnType: ColumnType)

  datatype PrimaryKey = PrimaryKey(partitionKey: seq<string>, clusteringKey: seq<string>)

  datatype CreateTableQuery = CreateTableQuery(table: string, primaryKey: PrimaryKey, columns: seq<Column>)

  datatype AlterTableCondition = AddColumn(columnName: string, columnType: ColumnType) | DropColumn(columnName: string)

  datatype AlterTableQuery = AlterTableQuery(table: string, conditions: seq<AlterTableCondition>)

  datatype DropTableQuery = DropTableQuery(table: string)

  datatype DataDefinitionQuery =
    | CreateTable(createTable: CreateTableQuery)
    | AlterTable(alterTable: AlterTableQuery)
    | DropTable(dropTable: DropTableQuery)

  /** A parsed statement: data manipulation or data definition. */
  datatype Query = Manipulation(dml: DataManipulationQuery) | Definition(ddl: DataDefinitionQuery)

  /** What a statement that cannot be parsed yields: an unsupported leading
      keyword (with the whole statement), or a syntax error (with a message
      and the input that was left when the failing step ran). */
  datatype QueryParsingError = UnsupportedRequest(query: string) | QuerySyntaxError(message: string, remaining: string)

  datatype Result<+T> = Ok(value: T) | Err(error: QueryParsingError) {
    predicate IsFailure() { Err? }

    function PropagateFailure<U>(): Result<U>
      requires Err?
    {
      Err(error)
    }

    function Extract(): T
      requires Ok?
    {
      value
    }
  }

  predicate SameVariant(a: Value, b: Value) {
    (a.Integer? && b.Integer?) || (a.Float? && b.Float?) || (a.String? && b.String?) || (a.Bool? && b.Bool?)
  }

  /** The hand-written equality of `Value`: payloads are compared only when
      both sides are the same variant. Floating-point comparison is not
      modelled; `floatEq` stands for it. */
  function ValueEq(a: Value, b: Value, floatEq: (FloatLexeme, FloatLexeme) -> bool): (r: bool)
    ensures !SameVariant(a, b) ==> !r
    ensures !a.Float? ==> (r <==> a == b)
    ensures a.Float? && b.Float? ==> (r <==> floatEq(a.f, b.f))
  {
    match (a, b)
    case (Integer(x), Integer(y)) => x == y
    case (Float(x), Float(y)) => floatEq(x, y)
    case (String(x), String(y)) => x == y
    case (Bool(x), Bool(y)) => x == y
    case _ => false
  }

  /** Away from floats, `ValueEq` is an equivalence relation, as the `Eq`
      marker promises. */
  lemma ValueEqIsEquivalence(a: Value, b: Value, c: Value, floatEq: (FloatLexeme, FloatLexeme) -> bool)
    requires !a.Float? && !b.Float? && !c.Float?
    ensures ValueEq(a, a, floatEq)
    ensures ValueEq(a, b, floatEq) ==> ValueEq(b, a, floatEq)
    ensures ValueEq(a, b, floatEq) && ValueEq(b, c, floatEq) ==> ValueEq(a, c, floatEq)
  {
  }
}
