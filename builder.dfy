/** The builders the statement parsers assemble their results with. Each
    builder starts empty, gathers its parts one call at a time (a name or a
    table is set, and a later call replaces it; a list is appended to, never
    replaced), and `build` turns the parts into a query. `build` panics when
    a part it needs was never set, so it is only defined when every required
    part is present. */
module Builder {
  import opened Nom
  import opened Metadata
  import opened Ast

  /** ColumnBuilder: a column definition, by name and type. */
  class ColumnBuilder {
    var name: Option<string>
    var columnType: Option<ColumnType>

    constructor ()
      ensures name == None && columnType == None
    {
      name := None;
      columnType := None;
    }

    method Name(n: string)
      modifies this
      ensures name == Some(n) && columnType == old(columnType)
    {
      name := Some(n);
    }

    method Type(t: ColumnType)
      modifies this
      ensures columnType == Some(t) && name == old(name)
    {
      columnType := Some(t);
    }

    method Build() returns (c: Column)
      requires name.Some? && columnType.Some?
      ensures c.name == name.value && c.columnType == columnType.value
    {
      c := Column(name.value, columnType.value);
    }
  }

  /** ConditionBuilder: one condition, by column, operator and value. */
  class ConditionBuilder {
    var column: Option<string>
    var operator: Option<Operator>
    var value: Option<Value>

    constructor ()
      ensures column == None && operator == None && value == None
    {
      column := None;
      operator := None;
      value := None;
    }

    method Column(c: string)
      modifies this
      ensures column == Some(c) && operator == old(operator) && value == old(value)
    {
      column := Some(c);
    }

    method Operator(o: Operator)
      modifies this
      ensures operator == Some(o) && column == old(column) && value == old(value)
    {
      operator := Some(o);
    }

    method Value(v: Value)
      modifies this
      ensures value == Some(v) && column == old(column) && operator == old(operator)
    {
      value := Some(v);
    }

    method Build() returns (c: Condition)
      requires column.Some? && operator.Some? && value.Some?
      ensures c.column == column.value && c.operator == operator.value && c.value == value.value
    {
      c := Condition(column.value, operator.value, value.value);
    }
  }

  /** SelectQueryBuilder. */
  class SelectQueryBuilder {
    var columns: seq<string>
    var table: Option<string>
    var conditions: seq<Condition>

    constructor ()
      ensures columns == [] && table == None && conditions == []
    {
      columns := [];
      table := None;
      conditions := [];
    }

    method Column(c: string)
      modifies this
      ensures columns == old(columns) + [c]
      ensures table == old(table) && conditions == old(conditions)
    {
      columns := columns + [c];
    }

    method Columns(cs: seq<string>)
      modifies this
      ensures columns == old(columns) + cs
      ensures table == old(table) && conditions == old(conditions)
    {
      columns := columns + cs;
    }

    method Table(t: string)
      modifies this
      ensures table == Some(t)
      ensures columns == old(columns) && conditions == old(conditions)
    {
      table := Some(t);
    }

    method Condition(c: Condition)
      modifies this
      ensures conditions == old(conditions) + [c]
      ensures columns == old(columns) && table == old(table)
    {
      conditions := conditions + [c];
    }

    method Conditions(cs: seq<Condition>)
      modifies this
      ensures conditions == old(conditions) + cs
      ensures columns == old(columns) && table == old(table)
    {
      conditions := conditions + cs;
    }

    method Build() returns (q: Query)
      requires table.Some?
      ensures q.Manipulation? && q.dml.Select?
      ensures q.dml.select == SelectQuery(columns, table.value, conditions)
    {
      q := Manipulation(DataManipulationQuery.Select(SelectQuery(columns, table.value, conditions)));
    }
  }

  /** InsertQueryBuilder. */
  class InsertQueryBuilder {
    var columns: seq<string>
    var table: Option<string>
    var values: seq<Value>

    constructor ()
      ensures columns == [] && table == None && values == []
    {
      columns := [];
      table := None;
      values := [];
    }

    method Column(c: string)
      modifies this
      ensures columns == old(columns) + [c]
      ensures table == old(table) && values == old(values)
    {
      columns := columns + [c];
    }

    method Columns(cs: seq<string>)
      modifies this
      ensures columns == old(columns) + cs
      ensures table == old(table) && values == old(values)
    {
      columns := columns + cs;
    }

    method Table(t: string)
      modifies this
      ensures table == Some(t)
      ensures columns == old(columns) && values == old(values)
    {
      table := Some(t);
    }

    method Value(v: Value)
      modifies this
      ensures values == old(values) + [v]
      ensures columns == old(columns) && table == old(table)
    {
      values := values + [v];
    }

    method Values(vs: seq<Value>)
      modifies this
      ensures values == old(values) + vs
      ensures columns == old(columns) && table == old(table)
    {
      values := values + vs;
    }

    method Build() returns (q: Query)
      requires table.Some?
      ensures q.Manipulation? && q.dml.Insert?
      ensures q.dml.insert == InsertQuery(columns, table.value, values)
    {
      q := Manipulation(DataManipulationQuery.Insert(InsertQuery(columns, table.value, values)));
    }
  }

  /** UpdateQueryBuilder. */
  class UpdateQueryBuilder {
    var table: Option<string>
    var values: seq<(string, Value)>
    var conditions: seq<Condition>

    constructor ()
      ensures table == None && values == [] && conditions == []
    {
      values := [];
      table := None;
      conditions := [];
    }

    method Value(v: (string, Value))
      modifies this
      ensures values == old(values) + [v]
      ensures table == old(table) && conditions == old(conditions)
    {
      values := values + [v];
    }

    method Values(vs: seq<(string, Value)>)
      modifies this
      ensures values == old(values) + vs
      ensures table == old(table) && conditions == old(conditions)
    {
      values := values + vs;
    }

    method Table(t: string)
      modifies this
      ensures table == Some(t)
      ensures values == old(values) && conditions == old(conditions)
    {
      table := Some(t);
    }

    method Condition(c: Condition)
      modifies this
      ensures conditions == old(conditions) + [c]
      ensures table == old(table) && values == old(values)
    {
      conditions := conditions + [c];
    }

    method Conditions(cs: seq<Condition>)
      modifies this
      ensures conditions == old(conditions) + cs
      ensures table == old(table) && values == old(values)
    {
      conditions := conditions + cs;
    }

    method Build() returns (q: Query)
      requires table.Some?
      ensures q.Manipulation? && q.dml.Update?
      ensures q.dml.update == UpdateQuery(table.value, values, conditions)
    {
      q := Manipulation(DataManipulationQuery.Update(UpdateQuery(table.value, values, conditions)));
    }
  }

  /** DeleteQueryBuilder. */
  class DeleteQueryBuilder {
    var columns: seq<string>
    var table: Option<string>
    var conditions: seq<Condition>

    constructor ()
      ensures columns == [] && table == None && conditions == []
    {
      columns := [];
      table := None;
      conditions := [];
    }

    method Column(c: string)
      modifies this
      ensures columns == old(columns) + [c]
      ensures table == old(table) && conditions == old(conditions)
    {
      columns := columns + [c];
    }

    method Columns(cs: seq<string>)
      modifies this
      ensures columns == old(columns) + cs
      ensures table == old(table) && conditions == old(conditions)
    {
      columns := columns + cs;
    }

    method Table(t: string)
      modifies this
      ensures table == Some(t)
      ensures columns == old(columns) && conditions == old(conditions)
    {
      table := Some(t);
    }

    method Condition(c: Condition)
      modifies this
      ensures conditions == old(conditions) + [c]
      ensures columns == old(columns) && table == old(table)
    {
      conditions := conditions + [c];
    }

    method Conditions(cs: seq<Condition>)
      modifies this
      ensures conditions == old(conditions) + cs
      ensures columns == old(columns) && table == old(table)
    {
      conditions := conditions + cs;
    }

    method Build() returns (q: Query)
      requires table.Some?
      ensures q.Manipulation? && q.dml.Delete?
      ensures q.dml.delete == DeleteQuery(columns, table.value, conditions)
    {
      q := Manipulation(DataManipulationQuery.Delete(DeleteQuery(columns, table.value, conditions)));
    }
  }

  // ----- The builder chains the parsers run -----

  /** parse_condition: a fresh ConditionBuilder given the column, the
      operator and the value builds exactly that condition. */
  method BuildCondition(column: string, operator: Operator, value: Value) returns (c: Condition)
    ensures c == Condition(column, operator, value)
  {
    var b := new ConditionBuilder();
    b.Column(column);
    b.Operator(operator);
    b.Value(value);
    c := b.Build();
  }

  /** parse_select_query: columns, table and conditions handed over as
      lists build the SELECT statement with exactly those parts. */
  method BuildSelect(columns: seq<string>, table: string, conditions: seq<Condition>) returns (q: Query)
    ensures q == Manipulation(DataManipulationQuery.Select(SelectQuery(columns, table, conditions)))
  {
    var b := new SelectQueryBuilder();
    b.Columns(columns);
    b.Table(table);
    b.Conditions(conditions);
    q := b.Build();
  }

  /** parse_insert: the same for INSERT. */
  method BuildInsert(columns: seq<string>, table: string, values: seq<Value>) returns (q: Query)
    ensures q == Manipulation(DataManipulationQuery.Insert(InsertQuery(columns, table, values)))
  {
    var b := new InsertQueryBuilder();
    b.Columns(columns);
    b.Table(table);
    b.Values(values);
    q := b.Build();
  }

  /** parse_delete: the same for DELETE. */
  method BuildDelete(columns: seq<string>, table: string, conditions: seq<Condition>) returns (q: Query)
    ensures q == Manipulation(DataManipulationQuery.Delete(DeleteQuery(columns, table, conditions)))
  {
    var b := new DeleteQueryBuilder();
    b.Columns(columns);
    b.Table(table);
    b.Conditions(conditions);
    q := b.Build();
  }

  /** Giving a SELECT builder its columns and conditions one at a time, as
      the tests do, builds the same statement as handing them over as lists:
      appending one item is extending by a one-item list. */
  method BuildSelectOneByOne(columns: seq<string>, table: string, conditions: seq<Condition>) returns (q: Query)
    ensures q == Manipulation(DataManipulationQuery.Select(SelectQuery(columns, table, conditions)))
  {
    var b := new SelectQueryBuilder();
    var i := 0;
    while i < |columns|
      invariant 0 <= i <= |columns|
      invariant b.columns == columns[..i] && b.table == None && b.conditions == []
    {
      b.Column(columns[i]);
      assert columns[..i + 1] == columns[..i] + [columns[i]];
      i := i + 1;
    }
    assert columns[..|columns|] == columns;
    b.Table(table);
    var j := 0;
    while j < |conditions|
      invariant 0 <= j <= |conditions|
      invariant b.columns == columns && b.table == Some(table) && b.conditions == conditions[..j]
    {
      b.Condition(conditions[j]);
      assert conditions[..j + 1] == conditions[..j] + [conditions[j]];
      j := j + 1;
    }
    assert conditions[..|conditions|] == conditions;
    q := b.Build();
  }

  /** Giving an UPDATE builder its assignments one at a time builds the
      statement with those assignments in that order; a second table replaces
      the first. */
  method BuildUpdateOneByOne(first: string, table: string, values: seq<(string, Value)>, conditions: seq<Condition>)
    returns (q: Query)
    ensures q == Manipulation(DataManipulationQuery.Update(UpdateQuery(table, values, conditions)))
  {
    var b := new UpdateQueryBuilder();
    b.Table(first);
    var i := 0;
    while i < |values|
      invariant 0 <= i <= |values|
      invariant b.values == values[..i] && b.table == Some(first) && b.conditions == []
    {
      b.Value(values[i]);
      assert values[..i + 1] == values[..i] + [values[i]];
      i := i + 1;
    }
    assert values[..|values|] == values;
    b.Table(table);
    b.Conditions(conditions);
    q := b.Build();
  }
}
