# uranus query parser, modelled in Dafny

uranus reads one statement of a Cassandra-like query language and turns it
into a typed query or a typed error. This project models that parser and
proves what it does.

The parser is written with nom parser combinators. Each combinator is modelled
as a function from the input text to `Option<Parsed<T>>`, which holds the value
read and the text left over. The parts modelled are:

- **Nom and Lexer.** The nom primitives (`tag`, `tag_no_case`, `take_while1`,
  `digit1`, `multispace0`, `alt`, `separated_list0/1`), `ws`, and the lexical
  parsers. The lexical parsers read keywords, identifiers, commas, and integer,
  float, boolean and quoted-string literals.
- **Dml.** The SELECT, INSERT, UPDATE and DELETE grammars and the
  WHERE/condition grammar. They are shared by the current parser and by the
  older copy. The two differ only in how they read boolean literals, which is
  the `Dialect` parameter.
- **Ddl.** The CREATE TABLE grammar, with its lookahead that picks between the
  single-key and the composite-key form. The ALTER TABLE grammar, whose ADD
  and DROP clauses expand into lists of changes. The DROP TABLE grammar, and
  column types.
- **Dispatch.** The keyword dispatcher `parse_query`/`get_query_type`, as the
  current code writes it and as the older copy writes it. A corrected
  dispatcher behaves as the tests expect.
- **Builder.** The builders that accumulate the parts of a query, as classes
  whose methods update their fields in place.
- **Ast and Metadata.** The AST the parsers build, and the hand-written
  equality on values.

Every statement grammar has a canonical renderer as its partner. Round-trip
lemmas show that each grammar reads back what the renderer writes. Error-shape
lemmas give, for every failing step, its message and the text it reports. The
dispatch lemmas state which grammar each leading keyword selects and when a
statement is unsupported.

Two behaviours of the source are modelled as written and are not listed as
findings, because neither the tests nor the comments say which behaviour is
intended:

- Every keyword is matched on its letters alone, with no word boundary after
  it. This is how nom's `tag_no_case` works, and the grammar relies on it
  throughout. One consequence is that DELETE takes a first column whose name
  starts with the letters FROM for the FROM keyword
  (`DmlFacts.DeleteReadsFromPrefixAsKeyword`). This is treated as accepted
  behaviour of the keyword matcher.
- The CREATE TABLE lookahead looks for `PRIMARY KEY` in capitals, while every
  other keyword, the one in the single-key form included, ignores case. A
  lower-case `primary key` therefore sends a single-key definition to the
  composite form, which rejects it (`DdlFacts.LowerCasePrimaryKey`). This is a
  suspected defect. It stays out of the findings because no test writes the
  key clause in lower case.

## Model

| member | source | states |
|---|---|---|
| Nom.Multispace0 | src/query_parser/common_parser.rs:51-56 | what is left after skipping whitespace is no longer than the input and starts with no space, tab, CR or LF |
| Nom.Tag | src/query_parser/common_parser.rs:47-49 | an exact literal is read exactly when the input starts with it, and the rest is what follows it |
| Nom.TagNoCase | src/query_parser/common_parser.rs:10-12 | a literal is read exactly when the input starts with it up to letter case; the value is the input's own spelling |
| Nom.TakeWhile1 | src/query_parser/common_parser.rs:40-45 | the longest non-empty prefix whose characters all pass the test, failing only when the first one does not |
| Nom.Digit1 | src/query_parser/common_parser.rs:29-34 | the longest non-empty run of decimal digits |
| Nom.Ws | src/query_parser/common_parser.rs:51-56 | a wrapped parser runs on the input without leading whitespace, and whitespace after its result is skipped too |
| Nom.SepList1 | src/query_parser/dml_parser.rs:25-28 | one or more elements, the first being what the element parser reads first |
| Nom.SepList0 | src/query_parser/ddl_parser.rs:153-158 | no first element gives the empty list and consumes nothing; otherwise it behaves as separated_list1 |
| Nom.SepTail | src/query_parser/ddl_parser.rs:112-121 | the elements read so far are kept as the prefix of the result, and the rest never grows |
| NomFacts.SepTailSucceeds | src/query_parser/ddl_parser.rs:153-158 | the list loop cannot fail when the separator always consumes input and the element never hands back more |
| NomFacts.SepTailStops | src/query_parser/ddl_parser.rs:112-121 | the list ends before a separator whose next element fails, consuming nothing there |
| NomFacts.SepList1Reads | src/query_parser/dml_parser.rs:25-28 | a separated list reads back every element of its text, in order |
| NomFacts.SkipLeadingSpace | src/query_parser/common_parser.rs:51-56 | whitespace before a text is exactly what multispace0 skips |
| NomFacts.WsIgnoresLeadingSpace | src/query_parser/common_parser.rs:51-56 | every ws-wrapped parser gives the same result with any whitespace in front of its input |
| Ast.ValueEq | src/query_parser/query.rs:135-145 | values of different variants are never equal; integers, strings and booleans are equal exactly when their payloads are; floats defer to the float comparison |
| Ast.ValueEqIsEquivalence | src/query_parser/query.rs:133-145 | away from floats the equality is reflexive, symmetric and transitive, as the `Eq` marker claims |
| Lexer.Keyword | src/query_parser/common_parser.rs:10-12 | a keyword is read in any letter case after any whitespace, the whitespace after it is skipped, and a non-empty keyword consumes input |
| Lexer.Symbol | src/query_parser/dml_parser.rs:68-75 | an exact literal inside ws is read exactly when the text after the whitespace starts with it |
| Lexer.Comma | src/query_parser/common_parser.rs:47-49 | exactly one comma and the whitespace around it, consuming input |
| Lexer.Identifier | src/query_parser/common_parser.rs:40-45 | succeeds exactly when the first non-blank character is a letter or `_`; the name is the longest such run and nothing after it continues it |
| Lexer.NameHasNoDigits | src/query_parser/common_parser.rs:40-45 | a name read by parse_identifier holds no digit |
| Lexer.CheckedFold | src/query_parser/common_parser.rs:36-38 | the 64-bit accumulation of the digits succeeds exactly when the signed value fits in an i64, and then is that value |
| Lexer.ParseInteger | src/query_parser/common_parser.rs:36-38 | a parsed integer is an Integer value and leaves a shorter rest that starts with no whitespace |
| Lexer.FloatToken | src/query_parser/common_parser.rs:29-34 | a float lexeme has digits before and after its point; the sign is read exactly when the text starts with `-`, the text after it is the whole digits, the point, the fraction digits and the rest, and the fraction takes every digit |
| Lexer.PointToken | src/query_parser/common_parser.rs:29-34 | after the sign, the text is the whole digits, the point, the fraction digits and the rest, with digits on both sides of the point and the fraction taking every digit; `LexerFacts.FloatTokenReads` gives the read-back |
| Lexer.IntegerToken | src/query_parser/common_parser.rs:36-38 | an integer token consumes input and leaves a suffix of the text; `LexerFacts.IntegerTokenReads` and `LexerFacts.IntegerRange` give the value and the i64 range |
| Lexer.DigitsToken | src/query_parser/common_parser.rs:36-38 | the digits taken are every digit that stands first, and what is left is the text after them; `LexerFacts.IntegerTokenReads` gives the value |
| Lexer.ParseFloat | src/query_parser/common_parser.rs:29-34 | a parsed float is a Float value and leaves a shorter rest that starts with no whitespace |
| Lexer.StringToken | src/query_parser/common_parser.rs:24-27 | a quoted string is read exactly when a non-empty run of non-quote characters is closed by a quote; the body holds no quote |
| Lexer.ParseString | src/query_parser/common_parser.rs:24-27 | a parsed string is a String value and leaves a shorter rest |
| Lexer.BoolLiteral | src/query_parser/common_parser.rs:18-19 | a boolean literal yields exactly its boolean |
| Lexer.ParseValue | src/query_parser/common_parser.rs:14-22 | a parsed value leaves a shorter rest that starts with no whitespace |
| LexerFacts.KeywordIgnoresCase | src/query_parser/common_parser.rs:10-12 | a keyword spelled in any letter case is read, with its own spelling |
| LexerFacts.KeywordMismatch | src/query_parser/common_parser.rs:10-12 | a keyword fails wherever a character differs from it, letter case aside |
| LexerFacts.IdentifierReads | src/query_parser/common_parser.rs:40-45 | a name followed by a non-name character is read back whole |
| LexerFacts.FoldNegates | src/query_parser/common_parser.rs:36-38 | subtracting the digits after a minus sign gives the negation of adding them |
| LexerFacts.IntegerTokenReads | src/query_parser/common_parser.rs:36-38 | a sign and digits are read as the signed number when it fits in 64 bits, and fail otherwise |
| LexerFacts.IntegerRange | src/query_parser/common_parser.rs:36-38 | parse_integer accepts a signed digit string exactly when its value lies in the i64 range, and yields that value |
| LexerFacts.FloatTokenFails | src/query_parser/common_parser.rs:29-34 | digits with no point after them are not a float |
| LexerFacts.IntegerTokenOf | src/query_parser/common_parser.rs:14-22 | the text of every integer is read back as that integer and not as a float |
| LexerFacts.FloatTokenReads | src/query_parser/common_parser.rs:29-34 | a float's text is read back as the same lexeme, with its sign |
| LexerFacts.StringTokenReads | src/query_parser/common_parser.rs:24-27 | a quoted string with no quote inside is read back as its body |
| LexerFacts.ValueParsesAs | src/query_parser/common_parser.rs:14-22 | every value with a text reads back from it in both grammars, whatever boundary follows: the alternatives tried before the right one all fail |
| LexerFacts.DialectsAgree | src/query_processor/dml_parser.rs:359-367 | whatever the older parse_value reads, the current one reads the same way, and they differ only on booleans |
| LexerFacts.LegacyBoolIsCurrentBool | src/query_processor/dml_parser.rs:363-364 | a boolean the older grammar reads is the same boolean to the current one |
| LexerFacts.UpperCaseTrue | src/query_processor/dml_parser.rs:363-364 | `TRUE` is a boolean to the current grammar and nothing to the older one |
| LexerFacts.TenFromTheTests | src/query_processor/dml_parser.rs:452-466 | `10` is read as Integer(10) |
| LexerFacts.FloatFromTheTests | src/query_processor/dml_parser.rs:452-466 | `30.65` is read as a float |
| Dml.OperatorAs | src/query_parser/dml_parser.rs:68-75 | one operator alternative reads its literal and yields its operator |
| Dml.ParseOperator | src/query_parser/dml_parser.rs:68-75 | the operator read is one whose text stands first in the input, and what is left is what follows that text; it fails exactly when none of the six operator texts stands there |
| Dml.ParseCondition | src/query_parser/dml_parser.rs:65-86 | a read condition names its column with a name, and consumes input; which condition is read is stated by DmlFacts.ConditionParsesAs |
| Dml.ParseConditions | src/query_parser/dml_parser.rs:58-63 | without WHERE there are no conditions and nothing is consumed; after WHERE, a success holds at least one condition |
| Dml.ColumnList | src/query_parser/dml_parser.rs:25-28 | a column list is never empty, fails when no name stands first, and starts with the name that stands first |
| Dml.SelectColumns | src/query_parser/dml_parser.rs:20-29 | `*` gives no columns; otherwise the column list decides |
| Dml.ValueList | src/query_parser/dml_parser.rs:99-131 | a value list is never empty, fails when no value stands first, and starts with the value that stands first |
| Dml.Assignment | src/query_parser/dml_parser.rs:149-158 | a `column = value` pair consumes input; its column is the name that stands first, and `=` follows that name |
| Dml.AssignmentList | src/query_parser/dml_parser.rs:149-158 | the SET clause has at least one pair, fails when no pair stands first, and starts with the pair that stands first |
| Dml.Expect | src/query_parser/dml_parser.rs:15-18 | a failing step becomes exactly a syntax error with its message and the input of that step; a succeeding one passes through |
| Dml.ParseSelect | src/query_parser/dml_parser.rs:14-56 | no contract of its own: `DmlFacts.SelectRoundTrip`, `DmlFacts.SelectIgnoresTrailingText` and `DmlErrors.SelectErrors` state what it reads and which errors it reports |
| Dml.ParseInsert | src/query_parser/dml_parser.rs:88-131 | no contract of its own: `DmlFacts.InsertRoundTrip` and `DmlErrors.InsertErrors` state what it reads and which errors it reports |
| Dml.ParseUpdate | src/query_parser/dml_parser.rs:133-166 | no contract of its own: `DmlFacts.UpdateRoundTrip`, `DmlFacts.UpdateIgnoresTrailingText` and `DmlErrors.UpdateErrors` state what it reads and which errors it reports |
| Dml.DeleteColumns | src/query_parser/dml_parser.rs:174-183 | no contract of its own: FROM first for no columns, otherwise a column list and then FROM; `DmlFacts.DeleteRoundTrip`, `DmlFacts.DeleteReadsFromPrefixAsKeyword` and `DmlErrors.DeleteErrors` state it |
| Dml.ParseDelete | src/query_parser/dml_parser.rs:168-200 | no contract of its own: `DmlFacts.DeleteRoundTrip`, `DmlFacts.DeleteIgnoresTrailingText` and `DmlErrors.DeleteErrors` state what it reads and which errors it reports |
| DmlFacts.OperatorReads | src/query_parser/dml_parser.rs:68-75 | every operator reads back from its text |
| DmlFacts.GreaterOrEqualsFirst | src/query_parser/dml_parser.rs:68-75 | `>=` is never read as `>` |
| DmlFacts.LessOrEqualsFirst | src/query_parser/dml_parser.rs:68-75 | `<=` is never read as `<` |
| DmlFacts.ConditionParsesAs | src/query_parser/dml_parser.rs:65-86 | every condition reads back from its text in both grammars |
| DmlFacts.WhereReads | src/query_parser/dml_parser.rs:58-63 | a WHERE clause reads back its AND-separated conditions in source order |
| DmlFacts.NoWhereClause | src/query_parser/dml_parser.rs:58-63 | text that does not start with WHERE gives no conditions and is left as it is |
| DmlFacts.ColumnListReads | src/query_parser/dml_parser.rs:25-28 | a comma-separated list of names reads back in order |
| DmlFacts.SelectColumnsReads | src/query_parser/dml_parser.rs:20-34 | `SELECT *` reads as no columns; a list reads as its names in order |
| DmlFacts.SelectRoundTrip | src/query_parser/dml_parser.rs:14-56 | every SELECT statement reads back from its text |
| DmlFacts.InsertRoundTrip | src/query_parser/dml_parser.rs:88-131 | every INSERT statement reads back, columns and values in order; their counts need not agree |
| DmlFacts.UpdateRoundTrip | src/query_parser/dml_parser.rs:133-166 | every UPDATE statement reads back, its pairs in source order |
| DmlFacts.DeleteRoundTrip | src/query_parser/dml_parser.rs:168-200 | every DELETE statement reads back, with or without columns |
| DmlFacts.ValueListReads | src/query_parser/dml_parser.rs:99-131 | a comma-separated list of values reads back in order |
| DmlFacts.AssignmentListReads | src/query_parser/dml_parser.rs:149-158 | the SET clause reads back its pairs in order |
| DmlFacts.SelectIgnoresTrailingText | src/query_parser/dml_parser.rs:46-49 | text after the table name that does not start a WHERE clause is ignored |
| DmlFacts.UpdateIgnoresTrailingText | src/query_parser/dml_parser.rs:160-163 | text after the SET clause that neither continues it nor starts WHERE is ignored |
| DmlFacts.DeleteIgnoresTrailingText | src/query_parser/dml_parser.rs:190-193 | text after the table name that does not start WHERE is ignored |
| DmlFacts.DeleteReadsFromPrefixAsKeyword | src/query_parser/dml_parser.rs:174-183 | FROM is tried first and matched on its four letters alone, so a first column named `fromX` is taken for FROM and X for the table |
| DmlErrors.SelectErrors | src/query_parser/dml_parser.rs:14-56 | SELECT fails only with a syntax error carrying one of its five step messages; the keyword error with the whole query occurs exactly when SELECT is missing |
| DmlErrors.InsertErrors | src/query_parser/dml_parser.rs:88-131 | the same for INSERT INTO and its five steps |
| DmlErrors.UpdateErrors | src/query_parser/dml_parser.rs:133-166 | the same for UPDATE and its five steps |
| DmlErrors.DeleteErrors | src/query_parser/dml_parser.rs:168-200 | the same for DELETE, including the two errors of its column part |
| Ddl.TypeAs | src/query_parser/ddl_parser.rs:200-211 | one type alternative reads its keyword and yields its type |
| Ddl.ParseColumnType | src/query_parser/ddl_parser.rs:200-211 | a column type consumes input; the type read is one whose keyword stands first, and what is left is what follows that keyword |
| Ddl.ColumnDef | src/query_parser/ddl_parser.rs:78-109 | a column definition consumes input, and its column is named by the name that stands first |
| Ddl.SinglePkBody | src/query_parser/ddl_parser.rs:78-109 | the single form has at least one column, and its key is the first column alone with no clustering columns |
| Ddl.IsSinglePk | src/query_parser/ddl_parser.rs:74-76 | no contract of its own: `DdlFacts.SingleLooksAhead` and `DdlFacts.CompositeLooksAhead` state which form it picks, and `DdlFacts.LowerCasePrimaryKey` its letter case |
| Ddl.CompositeBody | src/query_parser/ddl_parser.rs:111-126 | no contract of its own: `DdlFacts.CompositeBodyReads` and `DdlFacts.PrimaryKeyIsNoColumn` state what it reads |
| Ddl.NestedKey | src/query_parser/ddl_parser.rs:132-137 | no contract of its own: `DdlFacts.NestedKeyReads` and `DdlFacts.NestedKeyShape` state what it reads |
| Ddl.FlatKey | src/query_parser/ddl_parser.rs:138-148 | no contract of its own: `DdlFacts.FlatKeyReads` and `DdlFacts.FlatKeyOrder` state what it reads |
| Ddl.CompositeKey | src/query_parser/ddl_parser.rs:128-151 | no contract of its own: `DdlFacts.CompositeKeyReads` and `DdlFacts.CompositeKeyShape` state what it reads, the nested layout tried first |
| Ddl.ParseCreateTable | src/query_parser/ddl_parser.rs:11-39 | no contract of its own: `DdlFacts.CreateTableRoundTrip`, `DdlFacts.CompositeCreateRoundTrip`, `DdlFacts.CreateTableShape` and `DdlFacts.CreateTableErrorShape` state what it reads and which errors it reports |
| Ddl.AddDef | src/query_parser/ddl_parser.rs:160-180 | a column definition after ADD is an AddColumn change of the column named first |
| Ddl.DropDef | src/query_parser/ddl_parser.rs:182-198 | a DropColumn change is read exactly when a name stands first; it drops that name and leaves what follows it |
| Ddl.AddClause | src/query_parser/ddl_parser.rs:160-180 | no contract of its own: `AlterFacts.ClauseReads` states that single and parenthesised ADD clauses read back |
| Ddl.DropClause | src/query_parser/ddl_parser.rs:182-198 | no contract of its own: `AlterFacts.ClauseReads` states that single and parenthesised DROP clauses read back |
| Ddl.AlterClause | src/query_parser/ddl_parser.rs:153-158 | no contract of its own: `AlterFacts.AlterClauseConsumes` and `AlterFacts.ClauseReads` state it |
| Ddl.Flatten | src/query_parser/ddl_parser.rs:156 | no contract of its own: `AlterFacts.FlattenAppend` states that it distributes over concatenation |
| Ddl.AlterConditions | src/query_parser/ddl_parser.rs:153-158 | no contract of its own: `AlterFacts.AlterConditionsSucceed` and `AlterFacts.AlterSomeClauses` state that it never fails and keeps source order |
| Ddl.ParseAlterTable | src/query_parser/ddl_parser.rs:41-58 | no contract of its own: `AlterFacts.AlterTableOutcome` and `AlterFacts.AlterTableRoundTrip` state its two errors and what it reads |
| Ddl.ParseDropTable | src/query_parser/ddl_parser.rs:60-72 | no contract of its own: `AlterFacts.DropTableOutcome` and `AlterFacts.DropTableRoundTrip` state its two errors and what it reads |
| DdlFacts.ColumnTypeIgnoresCase | src/query_parser/ddl_parser.rs:200-211 | each of the eight type keywords is read in any letter case, and no keyword tried before it matches |
| DdlFacts.FirstTypeWins | src/query_parser/ddl_parser.rs:200-211 | the type returned is the first in UUID, INT, LONG, FLOAT, DOUBLE, TIMESTAMP, TEXT, BOOL order whose keyword matches |
| DdlFacts.ColumnTypeReadsKeyword | src/query_parser/ddl_parser.rs:200-211 | the type returned is one whose keyword was read, and the parse fails exactly when no keyword stands there |
| DdlFacts.ColumnDefReads | src/query_parser/ddl_parser.rs:78-109 | a column definition reads back from its text |
| DdlFacts.PrimaryKeyIsNoColumn | src/query_parser/ddl_parser.rs:111-121 | PRIMARY KEY is not a column definition, so the column list ends before it |
| DdlFacts.SingleLooksAhead | src/query_parser/ddl_parser.rs:74-76 | is_single_pk sees the single form |
| DdlFacts.CompositeLooksAhead | src/query_parser/ddl_parser.rs:74-76 | is_single_pk does not see the composite form |
| DdlFacts.SingleBodyReads | src/query_parser/ddl_parser.rs:78-109 | the single form reads back: the key column, then the other columns in order |
| DdlFacts.FlatKeyReads | src/query_parser/ddl_parser.rs:138-147 | in the flat key the first name is the partition key and the rest are the clustering columns |
| DdlFacts.FlatKeyOrder | src/query_parser/ddl_parser.rs:138-147 | the flat key succeeds exactly when the name list does, and the partition key followed by the clustering columns is that list |
| DdlFacts.NestedKeyReads | src/query_parser/ddl_parser.rs:132-137 | in the nested key the inner names are the partition key and the names after the comma are the clustering columns |
| DdlFacts.NestedKeyShape | src/query_parser/ddl_parser.rs:132-137 | the nested key has a non-empty partition key |
| DdlFacts.CompositeKeyReads | src/query_parser/ddl_parser.rs:128-151 | parse_composite_pk reads back every key in the layout its text uses |
| DdlFacts.CompositeKeyShape | src/query_parser/ddl_parser.rs:128-151 | either layout yields a non-empty partition key |
| DdlFacts.CompositeBodyReads | src/query_parser/ddl_parser.rs:111-126 | the composite form reads back: the columns in order, then the key |
| DdlFacts.CreateTableRoundTrip | src/query_parser/ddl_parser.rs:11-39 | every table definition reads back from its text, whatever follows the closing parenthesis |
| DdlFacts.CompositeCreateRoundTrip | src/query_parser/ddl_parser.rs:246-266 | every table definition also reads back from its composite-form text, a key that is the first column alone included |
| DdlFacts.CreateTableShape | src/query_parser/ddl_parser.rs:11-39 | an accepted table has at least one column and a non-empty partition key |
| DdlFacts.CreateTableErrorShape | src/query_parser/ddl_parser.rs:11-39 | CREATE TABLE fails only with one of its step messages, reporting the whole query or, after the keyword, a shorter suffix |
| DdlFacts.CreateTableKeywordError | src/query_parser/ddl_parser.rs:11-16 | the keyword error with the whole query occurs exactly when CREATE TABLE is missing |
| DdlFacts.CreateTableBodyError | src/query_parser/ddl_parser.rs:22-32 | a failed body reports the message of the form is_single_pk chose, with the text after the table name |
| DdlFacts.LowerCasePrimaryKey | src/query_parser/ddl_parser.rs:22-32 | `primary key` in lower case sends the statement to the composite form, which rejects it, although the single form would read it |
| DdlFacts.LowerCaseComposite | src/query_parser/ddl_parser.rs:74-76 | the lookahead and the composite form both reject the lower-case key |
| DdlFacts.LowerCaseSingle | src/query_parser/ddl_parser.rs:78-109 | the single form reads the lower-case key |
| AlterFacts.AlterClauseConsumes | src/query_parser/ddl_parser.rs:153-198 | an ADD or DROP clause never hands back more input and always consumes some |
| AlterFacts.AlterConditionsSucceed | src/query_parser/ddl_parser.rs:52-55 | the clause list never fails, so the `todo!()` branch is never reached |
| AlterFacts.AlterTableOutcome | src/query_parser/ddl_parser.rs:41-58 | ALTER TABLE fails on a missing keyword or table name with those errors, and otherwise yields the table and the changes of its clause list |
| AlterFacts.ClauseReads | src/query_parser/ddl_parser.rs:160-198 | each ADD or DROP clause, with one item or a parenthesised list, reads back as its changes in order |
| AlterFacts.FlattenAppend | src/query_parser/ddl_parser.rs:153-158 | the changes of two runs of clauses are the changes of the first followed by those of the second |
| AlterFacts.AlterSomeClauses | src/query_parser/ddl_parser.rs:153-198 | the changes of several clauses are concatenated in source order |
| AlterFacts.AlterTableRoundTrip | src/query_parser/ddl_parser.rs:41-58 | every ALTER TABLE statement reads back: its table, and the changes of every clause in order |
| AlterFacts.DropTableOutcome | src/query_parser/ddl_parser.rs:60-72 | DROP TABLE fails on a missing keyword or table name with those errors, and otherwise yields the table name |
| AlterFacts.DropTableRoundTrip | src/query_parser/ddl_parser.rs:60-72 | DROP TABLE and a name read back as that name, whatever follows it |
| Dispatch.KindAs | src/query_parser/parser.rs:22-29 | one alternative yields its kind exactly when its keyword matches |
| Dispatch.GetQueryType | src/query_parser/parser.rs:21-35 | the first keyword to match in the order SELECT, INSERT INTO, UPDATE, DELETE, CREATE TABLE, ALTER TABLE decides, and the last three give Delete; with none, the error is UnsupportedRequest with the whole query |
| Dispatch.LegacyGetQueryType | src/query_processor/dml_parser.rs:165-177 | the same with only the four DML keywords |
| Dispatch.IntendedRoute | src/query_parser/parser.rs:21-35 | the corrected classifier agrees with get_query_type on DML statements, and sends CREATE TABLE, ALTER TABLE and DROP TABLE to their own grammars |
| Dispatch.ParseQuery | src/query_parser/parser.rs:8-19 | no contract of its own: `DispatchFacts.SelectRoute` and its three siblings, `DispatchFacts.UnsupportedExactly`, `DispatchFacts.QueryRoundTrips` and `DispatchFacts.CreateTableMisrouted` state it |
| Dispatch.LegacyParseQuery | src/query_processor/dml_parser.rs:154-163 | no contract of its own: `DispatchFacts.LegacySelectRoute` and its three siblings, `DispatchFacts.LegacyUnsupportedExactly` and `DispatchFacts.LegacyRoundTrips` state it |
| Dispatch.IntendedParseQuery | src/query_parser/parser.rs:8-19 | no contract of its own: `DispatchFacts.IntendedAgrees`, `DispatchFacts.IntendedCreateRoute`, `DispatchFacts.IntendedRoundTrips` and `DispatchFacts.IntendedUnsupportedExactly` state it |
| DispatchFacts.SelectRoute | src/query_parser/parser.rs:8-19 | a statement that starts with SELECT goes, whole, to the SELECT grammar |
| DispatchFacts.InsertRoute | src/query_parser/parser.rs:8-19 | the same for INSERT INTO |
| DispatchFacts.UpdateRoute | src/query_parser/parser.rs:8-19 | the same for UPDATE |
| DispatchFacts.DeleteRoute | src/query_parser/parser.rs:8-19 | the same for DELETE |
| DispatchFacts.LegacySelectRoute | src/query_processor/dml_parser.rs:154-163 | the older dispatcher sends SELECT statements, whole, to its SELECT grammar |
| DispatchFacts.LegacyInsertRoute | src/query_processor/dml_parser.rs:154-163 | the same for INSERT INTO |
| DispatchFacts.LegacyUpdateRoute | src/query_processor/dml_parser.rs:154-163 | the same for UPDATE |
| DispatchFacts.LegacyDeleteRoute | src/query_processor/dml_parser.rs:154-163 | the same for DELETE |
| DispatchFacts.UnsupportedExactly | src/query_parser/parser.rs:31-34 | parse_query reports an unsupported request, with the unmodified query, exactly when none of its six keywords starts the statement |
| DispatchFacts.LegacyUnsupportedExactly | src/query_processor/dml_parser.rs:165-177 | the older parse_query does so exactly when none of the four DML keywords starts it |
| DispatchFacts.InsertWithoutInto | src/query_parser/parser.rs:24 | INSERT not followed by INTO is unsupported to both dispatchers |
| DispatchFacts.QueryRoundTrips | src/query_parser/parser.rs:8-19 | every rendered SELECT, INSERT, UPDATE and DELETE statement reads back through parse_query |
| DispatchFacts.LegacyRoundTrips | src/query_processor/dml_parser.rs:154-163 | the same through the older parse_query |
| DispatchFacts.CreateTableMisrouted | src/query_parser/parser.rs:27 | every CREATE TABLE statement fails with the DELETE keyword error |
| DispatchFacts.AlterTableMisrouted | src/query_parser/parser.rs:28 | every ALTER TABLE statement fails with the DELETE keyword error |
| DispatchFacts.DropTableUnsupported | src/query_parser/parser.rs:22-29 | every DROP TABLE statement is an unsupported request |
| DispatchFacts.CreateTableRejected | src/query_parser/parser.rs:27 | every rendered table definition is read by its own grammar and rejected by parse_query |
| DispatchFacts.AlterTableRejected | src/query_parser/parser.rs:28 | every rendered ALTER TABLE statement is read by its own grammar and rejected by parse_query |
| DispatchFacts.DropTableRejected | src/query_parser/parser.rs:22-29 | every DROP TABLE statement is read by its own grammar and unsupported to parse_query |
| DispatchFacts.IntendedAgrees | src/query_parser/parser.rs:8-19 | the corrected parse_query agrees with parse_query on every DML statement |
| DispatchFacts.IntendedCreateRoute | src/query_parser/ddl_parser.rs:344-346 | the corrected parse_query sends CREATE TABLE statements, whole, to their grammar |
| DispatchFacts.IntendedAlterRoute | src/query_parser/ddl_parser.rs:421-423 | the same for ALTER TABLE |
| DispatchFacts.IntendedDropRoute | src/query_parser/ddl_parser.rs:428-432 | the same for DROP TABLE |
| DispatchFacts.IntendedRoundTrips | src/query_parser/ddl_parser.rs:219-433 | every rendered CREATE, ALTER and DROP TABLE statement reads back through the corrected parse_query |
| DispatchFacts.IntendedUnsupportedExactly | src/query_parser/parser.rs:31-34 | the corrected parse_query reports an unsupported request exactly when none of its seven keywords starts the statement |
| Builder.ColumnBuilder.constructor | src/query_parser/builder.rs:38-45 | a new column builder has neither name nor type |
| Builder.ColumnBuilder.Name | src/query_parser/builder.rs:46-50 | sets the name and keeps the type |
| Builder.ColumnBuilder.Type | src/query_parser/builder.rs:52-56 | sets the type and keeps the name |
| Builder.ColumnBuilder.Build | src/query_parser/builder.rs:58-64 | needs both parts, and the column carries exactly them |
| Builder.ConditionBuilder.constructor | src/query_parser/builder.rs:268-276 | a new condition builder has no part set |
| Builder.ConditionBuilder.Column | src/query_parser/builder.rs:277-281 | sets the column and keeps the other parts |
| Builder.ConditionBuilder.Operator | src/query_parser/builder.rs:283-287 | sets the operator and keeps the other parts |
| Builder.ConditionBuilder.Value | src/query_parser/builder.rs:289-293 | sets the value and keeps the other parts |
| Builder.ConditionBuilder.Build | src/query_parser/builder.rs:295-302 | needs all three parts, and the condition carries exactly them |
| Builder.SelectQueryBuilder.constructor | src/query_parser/builder.rs:68-75 | a new builder has no columns, no table and no conditions |
| Builder.SelectQueryBuilder.Column | src/query_parser/builder.rs:77-81 | appends exactly one column at the end and changes nothing else |
| Builder.SelectQueryBuilder.Columns | src/query_parser/builder.rs:83-87 | appends all the columns in order after those already there |
| Builder.SelectQueryBuilder.Table | src/query_parser/builder.rs:89-93 | sets the table, replacing any earlier one |
| Builder.SelectQueryBuilder.Condition | src/query_parser/builder.rs:95-99 | appends exactly one condition at the end |
| Builder.SelectQueryBuilder.Conditions | src/query_parser/builder.rs:101-105 | appends all the conditions in order after those already there |
| Builder.SelectQueryBuilder.Build | src/query_parser/builder.rs:107-114 | needs a table, and the SELECT carries exactly the accumulated parts |
| Builder.InsertQueryBuilder.constructor | src/query_parser/builder.rs:118-126 | a new builder has no columns, no table and no values |
| Builder.InsertQueryBuilder.Column | src/query_parser/builder.rs:127-131 | appends exactly one column |
| Builder.InsertQueryBuilder.Columns | src/query_parser/builder.rs:133-137 | appends all the columns in order |
| Builder.InsertQueryBuilder.Table | src/query_parser/builder.rs:139-143 | sets the table, replacing any earlier one |
| Builder.InsertQueryBuilder.Value | src/query_parser/builder.rs:145-149 | appends exactly one value |
| Builder.InsertQueryBuilder.Values | src/query_parser/builder.rs:151-155 | appends all the values in order |
| Builder.InsertQueryBuilder.Build | src/query_parser/builder.rs:157-164 | needs a table, and the INSERT carries exactly the accumulated parts |
| Builder.UpdateQueryBuilder.constructor | src/query_parser/builder.rs:168-176 | a new builder has no table, no pairs and no conditions |
| Builder.UpdateQueryBuilder.Value | src/query_parser/builder.rs:177-181 | appends exactly one (column, value) pair |
| Builder.UpdateQueryBuilder.Values | src/query_parser/builder.rs:183-187 | appends all the pairs in order |
| Builder.UpdateQueryBuilder.Table | src/query_parser/builder.rs:189-193 | sets the table, replacing any earlier one |
| Builder.UpdateQueryBuilder.Condition | src/query_parser/builder.rs:195-199 | appends exactly one condition |
| Builder.UpdateQueryBuilder.Conditions | src/query_parser/builder.rs:201-205 | appends all the conditions in order |
| Builder.UpdateQueryBuilder.Build | src/query_parser/builder.rs:207-214 | needs a table, and the UPDATE carries exactly the accumulated parts |
| Builder.DeleteQueryBuilder.constructor | src/query_parser/builder.rs:218-226 | a new builder has no columns, no table and no conditions |
| Builder.DeleteQueryBuilder.Column | src/query_parser/builder.rs:227-231 | appends exactly one column |
| Builder.DeleteQueryBuilder.Columns | src/query_parser/builder.rs:233-237 | appends all the columns in order |
| Builder.DeleteQueryBuilder.Table | src/query_parser/builder.rs:239-243 | sets the table, replacing any earlier one |
| Builder.DeleteQueryBuilder.Condition | src/query_parser/builder.rs:245-249 | appends exactly one condition |
| Builder.DeleteQueryBuilder.Conditions | src/query_parser/builder.rs:251-255 | appends all the conditions in order |
| Builder.DeleteQueryBuilder.Build | src/query_parser/builder.rs:257-264 | needs a table, and the DELETE carries exactly the accumulated parts |
| Builder.BuildCondition | src/query_parser/dml_parser.rs:79-83 | the builder chain of parse_condition builds exactly the condition it was given |
| Builder.BuildSelect | src/query_parser/dml_parser.rs:51-55 | the builder chain of parse_select_query sets the table before `build`, so it never panics, and builds exactly the parts read |
| Builder.BuildInsert | src/query_parser/dml_parser.rs:126-130 | the same for parse_insert |
| Builder.BuildDelete | src/query_parser/dml_parser.rs:195-199 | the same for parse_delete |
| Builder.BuildSelectOneByOne | src/query_parser/dml_parser.rs:242-262 | giving the columns and conditions one at a time, as the tests do, builds the same SELECT as giving them as lists |
| Builder.BuildUpdateOneByOne | src/query_parser/dml_parser.rs:306-320 | giving the pairs one at a time keeps them in order, and a second table replaces the first |

## Left out

- Floating point: `s.parse::<f64>()` and `f64::eq` are not modelled. A float is kept as its lexeme (sign, whole digits, fraction digits), and `Ast.ValueEq` takes the float comparison as a parameter.
- Unicode: `char::is_alphabetic` is modelled as ASCII letters, and `tag_no_case` as ASCII case folding.
- nom error kinds, positions and the Error/Failure distinction are collapsed into one failure (`None`). The text a failing step was given is kept wherever the source puts it into QuerySyntaxError.
- src/query_parser/keyword.rs is not part of this model. The keyword spellings come from the older copy (src/query_processor/dml_parser.rs:12-22) and the test statements: SELECT, INSERT INTO, UPDATE, DELETE, FROM, WHERE, AND, SET, VALUES, CREATE TABLE, ALTER TABLE, DROP TABLE, PRIMARY KEY, ADD, DROP, TRUE, FALSE and the eight type names.
- src/query_parser/query.rs (lines 3-9) does not match the shape the parsers build. The model follows the parsers: `Query` is either a data-manipulation or a data-definition query. The older copy's own `Query` is `DataManipulationQuery`. Struct constructors are Dafny datatype constructors.
- src/query_parser/error.rs and the older copy's `Display` implementation only format messages and are not modelled.
- Memory ownership (`to_string`, `clone`, moves of `self` through the builder chain) is not modelled. A builder is one object updated in place. A `build` call that would panic on a missing part is modelled as a precondition of `Build`.
- The `todo!()` of parse_alter_table_query is modelled as an error result with the message "not yet implemented". `AlterFacts.AlterConditionsSucceed` proves that this branch is never reached.
- Nom.SepTail: an element parser that hands back more input than it was given makes the list fail. nom's own parsers never do this, and every parser of the model is proved not to. The rule keeps the loop finite for arbitrary functions.
- The round-trip lemmas are stated for the canonical text of each statement: single spaces between words, `, ` between list items, ASCII names, non-empty strings without quotes, and floats with digits on both sides of the point. Whitespace variants are covered separately by `NomFacts.WsIgnoresLeadingSpace` and `LexerFacts.KeywordIgnoresCase`.
- DmlFacts.DeleteRoundTrip: stated only for column lists whose first name does not begin with the letters FROM. The source reads those letters as the FROM keyword, as `DmlFacts.DeleteReadsFromPrefixAsKeyword` shows.
- Lexer.ParseValue, Lexer.ParseInteger, Lexer.ParseFloat, Lexer.ParseString: their own contracts state only what kind of value they yield and that they consume input. What they read is stated by `LexerFacts.ValueParsesAs`, `LexerFacts.IntegerRange` and the token lemmas.
- IntegerToken, DigitsToken: their own contracts fix the text consumed, not the value read. `LexerFacts.IntegerTokenReads` and `LexerFacts.IntegerRange` state the value.
- FloatToken: its own contract fixes the text the lexeme was read from, but not that a given lexeme is read back from its text. `LexerFacts.FloatTokenReads` states that.
- ParseOperator: its own contract says that an operator whose text stands first is read, but not which one when two texts stand there (`>=` and `>`). `DmlFacts.OperatorReads`, `DmlFacts.GreaterOrEqualsFirst` and `DmlFacts.LessOrEqualsFirst` state that.
- ParseCondition: its own contract gives only the shape of the result. The condition read is stated by `DmlFacts.ConditionParsesAs`. The column and operator are left to that lemma, since in the contract they weigh on every proof that reads a condition.
- ParseConditions: its own contract gives only the shape of the WHERE case. The conditions read are stated by `DmlFacts.WhereReads`.
- ColumnList: its own contract gives the first name only. The whole list is stated by `DmlFacts.ColumnListReads`.
- ValueList: its own contract gives the first value only. The whole list is stated by `DmlFacts.ValueListReads`.
- Assignment: its own contract gives the column, not the value. The pair read is stated by `DmlFacts.AssignmentReads`.
- AssignmentList: its own contract gives the first pair only. The whole list is stated by `DmlFacts.AssignmentListReads`.
- ParseColumnType: its own contract says that a type whose keyword stands first is read, but not which one when several would match, nor that a failure means no keyword stands there. `DdlFacts.FirstTypeWins`, `DdlFacts.ColumnTypeReadsKeyword` and `DdlFacts.ColumnTypeIgnoresCase` state those.
- ColumnDef: its own contract gives the name, not the type. The column read is stated by `DdlFacts.ColumnDefReads`. The type is left to that lemma, since in the contract it weighs on every proof that reads a column definition.
- AddDef: its own contract gives the name of the added column, not its type. The change read is stated by `AlterFacts.AddDefReads`.

## Findings

| source | as written | input that shows it | evidently intended | confidence | as-written member | corrected member |
|---|---|---|---|---|---|---|
| src/query_parser/parser.rs:27-28 | get_query_type classifies CREATE TABLE and ALTER TABLE as `QueryType::Delete`, so parse_delete rejects them at its keyword | `CREATE TABLE products (title TEXT PRIMARY KEY, price DOUBLE, quantity INT)` gives QuerySyntaxError("an error occurred while parsing delete keyword", the whole statement) | `QueryType::CreateTable` and `QueryType::AlterTable`, as the tests at src/query_parser/ddl_parser.rs:344-346 and :421-423 expect | not executed | DispatchFacts.CreateTableRejected | DispatchFacts.IntendedRoundTrips |
| src/query_parser/parser.rs:22-29 | get_query_type has no DROP TABLE alternative, so a DROP TABLE statement is an unsupported request although parse_drop_table_query reads it | `DROP TABLE persons` gives UnsupportedRequest("DROP TABLE persons") | the statement reaches parse_drop_table_query, as the test at src/query_parser/ddl_parser.rs:428-432 expects | not executed | DispatchFacts.DropTableRejected | DispatchFacts.IntendedDropRoute |
