/** What the data-definition grammar promises: every column type keyword
    reads in any letter case, CREATE TABLE, ALTER TABLE and DROP TABLE read
    back from their canonical texts, a created table always has a column and
    a partition key, and the clause list of ALTER TABLE never fails. */
module DdlFacts {
  import opened Nom
  import opened NomFacts
  import opened Metadata
  import opened Ast
  import opened Lexer
  import opened LexerFacts
  import opened Dml
  import opened DmlFacts
  import opened Ddl

  // ----- column types -----

  /** A word spelling a type keyword starts with a letter. */
  lemma TypeWordStarts(t: ColumnType, a: string)
    requires EqualsNoCase(a, TypeName(t))
    ensures StartsWord(a) && IsAlpha(a[0])
  {
    assert Lower(a[0]) == Lower(TypeName(t)[0]);
  }

  /** A type keyword is read where it stands. */
  lemma TypeHits(t: ColumnType, a: string, f: string)
    requires EqualsNoCase(a, TypeName(t))
    ensures TypeAs(t, a + f) == Some(Parsed(t, Multispace0(f)))
  {
    TypeWordStarts(t, a);
    KeywordIgnoresCase(TypeName(t), a, f);
  }

  /** Another type's keyword is not read where the letters differ at `i`. */
  lemma TypeMisses(e: ColumnType, a: string, f: string, i: nat)
    requires StartsWord(a) && i < |a| && i < |TypeName(e)| && Lower(a[i]) != Lower(TypeName(e)[i])
    ensures TypeAs(e, a + f).None?
  {
    WordThen(a, f);
    SkipNothing(a + f);
    assert (a + f)[i] == a[i];
    KeywordMismatch(TypeName(e), a + f, i);
  }

  /** The position of each type in the order parse_column_type tries them. */
  function Rank(t: ColumnType): nat {
    match t
    case Uuid => 0
    case Int => 1
    case Long => 2
    case Float => 3
    case Double => 4
    case Timestamp => 5
    case Text => 6
    case Bool => 7
  }

  /** The first type whose keyword is read is the one parse_column_type returns. */
  lemma FirstTypeWins(s: string, t: ColumnType)
    requires TypeAs(t, s).Some?
    requires forall e :: Rank(e) < Rank(t) ==> TypeAs(e, s).None?
    ensures ParseColumnType(s) == TypeAs(t, s)
  {
    assert TypeAs(Uuid, s).None? || t == Uuid;
    assert TypeAs(Int, s).None? || Rank(t) <= 1;
    assert TypeAs(Long, s).None? || Rank(t) <= 2;
    assert TypeAs(ColumnType.Float, s).None? || Rank(t) <= 3;
    assert TypeAs(Double, s).None? || Rank(t) <= 4;
    assert TypeAs(Timestamp, s).None? || Rank(t) <= 5;
    assert TypeAs(Text, s).None? || Rank(t) <= 6;
  }

  /** No two type keywords agree, letter case aside, on their first two letters. */
  lemma EarlierTypesMiss(t: ColumnType, a: string, f: string)
    requires EqualsNoCase(a, TypeName(t))
    ensures forall e :: Rank(e) < Rank(t) ==> TypeAs(e, a + f).None?
  {
    TypeWordStarts(t, a);
    forall e | Rank(e) < Rank(t)
      ensures TypeAs(e, a + f).None?
    {
      var i := if e == Timestamp then 1 else 0;
      assert Lower(a[i]) == Lower(TypeName(t)[i]);
      TypeMisses(e, a, f, i);
    }
  }

  /** parse_column_type reads every type keyword, in any letter case: no
      keyword tried before it matches. */
  lemma ColumnTypeIgnoresCase(t: ColumnType, a: string, f: string)
    requires EqualsNoCase(a, TypeName(t))
    ensures ParseColumnType(a + f) == Some(Parsed(t, Multispace0(f)))
  {
    TypeHits(t, a, f);
    EarlierTypesMiss(t, a, f);
    FirstTypeWins(a + f, t);
  }

  /** What parse_column_type returns is the type whose keyword it read,
      and it fails only where no type keyword stands. */
  lemma ColumnTypeReadsKeyword(s: string)
    ensures ParseColumnType(s).Some? ==> TypeAs(ParseColumnType(s).value.value, s) == ParseColumnType(s)
    ensures ParseColumnType(s).None? <==> forall t :: TypeAs(t, s).None?
  {
    if ParseColumnType(s).None? {
      forall t ensures TypeAs(t, s).None? {
        match t
        case Uuid => case Int => case Long => case Float => case Double => case Timestamp => case Text => case Bool =>
      }
    }
  }

  /** Text whose first letter starts no type keyword holds no column type. */
  lemma NoTypeAt(s: string)
    requires StartsWord(s) && !(Lower(s[0]) in {'u', 'i', 'l', 'f', 'd', 't', 'b'})
    ensures ParseColumnType(s).None?
  {
    assert s == s + [];
    TypeMisses(Uuid, s, [], 0);
    TypeMisses(Int, s, [], 0);
    TypeMisses(Long, s, [], 0);
    TypeMisses(ColumnType.Float, s, [], 0);
    TypeMisses(Double, s, [], 0);
    TypeMisses(Timestamp, s, [], 0);
    TypeMisses(Text, s, [], 0);
    TypeMisses(ColumnType.Bool, s, [], 0);
  }

  /** `ws(parse_keyword(k))`, as the statement parsers write it, is
      `parse_keyword(k)`: the keyword already skips the whitespace around it. */
  lemma WsKeyword(kw: string, s: string)
    ensures Ws(t => Keyword(kw, t), s) == Keyword(kw, s)
  {
    SkipNothing(Multispace0(s));
    var r := Keyword(kw, s);
    if r.Some? {
      SkipNothing(r.value.rest);
    }
  }

  // ----- column definitions -----

  predicate ColumnsNamed(cs: seq<Column>) {
    forall i :: 0 <= i < |cs| ==> IsName(cs[i].name)
  }

  /** A column definition's canonical text: its name, a space and its type keyword. */
  function ColumnDefText(c: Column): string
    requires IsName(c.name)
  {
    c.name + (" " + TypeName(c.columnType))
  }

  /** A column definition reads back from its text. */
  lemma ColumnDefReads(c: Column, f: string)
    requires IsName(c.name)
    ensures ColumnDef(ColumnDefText(c) + f) == Some(Parsed(c, Multispace0(f)))
    ensures StartsWord(ColumnDefText(c))
  {
    var w := TypeName(c.columnType);
    assert EqualsNoCase(w, w);
    TypeWordStarts(c.columnType, w);
    WordThen(w, f);
    assert ColumnDefText(c) + f == c.name + (" " + (w + f));
    NameThenSpace(c.name, w + f);
    ColumnTypeIgnoresCase(c.columnType, w, f);
    NameStartsWord(c.name, " " + w, ColumnDefText(c));
  }

  lemma ColumnDefParsesAs(c: Column)
    requires IsName(c.name)
    ensures ParsesAs(ColumnDef, ColumnDefText(c), c) && StartsWord(ColumnDefText(c))
  {
    forall f | AtBoundary(f)
      ensures ColumnDef(ColumnDefText(c) + f) == Some(Parsed(c, Multispace0(f)))
    {
      ColumnDefReads(c, f);
    }
    ColumnDefReads(c, []);
  }

  function ColumnDefTexts(cs: seq<Column>): (ts: seq<string>)
    requires ColumnsNamed(cs)
    ensures |ts| == |cs|
  {
    seq(|cs|, i requires 0 <= i < |cs| => ColumnDefText(cs[i]))
  }

  lemma ColumnDefsParseAs(cs: seq<Column>)
    requires ColumnsNamed(cs)
    ensures ElementsRead(ColumnDef, ColumnDefTexts(cs), cs)
  {
    var ts := ColumnDefTexts(cs);
    forall i | 0 <= i < |cs|
      ensures ParsesAs(ColumnDef, ts[i], cs[i]) && StartsWord(ts[i])
    {
      ColumnDefParsesAs(cs[i]);
    }
  }

  /** Column definitions separated by `, `. */
  function ColumnsText(cs: seq<Column>): string
    requires ColumnsNamed(cs) && |cs| >= 1
  {
    Join(ColumnDefTexts(cs), ", ")
  }

  /** A list of column definitions reads back in order, up to a text that
      does not go on with another definition. */
  lemma ColumnsReads(cs: seq<Column>, rest: string)
    requires ColumnsNamed(cs) && |cs| >= 1
    requires AtBoundary(rest) && ListEnds(Comma, ColumnDef, Multispace0(rest))
    ensures SepList1(Comma, ColumnDef, ColumnsText(cs) + rest) == Some(Parsed(cs, Multispace0(rest)))
  {
    ColumnDefsParseAs(cs);
    CommaSeparates();
    SepList1Reads(Comma, ColumnDef, ColumnDefTexts(cs), cs, ", ", rest);
  }

  /** The list of definitions starts with the first one. */
  lemma ColumnsTextStarts(cs: seq<Column>, x: string)
    requires ColumnsNamed(cs) && |cs| >= 1
    ensures ColumnsText(cs) + x == ColumnDefText(cs[0]) + (Interleave(ColumnDefTexts(cs)[1..], ", ") + x)
    ensures StartsWord(ColumnsText(cs) + x) && StartsWord(ColumnsText(cs))
  {
    ColumnDefStarts(cs[0]);
    JoinStarts(ColumnDefTexts(cs), ", ", x);
  }

  lemma ColumnDefStarts(c: Column)
    requires IsName(c.name)
    ensures StartsWord(ColumnDefText(c))
  {
    NameStartsWord(c.name, " " + TypeName(c.columnType), ColumnDefText(c));
  }

  /** A joined list starts with its first text. */
  lemma JoinStarts(ts: seq<string>, st: string, x: string)
    requires |ts| >= 1 && StartsWord(ts[0])
    ensures Join(ts, st) + x == ts[0] + (Interleave(ts[1..], st) + x)
    ensures StartsWord(Join(ts, st) + x) && StartsWord(Join(ts, st))
  {
    WordThen(ts[0], Interleave(ts[1..], st) + x);
    WordThen(ts[0], Interleave(ts[1..], st));
  }

  /** A list of definitions is followed, after the first, by a comma or by `x`. */
  lemma AfterFirstColumn(cs: seq<Column>, x: string)
    requires ColumnsNamed(cs) && |cs| >= 1 && |x| > 0 && x[0] == ','
    ensures var w := Interleave(ColumnDefTexts(cs)[1..], ", ") + x; |w| > 0 && w[0] == ','
  {
    var ts := ColumnDefTexts(cs)[1..];
    if ts != [] {
      assert Interleave(ts, ", ") == ", " + ts[0] + Interleave(ts[1..], ", ");
    }
  }

  /** PRIMARY KEY is not a column definition: KEY is no type keyword. */
  lemma PrimaryKeyIsNoColumn(u: string)
    ensures ColumnDef("PRIMARY KEY" + u).None?
  {
    var k := "KEY" + u;
    WordThen("KEY", u);
    assert "PRIMARY KEY" + u == "PRIMARY" + (" " + k);
    NameThenSpace("PRIMARY", k);
    NoTypeAt(k);
  }

  // ----- CREATE TABLE -----

  /** `delimited(ws(tag("(")), p, ws(tag(")")))` over a parenthesised text. */
  lemma InParensReads<T>(p: Parser<T>, j: string, x: T, g: string)
    requires StartsWord(j) && p(j + (")" + g)) == Some(Parsed(x, ")" + g))
    ensures InParens(p, "(" + (j + (")" + g))) == Some(Parsed(x, Multispace0(g)))
  {
    WordThen(j, ")" + g);
    SkipNothing(j + (")" + g));
    SymbolReads("(", j + (")" + g));
    SymbolReads(")", g);
  }

  /** The columns after the key column of the single form: nothing, or a
      comma and their definitions. */
  function OthersText(os: seq<Column>): string
    requires ColumnsNamed(os)
  {
    if os == [] then "" else ", " + ColumnsText(os)
  }

  /** `name TYPE PRIMARY KEY, other TYPE, ...` */
  function SingleBody(cols: seq<Column>): string
    requires ColumnsNamed(cols) && |cols| >= 1
  {
    ColumnDefText(cols[0]) + (" " + ("PRIMARY KEY" + OthersText(cols[1..])))
  }

  /** What follows PRIMARY KEY in the single form when the key column is the only one. */
  ghost predicate OthersEnd(o: string, os: seq<Column>, r: string) {
    && |o| > 0 && (o[0] == ',' || o[0] == ')') && Multispace0(o) == o
    && SepList0(Comma, ColumnDef, match Comma(o) case Some(c) => c.rest case None => o) == Some(Parsed(os, r))
  }

  /** The columns after PRIMARY KEY, with the optional comma before them. */
  lemma OthersRead(os: seq<Column>, g: string)
    requires ColumnsNamed(os)
    ensures OthersEnd(OthersText(os) + (")" + g), os, ")" + g)
  {
    if os == [] {
      assert OthersText(os) + (")" + g) == ")" + g;
      NoOthers(")" + g);
    } else {
      OthersTextThen(os, g);
      SomeOthers(os, g, ColumnsText(os) + (")" + g), OthersText(os) + (")" + g));
    }
  }

  lemma OthersTextThen(os: seq<Column>, g: string)
    requires ColumnsNamed(os) && os != []
    ensures OthersText(os) + (")" + g) == "," + (" " + (ColumnsText(os) + (")" + g)))
  {
  }

  lemma NoOthers(o: string)
    requires |o| > 0 && o[0] == ')'
    ensures OthersEnd(o, [], o)
  {
    ParenCloses(o);
    NoNameAt(o);
    assert ColumnDef(o).None?;
  }

  lemma SomeOthers(os: seq<Column>, g: string, u: string, o: string)
    requires ColumnsNamed(os) && |os| >= 1
    requires u == ColumnsText(os) + (")" + g) && o == "," + (" " + u)
    ensures OthersEnd(o, os, ")" + g)
  {
    ParenCloses(")" + g);
    ColumnsTextStarts(os, ")" + g);
    SkipNothing(o);
    SymbolThenSpace(",", u);
    ColumnsReads(os, ")" + g);
  }

  /** parse_create_table_with_single_pk from the results of its steps. */
  lemma SinglePkOf(s: string, c: Column, p: string, kw: string, o: string, os: seq<Column>, r: string)
    requires ColumnDef(s) == Some(Parsed(c, p))
    requires Keyword("PRIMARY KEY", p) == Some(Parsed(kw, o))
    requires SepList0(Comma, ColumnDef, match Comma(o) case Some(c) => c.rest case None => o) == Some(Parsed(os, r))
    ensures SinglePkBody(s) == Some(Parsed(([c] + os, PrimaryKey([c.name], [])), r))
  {
  }

  /** A column definition and a space before a word. */
  lemma ColumnThenSpace(c: Column, p: string)
    requires IsName(c.name) && StartsWord(p)
    ensures ColumnDef(ColumnDefText(c) + (" " + p)) == Some(Parsed(c, p))
  {
    ColumnDefReads(c, " " + p);
    SpaceThenWord(p);
  }

  /** PRIMARY KEY before a text that starts with no whitespace. */
  lemma PrimaryKeyThen(o: string, p: string)
    requires Multispace0(o) == o && p == "PRIMARY KEY" + o
    ensures StartsWord(p)
    ensures Keyword("PRIMARY KEY", p) == Some(Parsed("PRIMARY KEY", o))
    ensures Symbol("PRIMARY KEY", p) == Some(Parsed("PRIMARY KEY", o))
  {
    PrimaryKeyStarts(o, p);
    PrimaryKeyKeyword(o, p);
    PrimaryKeySymbol(o, p);
  }

  lemma PrimaryKeyStarts(o: string, p: string)
    requires Multispace0(o) == o && p == "PRIMARY KEY" + o
    ensures StartsWord(p)
  {
    assert StartsWord("PRIMARY KEY");
    WordReads("PRIMARY KEY", o, p);
  }

  lemma PrimaryKeyKeyword(o: string, p: string)
    requires Multispace0(o) == o && p == "PRIMARY KEY" + o
    ensures Keyword("PRIMARY KEY", p) == Some(Parsed("PRIMARY KEY", o))
  {
    assert StartsWord("PRIMARY KEY");
    WordReads("PRIMARY KEY", o, p);
  }

  lemma PrimaryKeySymbol(o: string, p: string)
    requires Multispace0(o) == o && p == "PRIMARY KEY" + o
    ensures Symbol("PRIMARY KEY", p) == Some(Parsed("PRIMARY KEY", o))
  {
    assert StartsWord("PRIMARY KEY");
    WordReads("PRIMARY KEY", o, p);
  }

  /** A word read both as a keyword and as a symbol. */
  lemma WordReads(w: string, o: string, p: string)
    requires StartsWord(w) && Multispace0(o) == o && p == w + o
    ensures StartsWord(p)
    ensures Keyword(w, p) == Some(Parsed(w, o))
    ensures Symbol(w, p) == Some(Parsed(w, o))
  {
    WordThen(w, o);
    KeywordReads(w, o);
    SymbolReads(w, o);
  }

  lemma SingleBodyThen(cols: seq<Column>, g: string)
    requires ColumnsNamed(cols) && |cols| >= 1
    ensures SingleBody(cols) + (")" + g) == ColumnDefText(cols[0]) + (" " + ("PRIMARY KEY" + (OthersText(cols[1..]) + (")" + g))))
  {
  }

  lemma SingleBodyStarts(cols: seq<Column>)
    requires ColumnsNamed(cols) && |cols| >= 1
    ensures StartsWord(SingleBody(cols))
  {
    ColumnDefStarts(cols[0]);
    WordThen(ColumnDefText(cols[0]), " " + ("PRIMARY KEY" + OthersText(cols[1..])));
  }

  /** The single form reads back: the key column, then the others. */
  lemma SingleBodyReads(cols: seq<Column>, g: string)
    requires ColumnsNamed(cols) && |cols| >= 1
    ensures SinglePkBody(SingleBody(cols) + (")" + g)) == Some(Parsed((cols, PrimaryKey([cols[0].name], [])), ")" + g))
    ensures StartsWord(SingleBody(cols))
  {
    var o := OthersText(cols[1..]) + (")" + g);
    var p := "PRIMARY KEY" + o;
    SingleBodyThen(cols, g);
    SingleBodyStarts(cols);
    OthersRead(cols[1..], g);
    PrimaryKeyThen(o, p);
    ColumnThenSpace(cols[0], p);
    SingleBodyAt(cols, g, SingleBody(cols) + (")" + g), o, p);
  }

  lemma SingleBodyAt(cols: seq<Column>, g: string, s: string, o: string, p: string)
    requires |cols| >= 1
    requires ColumnDef(s) == Some(Parsed(cols[0], p))
    requires Keyword("PRIMARY KEY", p).Some? && Keyword("PRIMARY KEY", p).value.rest == o
    requires OthersEnd(o, cols[1..], ")" + g)
    ensures SinglePkBody(s) == Some(Parsed((cols, PrimaryKey([cols[0].name], [])), ")" + g))
  {
    SinglePkOf(s, cols[0], p, Keyword("PRIMARY KEY", p).value.value, o, cols[1..], ")" + g);
    HeadTail(cols);
  }

  /** is_single_pk sees the single form. */
  lemma SingleLooksAhead(cols: seq<Column>, g: string)
    requires ColumnsNamed(cols) && |cols| >= 1
    ensures IsSinglePk("(" + (SingleBody(cols) + (")" + g)))
  {
    var o := OthersText(cols[1..]) + (")" + g);
    var p := "PRIMARY KEY" + o;
    SingleBodyThen(cols, g);
    OthersRead(cols[1..], g);
    PrimaryKeyThen(o, p);
    ColumnThenSpace(cols[0], p);
    LooksAheadAt(cols[0], p, SingleBody(cols) + (")" + g));
  }

  lemma LooksAheadAt(c: Column, p: string, s: string)
    requires ColumnDef(s) == Some(Parsed(c, p)) && Symbol("PRIMARY KEY", p).Some?
    ensures IsSinglePk("(" + s)
  {
    assert ("(" + s)[1..] == s;
  }

  // ----- composite primary keys -----

  predicate KeyRenderable(pk: PrimaryKey) {
    |pk.partitionKey| >= 1 && AllNames(pk.partitionKey) && AllNames(pk.clusteringKey)
  }

  /** The clustering columns after a nested partition key, possibly none. */
  function ClusteringText(cl: seq<string>): string
    requires AllNames(cl)
  {
    if cl == [] then "" else Join(cl, ", ")
  }

  /** `(a, b), c, d`: the partition key in parentheses, then the clustering
      columns; `(a, b), ` when there are none, since the comma is required. */
  function NestedText(p: seq<string>, cl: seq<string>): string
    requires AllNames(p) && |p| >= 1 && AllNames(cl)
  {
    "(" + (Join(p, ", ") + (")" + (", " + ClusteringText(cl))))
  }

  /** The key between the parentheses after PRIMARY KEY: the flat list when
      the partition key is one column, the nested form otherwise. */
  function KeyText(pk: PrimaryKey): string
    requires KeyRenderable(pk)
  {
    if |pk.partitionKey| == 1 then Join(pk.partitionKey + pk.clusteringKey, ", ")
    else NestedText(pk.partitionKey, pk.clusteringKey)
  }

  lemma NamesStart(ns: seq<string>, x: string)
    requires AllNames(ns) && |ns| >= 1
    ensures StartsWord(Join(ns, ", ") + x) && StartsWord(Join(ns, ", "))
    ensures IsIdentChar((Join(ns, ", ") + x)[0])
  {
    assert IsName(ns[0]);
    JoinStarts(ns, ", ", x);
    WordThen(ns[0], Interleave(ns[1..], ", ") + x);
  }

  /** A name list does not open a parenthesis, so the nested key is not tried further. */
  lemma FlatNotNested(ns: seq<string>, x: string)
    requires AllNames(ns) && |ns| >= 1
    ensures NestedKey(Join(ns, ", ") + x).None?
  {
    NamesStart(ns, x);
    SkipNothing(Join(ns, ", ") + x);
    SymbolMismatch("(", Join(ns, ", ") + x);
  }

  lemma FlatKeyOf(s: string, names: seq<string>, r: string)
    requires ColumnList(s) == Some(Parsed(names, r))
    ensures FlatKey(s) == Some(Parsed(PrimaryKey([names[0]], names[1..]), r))
  {
  }

  /** The flat key: the first name is the partition key, the rest cluster. */
  lemma FlatKeyReads(names: seq<string>, h: string)
    requires AllNames(names) && |names| >= 1
    ensures FlatKey(Join(names, ", ") + (")" + h)) == Some(Parsed(PrimaryKey([names[0]], names[1..]), ")" + h))
  {
    ParenCloses(")" + h);
    ColumnListReads(names, ")" + h);
    FlatKeyOf(Join(names, ", ") + (")" + h), names, ")" + h);
  }

  lemma NestedKeyOf(s: string, p: seq<string>, m: string, u: string, cl: seq<string>, r: string)
    requires InParens(ColumnList, s) == Some(Parsed(p, m))
    requires Symbol(",", m) == Some(Parsed(",", u))
    requires SepList0(Comma, Identifier, u) == Some(Parsed(cl, r))
    ensures NestedKey(s) == Some(Parsed(PrimaryKey(p, cl), r))
  {
  }

  lemma NestedTextThen(p: seq<string>, cl: seq<string>, h: string)
    requires AllNames(p) && |p| >= 1 && AllNames(cl)
    ensures NestedText(p, cl) + (")" + h) == "(" + (Join(p, ", ") + (")" + ("," + (" " + (ClusteringText(cl) + (")" + h))))))
  {
  }

  /** The parenthesised partition key, up to the comma after it. */
  lemma PartitionReads(p: seq<string>, m: string, x: string)
    requires AllNames(p) && |p| >= 1 && m == "," + x
    ensures InParens(ColumnList, "(" + (Join(p, ", ") + (")" + m))) == Some(Parsed(p, m))
  {
    SkipNothing(m);
    ParenCloses(")" + m);
    ColumnListReads(p, ")" + m);
    NamesStart(p, []);
    InParensReads(ColumnList, Join(p, ", "), p, m);
  }

  /** The clustering columns after the comma, or none before the closing parenthesis. */
  lemma ClusteringReads(cl: seq<string>, h: string)
    requires AllNames(cl)
    ensures SepList0(Comma, Identifier, Multispace0(" " + (ClusteringText(cl) + (")" + h)))) == Some(Parsed(cl, ")" + h))
  {
    if cl == [] {
      assert ClusteringText(cl) + (")" + h) == ")" + h;
      NoClustering(")" + h);
    } else {
      SomeClustering(cl, h, Join(cl, ", ") + (")" + h));
    }
  }

  lemma NoClustering(r: string)
    requires |r| > 0 && r[0] == ')'
    ensures SepList0(Comma, Identifier, Multispace0(" " + r)) == Some(Parsed([], r))
  {
    SpaceThenWord(r);
    NoNameAt(r);
  }

  lemma NoNameAt(r: string)
    requires |r| > 0 && r[0] == ')'
    ensures Identifier(r).None?
  {
    SkipNothing(r);
  }

  lemma SomeClustering(cl: seq<string>, h: string, u: string)
    requires AllNames(cl) && |cl| >= 1 && u == Join(cl, ", ") + (")" + h)
    ensures SepList0(Comma, Identifier, Multispace0(" " + u)) == Some(Parsed(cl, ")" + h))
  {
    NamesStart(cl, ")" + h);
    SpaceThenWord(u);
    ParenCloses(")" + h);
    ColumnListReads(cl, ")" + h);
  }

  /** The nested key: the names in the inner parentheses are the partition
      key, the names after the comma the clustering columns. */
  lemma NestedKeyReads(p: seq<string>, cl: seq<string>, h: string)
    requires AllNames(p) && |p| >= 1 && AllNames(cl)
    ensures NestedKey(NestedText(p, cl) + (")" + h)) == Some(Parsed(PrimaryKey(p, cl), ")" + h))
  {
    var x := " " + (ClusteringText(cl) + (")" + h));
    NestedTextThen(p, cl, h);
    NestedKeyAt(p, cl, h, x);
  }

  lemma NestedKeyAt(p: seq<string>, cl: seq<string>, h: string, x: string)
    requires AllNames(p) && |p| >= 1 && AllNames(cl)
    requires x == " " + (ClusteringText(cl) + (")" + h))
    ensures NestedKey("(" + (Join(p, ", ") + (")" + ("," + x)))) == Some(Parsed(PrimaryKey(p, cl), ")" + h))
  {
    var m := "," + x;
    PartitionReads(p, m, x);
    SymbolReads(",", x);
    ClusteringReads(cl, h);
    NestedKeyOf("(" + (Join(p, ", ") + (")" + m)), p, m, Multispace0(x), cl, ")" + h);
  }

  lemma KeyTextStarts(pk: PrimaryKey)
    requires KeyRenderable(pk)
    ensures StartsWord(KeyText(pk))
  {
    if |pk.partitionKey| == 1 {
      NamesStart(pk.partitionKey + pk.clusteringKey, []);
    } else {
      ParenStarts(Join(pk.partitionKey, ", ") + (")" + (", " + ClusteringText(pk.clusteringKey))));
    }
  }

  lemma ParenStarts(x: string)
    ensures StartsWord("(" + x) && ("(" + x)[0] == '('
  {
  }

  /** The alternatives of parse_composite_pk pick the layout KeyText wrote. */
  lemma KeyChoiceReads(pk: PrimaryKey, h: string)
    requires KeyRenderable(pk)
    ensures NestedKey(KeyText(pk) + (")" + h)).OrElse(FlatKey(KeyText(pk) + (")" + h))) == Some(Parsed(pk, ")" + h))
  {
    var names := pk.partitionKey + pk.clusteringKey;
    if |pk.partitionKey| == 1 {
      FlatNotNested(names, ")" + h);
      FlatKeyReads(names, h);
      assert [names[0]] == pk.partitionKey && names[1..] == pk.clusteringKey;
    } else {
      NestedKeyReads(pk.partitionKey, pk.clusteringKey, h);
    }
  }

  /** parse_composite_pk reads back the key KeyText wrote. */
  lemma CompositeKeyReads(pk: PrimaryKey, h: string)
    requires KeyRenderable(pk)
    ensures CompositeKey("(" + (KeyText(pk) + (")" + (")" + h)))) == Some(Parsed(pk, ")" + h))
  {
    KeyChoiceReads(pk, ")" + h);
    KeyTextStarts(pk);
    ParenCloses(")" + h);
    InParensReads(t => NestedKey(t).OrElse(FlatKey(t)), KeyText(pk), pk, ")" + h);
  }

  // ----- the composite form -----

  /** `c1 T1, c2 T2, PRIMARY KEY (key)` */
  function CompositeBodyText(cols: seq<Column>, pk: PrimaryKey): string
    requires ColumnsNamed(cols) && |cols| >= 1 && KeyRenderable(pk)
  {
    ColumnsText(cols) + (", " + ("PRIMARY KEY" + (" " + ("(" + (KeyText(pk) + ")")))))
  }

  lemma CompositeBodyThen(cols: seq<Column>, pk: PrimaryKey, g: string)
    requires ColumnsNamed(cols) && |cols| >= 1 && KeyRenderable(pk)
    ensures CompositeBodyText(cols, pk) + (")" + g)
         == ColumnsText(cols) + ("," + (" " + ("PRIMARY KEY" + (" " + ("(" + (KeyText(pk) + (")" + (")" + g))))))))
  {
  }

  /** The comma and PRIMARY KEY after the column definitions: the list of
      definitions stops before them. */
  lemma KeyClause(k: string, pkt: string, r: string)
    requires StartsWord(k) && pkt == "PRIMARY KEY" + (" " + k) && r == "," + (" " + pkt)
    ensures AtBoundary(r) && Multispace0(r) == r && r[0] == ','
    ensures Symbol(",", r) == Some(Parsed(",", pkt))
    ensures Keyword("PRIMARY KEY", pkt) == Some(Parsed("PRIMARY KEY", k))
    ensures ListEnds(Comma, ColumnDef, r)
  {
    WordThen("PRIMARY KEY", " " + k);
    SymbolThenSpace(",", pkt);
    KeywordThenSpace("PRIMARY KEY", k);
    SkipNothing(r);
    PrimaryKeyIsNoColumn(" " + k);
  }

  /** parse_create_table_with_composite_pk from the results of its steps. */
  lemma CompositeBodyOf(s: string, cols: seq<Column>, r: string, pkt: string, k: string, pk: PrimaryKey, rest: string)
    requires SepList1(Comma, ColumnDef, s) == Some(Parsed(cols, r))
    requires Symbol(",", r) == Some(Parsed(",", pkt))
    requires Keyword("PRIMARY KEY", pkt).Some? && Keyword("PRIMARY KEY", pkt).value.rest == k
    requires CompositeKey(k) == Some(Parsed(pk, rest))
    ensures CompositeBody(s) == Some(Parsed((cols, pk), rest))
  {
  }

  /** The composite form reads back: the columns, then the key. */
  lemma CompositeBodyReads(cols: seq<Column>, pk: PrimaryKey, g: string)
    requires ColumnsNamed(cols) && |cols| >= 1 && KeyRenderable(pk)
    ensures CompositeBody(CompositeBodyText(cols, pk) + (")" + g)) == Some(Parsed((cols, pk), ")" + g))
  {
    var k := "(" + (KeyText(pk) + (")" + (")" + g)));
    var pkt := "PRIMARY KEY" + (" " + k);
    var r := "," + (" " + pkt);
    CompositeBodyThen(cols, pk, g);
    ParenStarts(KeyText(pk) + (")" + (")" + g)));
    KeyClause(k, pkt, r);
    ColumnsReads(cols, r);
    CompositeKeyReads(pk, g);
    CompositeBodyOf(CompositeBodyText(cols, pk) + (")" + g), cols, r, pkt, k, pk, ")" + g);
  }

  /** is_single_pk rejects a definition list whose first column is followed by a comma. */
  lemma CommaAfterFirstColumn(cols: seq<Column>, x: string)
    requires ColumnsNamed(cols) && |cols| >= 1 && |x| > 0 && x[0] == ','
    ensures !IsSinglePk("(" + (ColumnsText(cols) + x))
  {
    var w := Interleave(ColumnDefTexts(cols)[1..], ", ") + x;
    ColumnsTextStarts(cols, x);
    AfterFirstColumn(cols, x);
    ColumnDefReads(cols[0], w);
    NotPrimaryKeyAt(w);
    NotSingleAt(ColumnsText(cols) + x, cols[0], w);
  }

  lemma NotPrimaryKeyAt(w: string)
    requires |w| > 0 && w[0] == ','
    ensures Multispace0(w) == w && Symbol("PRIMARY KEY", w).None?
  {
    SkipNothing(w);
    SymbolMismatch("PRIMARY KEY", w);
  }

  lemma NotSingleAt(s: string, c: Column, w: string)
    requires ColumnDef(s) == Some(Parsed(c, w)) && Symbol("PRIMARY KEY", w).None?
    ensures !IsSinglePk("(" + s)
  {
    assert ("(" + s)[1..] == s;
  }

  /** is_single_pk does not see the composite form. */
  lemma CompositeLooksAhead(cols: seq<Column>, pk: PrimaryKey, g: string)
    requires ColumnsNamed(cols) && |cols| >= 1 && KeyRenderable(pk)
    ensures !IsSinglePk("(" + (CompositeBodyText(cols, pk) + (")" + g)))
  {
    var k := "(" + (KeyText(pk) + (")" + (")" + g)));
    var pkt := "PRIMARY KEY" + (" " + k);
    var r := "," + (" " + pkt);
    CompositeBodyThen(cols, pk, g);
    ParenStarts(KeyText(pk) + (")" + (")" + g)));
    KeyClause(k, pkt, r);
    CommaAfterFirstColumn(cols, r);
  }

  lemma CompositeBodyStarts(cols: seq<Column>, pk: PrimaryKey)
    requires ColumnsNamed(cols) && |cols| >= 1 && KeyRenderable(pk)
    ensures StartsWord(CompositeBodyText(cols, pk))
  {
    ColumnsTextStarts(cols, ", " + ("PRIMARY KEY" + (" " + ("(" + (KeyText(pk) + ")")))));
  }

  // ----- CREATE TABLE -----

  predicate CreateRenderable(q: CreateTableQuery) {
    IsName(q.table) && ColumnsNamed(q.columns) && |q.columns| >= 1 && KeyRenderable(q.primaryKey)
  }

  /** The key is the first column alone: the single form writes it. */
  predicate KeyIsFirstColumn(q: CreateTableQuery)
    requires |q.columns| >= 1
  {
    q.primaryKey == PrimaryKey([q.columns[0].name], [])
  }

  /** What stands between the parentheses of a table definition. */
  function DefinitionText(q: CreateTableQuery): string
    requires CreateRenderable(q)
  {
    if KeyIsFirstColumn(q) then SingleBody(q.columns) else CompositeBodyText(q.columns, q.primaryKey)
  }

  /** `CREATE TABLE name (definition)` */
  function CreateTableText(q: CreateTableQuery): string
    requires CreateRenderable(q)
  {
    "CREATE TABLE" + (" " + (q.table + (" " + ("(" + (DefinitionText(q) + ")")))))
  }

  lemma CreateTableTextThen(q: CreateTableQuery, f: string)
    requires CreateRenderable(q)
    ensures CreateTableText(q) + f == "CREATE TABLE" + (" " + (q.table + (" " + ("(" + (DefinitionText(q) + (")" + f))))))
  {
  }

  /** A statement keyword, a table name and a space before a word are read where they stand. */
  lemma StatementHead(kw: string, r1: string, table: string, r2: string)
    requires StartsWord(kw) && IsName(table) && r1 == table + (" " + r2) && StartsWord(r2)
    ensures Keyword(kw, kw + (" " + r1)) == Some(Parsed(kw, r1))
    ensures Identifier(r1) == Some(Parsed(table, r2))
  {
    NameStartsWord(table, " " + r2, r1);
    KeywordThenSpace(kw, r1);
    NameThenSpace(table, r2);
  }

  /** parse_create_table_query from the results of its steps. */
  lemma CreateOf(query: string, r1: string, table: string, r2: string, cols: seq<Column>, key: PrimaryKey, rest: string)
    requires Keyword("CREATE TABLE", query).Some? && Keyword("CREATE TABLE", query).value.rest == r1
    requires Identifier(r1) == Some(Parsed(table, r2))
    requires IsSinglePk(r2) ==> InParens(SinglePkBody, r2) == Some(Parsed((cols, key), rest))
    requires !IsSinglePk(r2) ==> InParens(CompositeBody, r2) == Some(Parsed((cols, key), rest))
    ensures ParseCreateTable(query) == Ok(DataDefinitionQuery.CreateTable(CreateTableQuery(table, key, cols)))
  {
  }

  /** The definition between the parentheses reads back through the parser
      is_single_pk chooses. */
  lemma DefinitionReads(q: CreateTableQuery, f: string)
    requires CreateRenderable(q)
    ensures var r2 := "(" + (DefinitionText(q) + (")" + f));
            && (IsSinglePk(r2) ==> InParens(SinglePkBody, r2) == Some(Parsed((q.columns, q.primaryKey), Multispace0(f))))
            && (!IsSinglePk(r2) ==> InParens(CompositeBody, r2) == Some(Parsed((q.columns, q.primaryKey), Multispace0(f))))
  {
    if KeyIsFirstColumn(q) {
      SingleBodyReads(q.columns, f);
      SingleLooksAhead(q.columns, f);
      InParensReads(SinglePkBody, SingleBody(q.columns), (q.columns, q.primaryKey), f);
    } else {
      CompositeBodyReads(q.columns, q.primaryKey, f);
      CompositeLooksAhead(q.columns, q.primaryKey, f);
      CompositeBodyStarts(q.columns, q.primaryKey);
      InParensReads(CompositeBody, CompositeBodyText(q.columns, q.primaryKey), (q.columns, q.primaryKey), f);
    }
  }

  /** Every table definition reads back from its canonical text, whatever
      follows the closing parenthesis. */
  lemma CreateTableRoundTrip(q: CreateTableQuery, f: string)
    requires CreateRenderable(q)
    ensures ParseCreateTable(CreateTableText(q) + f) == Ok(DataDefinitionQuery.CreateTable(q))
  {
    var r2 := "(" + (DefinitionText(q) + (")" + f));
    var r1 := q.table + (" " + r2);
    CreateTableTextThen(q, f);
    ParenStarts(DefinitionText(q) + (")" + f));
    StatementHead("CREATE TABLE", r1, q.table, r2);
    DefinitionReads(q, f);
    CreateOf(CreateTableText(q) + f, r1, q.table, r2, q.columns, q.primaryKey, Multispace0(f));
  }

  /** `CREATE TABLE name (columns, PRIMARY KEY (key))`: the composite form,
      in which every key can be written, the first column alone included. */
  function CompositeCreateText(q: CreateTableQuery): string
    requires CreateRenderable(q)
  {
    "CREATE TABLE" + (" " + (q.table + (" " + ("(" + (CompositeBodyText(q.columns, q.primaryKey) + ")")))))
  }

  /** Every table definition also reads back from its composite-form text,
      so a key that is the first column alone may be written either way. */
  lemma CompositeCreateRoundTrip(q: CreateTableQuery, f: string)
    requires CreateRenderable(q)
    ensures ParseCreateTable(CompositeCreateText(q) + f) == Ok(DataDefinitionQuery.CreateTable(q))
  {
    var body := CompositeBodyText(q.columns, q.primaryKey);
    var r2 := "(" + (body + (")" + f));
    var r1 := q.table + (" " + r2);
    assert CompositeCreateText(q) + f == "CREATE TABLE" + (" " + r1);
    ParenStarts(body + (")" + f));
    StatementHead("CREATE TABLE", r1, q.table, r2);
    CompositeBodyReads(q.columns, q.primaryKey, f);
    CompositeLooksAhead(q.columns, q.primaryKey, f);
    CompositeBodyStarts(q.columns, q.primaryKey);
    InParensReads(CompositeBody, body, (q.columns, q.primaryKey), f);
    CreateOf(CompositeCreateText(q) + f, r1, q.table, r2, q.columns, q.primaryKey, Multispace0(f));
  }

  // ----- what every created table has -----

  /** What a parenthesised parser yields is what the parser inside yields. */
  lemma InParensInner<T>(p: Parser<T>, s: string)
    requires InParens(p, s).Some?
    ensures Symbol("(", s).Some? && p(Symbol("(", s).value.rest).Some?
    ensures InParens(p, s).value.value == p(Symbol("(", s).value.rest).value.value
  {
  }

  /** The flat key keeps the names in order: the first is the partition
      key, the others the clustering columns. */
  lemma FlatKeyOrder(s: string)
    ensures FlatKey(s).Some? <==> ColumnList(s).Some?
    ensures FlatKey(s).Some? ==> var pk := FlatKey(s).value.value;
              |pk.partitionKey| == 1 && pk.partitionKey + pk.clusteringKey == ColumnList(s).value.value
  {
    if ColumnList(s).Some? {
      var n := ColumnList(s).value;
      FlatKeyNames(s, n.value, n.rest);
    }
  }

  lemma FlatKeyNames(s: string, names: seq<string>, r: string)
    requires ColumnList(s) == Some(Parsed(names, r))
    ensures FlatKey(s).value.value.partitionKey + FlatKey(s).value.value.clusteringKey == names
  {
    FlatKeyOf(s, names, r);
    HeadTail(names);
  }

  /** The nested key has a non-empty partition key. */
  lemma NestedKeyShape(s: string)
    ensures NestedKey(s).Some? ==> |NestedKey(s).value.value.partitionKey| >= 1
  {
    var part := InParens(ColumnList, s);
    if part.Some? {
      var comma := Symbol(",", part.value.rest);
      if comma.Some? {
        var cl := SepList0(Comma, Identifier, comma.value.rest);
        if cl.Some? {
          InParensInner(ColumnList, s);
          NestedKeyOf(s, part.value.value, part.value.rest, comma.value.rest, cl.value.value, cl.value.rest);
        }
      }
    }
  }

  /** Either layout of the composite key has a non-empty partition key. */
  lemma CompositeKeyShape(s: string)
    ensures CompositeKey(s).Some? ==> |CompositeKey(s).value.value.partitionKey| >= 1
  {
    if CompositeKey(s).Some? {
      var choice := t => NestedKey(t).OrElse(FlatKey(t));
      InParensInner(choice, s);
      var inner := Symbol("(", s).value.rest;
      NestedKeyShape(inner);
      FlatKeyOrder(inner);
    }
  }

  lemma CompositeBodyShape(s: string)
    ensures CompositeBody(s).Some? ==> |CompositeBody(s).value.value.0| >= 1 && |CompositeBody(s).value.value.1.partitionKey| >= 1
  {
    if CompositeBody(s).Some? {
      var columns := SepList1(Comma, ColumnDef, s).value;
      var comma := Symbol(",", columns.rest).value;
      var kw := Keyword("PRIMARY KEY", comma.rest).value;
      CompositeKeyShape(kw.rest);
    }
  }

  /** A table that CREATE TABLE accepts has at least one column and a
      non-empty partition key; with the single form the key is exactly the
      first column. */
  lemma CreateTableShape(query: string)
    ensures ParseCreateTable(query).Ok? ==> ParseCreateTable(query).value.CreateTable?
    ensures ParseCreateTable(query).Ok? ==>
              var q := ParseCreateTable(query).value.createTable;
              |q.columns| >= 1 && |q.primaryKey.partitionKey| >= 1
  {
    if ParseCreateTable(query).Ok? {
      var kw := Keyword("CREATE TABLE", query).value;
      var table := Identifier(kw.rest).value;
      if IsSinglePk(table.rest) {
        InParensInner(SinglePkBody, table.rest);
      } else {
        InParensInner(CompositeBody, table.rest);
        CompositeBodyShape(Symbol("(", table.rest).value.rest);
      }
    }
  }

  /** The messages CREATE TABLE reports. */
  predicate CreateTableMessage(m: string) {
    || m == "cannot parse statement 'CREATE TABLE'"
    || m == "cannot parse table name"
    || m == "cannot parse the column definition with a simple primary key"
    || m == "cannot parse the column definition with a composite primary key"
  }

  /** CREATE TABLE reports its first step with the whole query exactly
      when the keyword is missing. */
  lemma CreateTableKeywordError(query: string)
    ensures Keyword("CREATE TABLE", query).None? <==>
            ParseCreateTable(query) == Err(QuerySyntaxError("cannot parse statement 'CREATE TABLE'", query))
  {
    if Keyword("CREATE TABLE", query).Some? {
      CreateTableErrorShape(query);
    }
  }

  /** CREATE TABLE fails with the message of the step that failed, carrying
      the input of that step: the whole query when the keyword is missing, a
      shorter suffix after it. */
  lemma CreateTableErrorShape(query: string)
    ensures ParseCreateTable(query).Err? ==>
              && ParseCreateTable(query).error.QuerySyntaxError?
              && CreateTableMessage(ParseCreateTable(query).error.message)
              && |ParseCreateTable(query).error.remaining| <= |query|
    ensures ParseCreateTable(query).Err? && Keyword("CREATE TABLE", query).Some? ==>
              |ParseCreateTable(query).error.remaining| < |query|
  {
    match Keyword("CREATE TABLE", query)
    case None =>
      CreateKeywordFails(query);
    case Some(kw) =>
      match Identifier(kw.rest)
      case None =>
        CreateNameFails(query, kw.rest);
      case Some(table) =>
        CreateTableBodyError(query, kw.rest, table.value, table.rest);
  }

  /** parse_create_table_query without its keyword. */
  lemma CreateKeywordFails(query: string)
    requires Keyword("CREATE TABLE", query).None?
    ensures ParseCreateTable(query) == Err(QuerySyntaxError("cannot parse statement 'CREATE TABLE'", query))
  {
  }

  /** parse_create_table_query with no table name after the keyword. */
  lemma CreateNameFails(query: string, r1: string)
    requires Keyword("CREATE TABLE", query).Some? && Keyword("CREATE TABLE", query).value.rest == r1
    requires Identifier(r1).None?
    ensures ParseCreateTable(query) == Err(QuerySyntaxError("cannot parse table name", r1))
  {
  }

  /** The body steps of parse_create_table_query fail with one of its two
      body messages, carrying the text after the table name. */
  lemma CreateTableBodyError(query: string, r1: string, table: string, r2: string)
    requires Keyword("CREATE TABLE", query).Some? && Keyword("CREATE TABLE", query).value.rest == r1
    requires Identifier(r1) == Some(Parsed(table, r2))
    ensures ParseCreateTable(query).Err? ==>
              ParseCreateTable(query).error == QuerySyntaxError(
                if IsSinglePk(r2) then "cannot parse the column definition with a simple primary key"
                else "cannot parse the column definition with a composite primary key", r2)
  {
    if IsSinglePk(r2) {
      if InParens(SinglePkBody, r2).None? {
        SingleFailsOf(query, r1, table, r2);
      } else {
        var b := InParens(SinglePkBody, r2).value;
        CreateOf(query, r1, table, r2, b.value.0, b.value.1, b.rest);
      }
    } else {
      if InParens(CompositeBody, r2).None? {
        CreateFailsOf(query, r1, table, r2);
      } else {
        var b := InParens(CompositeBody, r2).value;
        CreateOf(query, r1, table, r2, b.value.0, b.value.1, b.rest);
      }
    }
  }

  /** parse_create_table_query when the single-form parser is chosen and fails. */
  lemma SingleFailsOf(query: string, r1: string, table: string, r2: string)
    requires Keyword("CREATE TABLE", query).Some? && Keyword("CREATE TABLE", query).value.rest == r1
    requires Identifier(r1) == Some(Parsed(table, r2))
    requires IsSinglePk(r2) && InParens(SinglePkBody, r2).None?
    ensures ParseCreateTable(query) == Err(QuerySyntaxError("cannot parse the column definition with a simple primary key", r2))
  {
  }

  // ----- the letter case of PRIMARY KEY -----

  /** `primary key` in lower case after the first column. */
  lemma LowerCaseKeyAt(c: Column, p: string, s: string, g: string)
    requires IsName(c.name) && p == "primary key" + (")" + g) && s == ColumnDefText(c) + (" " + p)
    ensures StartsWord(s)
    ensures ColumnDef(s) == Some(Parsed(c, p))
  {
    WordThen("primary key", ")" + g);
    ColumnThenSpace(c, p);
    ColumnDefStarts(c);
    WordThen(ColumnDefText(c), " " + p);
  }

  /** PRIMARY KEY in capitals is not `primary key`, but the keyword is. */
  lemma LowerCaseKey(p: string, g: string)
    requires p == "primary key" + (")" + g)
    ensures Symbol("PRIMARY KEY", p).None? && Comma(p).None?
    ensures Keyword("PRIMARY KEY", p) == Some(Parsed("primary key", ")" + g))
  {
    WordThen("primary key", ")" + g);
    SkipNothing(p);
    SymbolMismatch("PRIMARY KEY", p);
    assert EqualsNoCase("primary key", "PRIMARY KEY");
    KeywordIgnoresCase("PRIMARY KEY", "primary key", ")" + g);
    SkipNothing(")" + g);
  }

  /** The single-form parser reads `primary key` in lower case. */
  lemma LowerCaseSingleBody(c: Column, p: string, s: string, kw: string, o: string)
    requires ColumnDef(s) == Some(Parsed(c, p))
    requires Keyword("PRIMARY KEY", p) == Some(Parsed(kw, o))
    requires OthersEnd(o, [], o)
    ensures SinglePkBody(s) == Some(Parsed(([c], PrimaryKey([c.name], [])), o))
  {
    SinglePkOf(s, c, p, kw, o, [], o);
    assert [c] + [] == [c];
  }

  /** The composite-form parser stops after the first column: no comma follows. */
  lemma LowerCaseCompositeBody(c: Column, p: string, s: string)
    requires ColumnDef(s) == Some(Parsed(c, p)) && Comma(p).None?
    ensures CompositeBody(s).None?
  {
    SepTailStops(Comma, ColumnDef, p, [c]);
  }

  lemma InParensFails<T>(p: Parser<T>, s: string)
    requires StartsWord(s) && p(s).None?
    ensures InParens(p, "(" + s).None?
  {
    SkipNothing(s);
    SymbolReads("(", s);
  }

  lemma InParensAt<T>(p: Parser<T>, s: string, x: T, g: string)
    requires StartsWord(s) && p(s) == Some(Parsed(x, ")" + g))
    ensures InParens(p, "(" + s) == Some(Parsed(x, Multispace0(g)))
  {
    SkipNothing(s);
    SymbolReads("(", s);
    SymbolReads(")", g);
  }

  /** parse_create_table_query when the composite-form parser is chosen and fails. */
  lemma CreateFailsOf(query: string, r1: string, table: string, r2: string)
    requires Keyword("CREATE TABLE", query).Some? && Keyword("CREATE TABLE", query).value.rest == r1
    requires Identifier(r1) == Some(Parsed(table, r2))
    requires !IsSinglePk(r2) && InParens(CompositeBody, r2).None?
    ensures ParseCreateTable(query) == Err(QuerySyntaxError("cannot parse the column definition with a composite primary key", r2))
  {
  }

  /** `(name TYPE primary key)` followed by `g`. */
  function LowerCaseDefinition(c: Column, g: string): string
    requires IsName(c.name)
  {
    "(" + (ColumnDefText(c) + (" " + ("primary key" + (")" + g))))
  }

  /** is_single_pk looks for PRIMARY KEY in capitals, while the single-form
      parser reads it in any letter case. Written in lower case, the key
      clause makes the definition go to the composite-form parser, which
      fails, although the single-form parser alone reads it. */
  lemma LowerCasePrimaryKey(table: string, c: Column, g: string)
    requires IsName(table) && IsName(c.name)
    ensures ParseCreateTable("CREATE TABLE" + (" " + (table + (" " + LowerCaseDefinition(c, g))))) ==
            Err(QuerySyntaxError("cannot parse the column definition with a composite primary key", LowerCaseDefinition(c, g)))
    ensures InParens(SinglePkBody, LowerCaseDefinition(c, g)) == Some(Parsed(([c], PrimaryKey([c.name], [])), Multispace0(g)))
  {
    var body := LowerCaseDefinition(c, g);
    ParenStarts(ColumnDefText(c) + (" " + ("primary key" + (")" + g))));
    LowerCaseComposite(c, g);
    LowerCaseSingle(c, g);
    StatementHead("CREATE TABLE", table + (" " + body), table, body);
    CreateFailsOf("CREATE TABLE" + (" " + (table + (" " + body))), table + (" " + body), table, body);
  }

  /** The lookahead and the composite-form parser both reject the lower-case key. */
  lemma LowerCaseComposite(c: Column, g: string)
    requires IsName(c.name)
    ensures !IsSinglePk(LowerCaseDefinition(c, g)) && InParens(CompositeBody, LowerCaseDefinition(c, g)).None?
  {
    var p := "primary key" + (")" + g);
    var s := ColumnDefText(c) + (" " + p);
    LowerCaseKeyAt(c, p, s, g);
    LowerCaseKey(p, g);
    NotSingleAt(s, c, p);
    LowerCaseCompositeBody(c, p, s);
    InParensFails(CompositeBody, s);
  }

  /** The single-form parser reads the lower-case key. */
  lemma LowerCaseSingle(c: Column, g: string)
    requires IsName(c.name)
    ensures InParens(SinglePkBody, LowerCaseDefinition(c, g)) == Some(Parsed(([c], PrimaryKey([c.name], [])), Multispace0(g)))
  {
    var p := "primary key" + (")" + g);
    var s := ColumnDefText(c) + (" " + p);
    LowerCaseKeyAt(c, p, s, g);
    LowerCaseKey(p, g);
    NoOthers(")" + g);
    LowerCaseSingleBody(c, p, s, "primary key", ")" + g);
    InParensAt(SinglePkBody, s, ([c], PrimaryKey([c.name], [])), g);
  }
}
