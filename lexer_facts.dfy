/** What the lexical parsers promise: keywords ignore letter case, the
    integer parser accepts exactly the numbers that fit in an `i64`, and each
    value reads back from its canonical text. */
module LexerFacts {
  import opened Nom
  import opened NomFacts
  import opened Ast
  import opened Lexer

  // ----- keywords, symbols, identifiers -----

  /** A keyword is read in any letter case, and so is skipped whitespace after it. */
  lemma KeywordIgnoresCase(kw: string, a: string, f: string)
    requires EqualsNoCase(a, kw) && StartsWord(a)
    ensures Keyword(kw, a + f) == Some(Parsed(a, Multispace0(f)))
  {
    assert Multispace0(a + f) == a + f;
    assert (a + f)[..|kw|] == a;
    assert (a + f)[|kw|..] == f;
  }

  lemma KeywordReads(kw: string, f: string)
    requires StartsWord(kw)
    ensures Keyword(kw, kw + f) == Some(Parsed(kw, Multispace0(f)))
  {
    KeywordIgnoresCase(kw, kw, f);
  }

  /** A keyword fails where some character differs from it, letter case aside. */
  lemma KeywordMismatch(kw: string, s: string, i: nat)
    requires i < |kw| && i < |Multispace0(s)| && Lower(Multispace0(s)[i]) != Lower(kw[i])
    ensures Keyword(kw, s).None?
  {
    var t := Multispace0(s);
    if |kw| <= |t| {
      assert t[..|kw|][i] == t[i];
    }
  }

  lemma SymbolReads(lit: string, f: string)
    requires StartsWord(lit)
    ensures Symbol(lit, lit + f) == Some(Parsed(lit, Multispace0(f)))
  {
    assert Multispace0(lit + f) == lit + f;
    assert (lit + f)[|lit|..] == f;
  }

  lemma SymbolMismatch(lit: string, s: string)
    requires |lit| > 0 && |Multispace0(s)| > 0 && Multispace0(s)[0] != lit[0]
    ensures Symbol(lit, s).None?
  {
  }

  /** The separator text `", "` is read by `Comma`. */
  lemma CommaSeparates()
    ensures ReadsSeparator(Comma, ", ")
  {
    assert Multispace0(", ") == ", ";
    forall u | StartsWord(u)
      ensures SeparatorGives(Comma, Multispace0(", ") + u, u)
    {
      SymbolReads(",", " " + u);
      assert ", " + u == "," + (" " + u);
      SkipLeadingSpace(" ", u);
      SkipNothing(u);
    }
  }

  lemma IdentifierReads(n: string, f: string)
    requires IsName(n) && (f == [] || !IsIdentChar(f[0]))
    ensures Identifier(n + f) == Some(Parsed(n, Multispace0(f)))
  {
    SkipNothing(n + f);
    SpanAfter(IsIdentChar, n, f);
    assert (n + f)[..|n|] == n;
    assert (n + f)[|n|..] == f;
  }

  /** Every name is read back by `Identifier`, whatever boundary follows. */
  lemma IdentifierParsesAs(n: string)
    requires IsName(n)
    ensures ParsesAs(Identifier, n, n) && StartsWord(n)
  {
    forall f | AtBoundary(f)
      ensures Identifier(n + f) == Some(Parsed(n, Multispace0(f)))
    {
      IdentifierReads(n, f);
    }
  }

  lemma NamesParseAs(ns: seq<string>)
    requires forall i :: 0 <= i < |ns| ==> IsName(ns[i])
    ensures ElementsRead(Identifier, ns, ns)
  {
    forall i | 0 <= i < |ns|
      ensures ParsesAs(Identifier, ns[i], ns[i]) && StartsWord(ns[i])
    {
      IdentifierParsesAs(ns[i]);
    }
  }

  lemma IdentifierNeverGrows()
    ensures NeverGrows(Identifier)
  {
  }

  lemma CommaConsumes()
    ensures NeverGrows(Comma) && Consumes(Comma)
  {
  }

  // ----- integers -----

  lemma {:induction false} FoldAppend(a: string, b: string, acc: int, positive: bool)
    requires AllDigits(a) && AllDigits(b)
    ensures AllDigits(a + b)
    ensures Fold(a + b, acc, positive) == Fold(b, Fold(a, acc, positive), positive)
    decreases |a|
  {
    assert forall i :: 0 <= i < |a + b| ==> (a + b)[i] == if i < |a| then a[i] else b[i - |a|];
    if a == [] {
      assert a + b == b;
    } else {
      assert (a + b)[0] == a[0];
      assert (a + b)[1..] == a[1..] + b;
      FoldAppend(a[1..], b, if positive then acc * 10 + DigitValue(a[0]) else acc * 10 - DigitValue(a[0]), positive);
    }
  }

  /** Subtracting the digits is negating the number they denote. */
  lemma {:induction false} FoldNegates(ds: string, acc: int)
    requires AllDigits(ds)
    ensures Fold(ds, -acc, false) == -Fold(ds, acc, true)
    decreases |ds|
  {
    if ds != [] {
      FoldNegates(ds[1..], acc * 10 + DigitValue(ds[0]));
    }
  }

  function DigitChar(d: nat): (c: char)
    requires d < 10
    ensures IsDigit(c) && DigitValue(c) == d
  {
    ('0' as int + d) as char
  }

  /** The decimal digits of `n`, most significant first. */
  function NatDigits(n: nat): (r: string)
    ensures |r| > 0 && AllDigits(r) && DigitsValue(r) == n
    decreases n
  {
    if n < 10 then
      var r := [DigitChar(n)];
      assert r[1..] == [];
      assert Fold(r, 0, true) == Fold([], DigitValue(r[0]), true);
      r
    else
      var high := NatDigits(n / 10);
      var low := [DigitChar(n % 10)];
      FoldAppend(high, low, 0, true);
      assert low[1..] == [];
      assert Fold(low, n / 10, true) == n / 10 * 10 + n % 10;
      high + low
  }

  /** The canonical text of an integer literal. */
  function RenderInteger(i: i64): string {
    if i < 0 then "-" + NatDigits(-(i as int)) else NatDigits(i as int)
  }

  /** The longest run of digits in `ds + f` is `ds`. */
  lemma DigitRun(ds: string, f: string)
    requires |ds| > 0 && AllDigits(ds) && (f == [] || !IsDigit(f[0]))
    ensures Span(IsDigit, ds + f) == |ds|
    ensures (ds + f)[..|ds|] == ds && (ds + f)[|ds|..] == f
  {
    SpanAfter(IsDigit, ds, f);
  }

  lemma DigitsRead(ds: string, f: string)
    requires |ds| > 0 && AllDigits(ds) && (f == [] || !IsDigit(f[0]))
    ensures Digit1(ds + f) == Some(Parsed(ds, f))
  {
    DigitRun(ds, f);
  }

  lemma DigitsTokenReads(ds: string, f: string, positive: bool)
    requires |ds| > 0 && AllDigits(ds) && (f == [] || !IsDigit(f[0]))
    ensures DigitsToken(ds + f, positive) == TokenOf(CheckedFold(ds, 0, positive), f)
  {
    DigitRun(ds, f);
  }

  function TokenOf(v: Option<i64>, rest: string): Option<Parsed<Value>> {
    match v
    case None => None
    case Some(i) => Some(Parsed(Integer(i), rest))
  }

  /** The sign selects the accumulation: a minus sign subtracts the digits. */
  lemma IntegerTokenSign(sign: string, ds: string, f: string)
    requires sign == "" || sign == "-" || sign == "+"
    requires |ds| > 0 && AllDigits(ds)
    ensures IntegerToken(sign + ds + f) == DigitsToken(ds + f, sign != "-")
  {
    var t := sign + ds + f;
    if sign == "" {
      assert t == ds + f;
      assert t[0] == ds[0];
    } else {
      Regroup(sign, ds, f, "");
      assert t == sign + (ds + f);
      assert t[1..] == ds + f;
    }
  }

  /** The checked fold yields the signed value of the digits when it fits. */
  lemma CheckedValue(ds: string, positive: bool)
    requires AllDigits(ds)
    ensures var v := if positive then DigitsValue(ds) else -DigitsValue(ds);
            CheckedFold(ds, 0, positive) == if InI64(v) then Some(v as i64) else None
  {
    FoldNegates(ds, 0);
  }

  /** nom's `i64` on a sign and a run of digits: it succeeds exactly when the
      signed number fits in 64 bits, and then yields that number. */
  lemma IntegerTokenReads(sign: string, ds: string, f: string)
    requires sign == "" || sign == "-" || sign == "+"
    requires |ds| > 0 && AllDigits(ds) && (f == [] || !IsDigit(f[0]))
    ensures var v := if sign == "-" then -DigitsValue(ds) else DigitsValue(ds);
            IntegerToken(sign + ds + f) == if InI64(v) then Some(Parsed(Integer(v as i64), f)) else None
  {
    IntegerTokenSign(sign, ds, f);
    DigitsTokenReads(ds, f, sign != "-");
    CheckedValue(ds, sign != "-");
  }

  /** parse_integer accepts exactly the digit strings whose value fits in an
      `i64`, with or without a sign. */
  lemma IntegerRange(sign: string, ds: string)
    requires sign == "" || sign == "-" || sign == "+"
    requires |ds| > 0 && AllDigits(ds)
    ensures var v := if sign == "-" then -DigitsValue(ds) else DigitsValue(ds);
            ParseInteger(sign + ds).Some? <==> I64_MIN <= v <= I64_MAX
    ensures var v := if sign == "-" then -DigitsValue(ds) else DigitsValue(ds);
            ParseInteger(sign + ds).Some? ==> ParseInteger(sign + ds).value.value == Integer(v as i64)
  {
    IntegerTokenReads(sign, ds, "");
    assert sign + ds + "" == sign + ds;
    SkipNothing(sign + ds);
  }

  // ----- values -----

  function RenderFloat(f: FloatLexeme): string {
    (if f.negative then "-" else "") + f.whole + "." + f.fraction
  }

  /** The values that have a text: a float lexeme with digits on both sides
      of the point, a string without quotes that is not empty. */
  predicate Renderable(v: Value) {
    match v
    case Float(f) => |f.whole| > 0 && AllDigits(f.whole) && |f.fraction| > 0 && AllDigits(f.fraction)
    case String(s) => |s| > 0 && forall i :: 0 <= i < |s| ==> s[i] != '\''
    case _ => true
  }

  /** The canonical text of a value; booleans are written in lower case,
      which both grammars accept. */
  function RenderValue(v: Value): string
    requires Renderable(v)
  {
    match v
    case Integer(i) => RenderInteger(i)
    case Float(f) => RenderFloat(f)
    case String(s) => "'" + s + "'"
    case Bool(b) => if b then "true" else "false"
  }

  lemma BoundaryChar(f: string)
    requires AtBoundary(f) && f != []
    ensures !IsDigit(f[0]) && f[0] != '.' && !IsIdentChar(f[0]) && f[0] != '\''
  {
  }

  /** A sign and digits with no point after them are not a float. */
  lemma FloatTokenFails(sign: string, ds: string, f: string)
    requires sign == "" || sign == "-"
    requires |ds| > 0 && AllDigits(ds) && (f == [] || (!IsDigit(f[0]) && f[0] != '.'))
    ensures FloatToken(sign + ds + f).None?
  {
    var t := sign + ds + f;
    DigitsRead(ds, f);
    assert PointToken(ds + f, sign == "-").None?;
    if sign == "" {
      assert t == ds + f;
    } else {
      Regroup(sign, ds, f, "");
      assert t == sign + (ds + f);
      assert t[1..] == ds + f;
    }
  }

  /** The text of an integer is read back as that integer, and not as a float. */
  lemma IntegerTokenOf(i: i64, f: string)
    requires f == [] || (!IsDigit(f[0]) && f[0] != '.')
    ensures IntegerToken(RenderInteger(i) + f) == Some(Parsed(Integer(i), f))
    ensures FloatToken(RenderInteger(i) + f).None?
    ensures StartsWord(RenderInteger(i) + f)
  {
    var sign := if i < 0 then "-" else "";
    var ds := NatDigits(if i < 0 then -(i as int) else i as int);
    assert RenderInteger(i) + f == sign + ds + f;
    assert (if sign == "-" then -DigitsValue(ds) else DigitsValue(ds)) == i as int;
    IntegerTokenReads(sign, ds, f);
    FloatTokenFails(sign, ds, f);
    FirstOfSigned(sign, ds, f);
  }

  lemma FirstOfSigned(sign: string, ds: string, f: string)
    requires (sign == "" || sign == "-") && |ds| > 0 && AllDigits(ds)
    ensures StartsWord(sign + ds + f)
  {
    assert (sign + ds + f)[0] == if sign == "-" then '-' else ds[0];
  }

  lemma IntegerReadsAt(d: Dialect, i: i64, f: string)
    requires AtBoundary(f)
    ensures ParseValue(d, RenderInteger(i) + f) == Some(Parsed(Integer(i), Multispace0(f)))
  {
    if f != [] {
      BoundaryChar(f);
    }
    IntegerTokenOf(i, f);
    IntegerParsedAt(d, RenderInteger(i) + f, Integer(i), f);
  }

  /** Where parse_float fails and the integer token is read, parse_value yields it. */
  lemma IntegerParsedAt(d: Dialect, t: string, v: Value, f: string)
    requires StartsWord(t) && FloatToken(t).None? && IntegerToken(t) == Some(Parsed(v, f))
    ensures ParseValue(d, t) == Some(Parsed(v, Multispace0(f)))
  {
    WsOnWord(FloatToken, t);
    WsOnWord(IntegerToken, t);
  }

  /** Digits, a point and digits read as a float lexeme. */
  lemma PointTokenReads(whole: string, fraction: string, f: string, negative: bool)
    requires |whole| > 0 && AllDigits(whole) && |fraction| > 0 && AllDigits(fraction)
    requires f == [] || !IsDigit(f[0])
    ensures PointToken(whole + ("." + (fraction + f)), negative)
         == Some(Parsed(Float(FloatLexeme(negative, whole, fraction)), f))
  {
    DigitsRead(whole, "." + (fraction + f));
    DigitsRead(fraction, f);
    assert ("." + (fraction + f))[1..] == fraction + f;
  }

  /** A leading minus sign makes the lexeme negative. */
  lemma FloatTokenSign(negative: bool, u: string)
    requires |u| > 0 && u[0] != '-'
    ensures FloatToken((if negative then "-" else "") + u) == PointToken(u, negative)
  {
    var t := (if negative then "-" else "") + u;
    if negative {
      assert t[1..] == u;
    } else {
      assert t == u;
    }
  }

  lemma FloatText(x: FloatLexeme, f: string)
    ensures RenderFloat(x) + f == (if x.negative then "-" else "") + (x.whole + ("." + (x.fraction + f)))
  {
    var sign := if x.negative then "-" else "";
    assert RenderFloat(x) + f == sign + x.whole + "." + (x.fraction + f);
    Regroup(sign, x.whole, ".", x.fraction + f);
  }

  lemma FloatTokenReads(x: FloatLexeme, f: string)
    requires Renderable(Float(x)) && (f == [] || !IsDigit(f[0]))
    ensures FloatToken(RenderFloat(x) + f) == Some(Parsed(Float(x), f))
  {
    var u := x.whole + ("." + (x.fraction + f));
    FloatText(x, f);
    assert u[0] == x.whole[0];
    FloatTokenSign(x.negative, u);
    PointTokenReads(x.whole, x.fraction, f, x.negative);
  }

  lemma FloatReadsAt(d: Dialect, x: FloatLexeme, f: string)
    requires Renderable(Float(x)) && AtBoundary(f)
    ensures ParseValue(d, RenderFloat(x) + f) == Some(Parsed(Float(x), Multispace0(f)))
  {
    var t := RenderFloat(x) + f;
    if f != [] {
      BoundaryChar(f);
    }
    FloatTokenReads(x, f);
    assert t[0] == '-' || IsDigit(t[0]);
    WsOnWord(FloatToken, t);
  }

  /** Text that starts with neither a digit nor a sign is not a number. */
  lemma NotANumber(t: string)
    requires |t| > 0 && !IsDigit(t[0]) && t[0] != '-' && t[0] != '+'
    ensures FloatToken(t).None? && IntegerToken(t).None?
  {
    assert Span(IsDigit, t) == 0;
  }

  lemma BoolFirst(d: Dialect, b: bool, s: string)
    ensures BoolLiteral(d, b, s).Some? ==>
              var t := Multispace0(s); |t| > 0 && Lower(t[0]) == if b then 't' else 'f'
  {
    var t := Multispace0(s);
    var kw := if b then "TRUE" else "FALSE";
    var lit := if b then "true" else "false";
    if d == Current && Keyword(kw, s).Some? {
      assert t[..|kw|][0] == t[0];
    }
    if d == Legacy && Symbol(lit, s).Some? {
      assert t[..|lit|][0] == t[0];
    }
  }

  lemma StringFirst(s: string)
    ensures ParseString(s).Some? ==> var t := Multispace0(s); |t| > 0 && t[0] == '\''
  {
  }

  lemma StringTokenReads(s: string, f: string)
    requires Renderable(String(s))
    ensures StringToken("'" + s + "'" + f) == Some(Parsed(String(s), f))
  {
    var t := "'" + s + "'" + f;
    Regroup("'", s, "'", f);
    assert t[1..] == s + ("'" + f);
    SpanAfter(NotQuote, s, "'" + f);
    assert (s + ("'" + f))[..|s|] == s;
    assert (s + ("'" + f))[|s|..] == "'" + f;
    assert ("'" + f)[1..] == f;
  }

  /** Where every other alternative fails, parse_value yields the quoted string. */
  lemma StringParsedAt(d: Dialect, t: string, v: Value, f: string)
    requires StartsWord(t) && FloatToken(t).None? && IntegerToken(t).None?
    requires BoolLiteral(d, false, t).None? && BoolLiteral(d, true, t).None?
    requires StringToken(t) == Some(Parsed(v, f))
    ensures ParseValue(d, t) == Some(Parsed(v, Multispace0(f)))
  {
    WsOnWord(FloatToken, t);
    WsOnWord(IntegerToken, t);
    WsOnWord(StringToken, t);
  }

  lemma StringReadsAt(d: Dialect, s: string, f: string)
    requires Renderable(String(s)) && AtBoundary(f)
    ensures ParseValue(d, "'" + s + "'" + f) == Some(Parsed(String(s), Multispace0(f)))
  {
    var t := "'" + s + "'" + f;
    assert t[0] == '\'';
    NotANumber(t);
    QuoteIsNoBool(d, t);
    StringTokenReads(s, f);
    StringParsedAt(d, t, String(s), f);
  }

  lemma QuoteIsNoBool(d: Dialect, t: string)
    requires |t| > 0 && t[0] == '\''
    ensures BoolLiteral(d, false, t).None? && BoolLiteral(d, true, t).None?
  {
    SkipNothing(t);
    BoolFirst(d, false, t);
    BoolFirst(d, true, t);
  }

  lemma BoolReadsAt(d: Dialect, b: bool, f: string)
    requires AtBoundary(f)
    ensures ParseValue(d, (if b then "true" else "false") + f) == Some(Parsed(Bool(b), Multispace0(f)))
  {
    var word := if b then "true" else "false";
    var t := word + f;
    SkipNothing(t);
    assert t[0] == word[0];
    assert Span(IsDigit, t) == 0;
    assert FloatToken(t).None?;
    assert IntegerToken(t).None?;
    if b {
      KeywordMismatch("FALSE", t, 0);
      KeywordIgnoresCase("TRUE", word, f);
      SymbolReads("true", f);
    } else {
      KeywordIgnoresCase("FALSE", word, f);
      SymbolReads("false", f);
    }
  }

  /** Every value with a text reads back from it, in both grammars,
      whatever boundary follows. */
  lemma ValueParsesAs(d: Dialect, v: Value)
    requires Renderable(v)
    ensures ParsesAs(t => ParseValue(d, t), RenderValue(v), v)
    ensures StartsWord(RenderValue(v))
  {
    forall f | AtBoundary(f)
      ensures ParseValue(d, RenderValue(v) + f) == Some(Parsed(v, Multispace0(f)))
    {
      match v
      case Integer(i) => IntegerReadsAt(d, i, f);
      case Float(x) => FloatReadsAt(d, x, f);
      case String(s) => StringReadsAt(d, s, f);
      case Bool(b) => BoolReadsAt(d, b, f);
    }
  }

  /** An exact literal that equals a keyword up to letter case is read by
      that keyword the same way. */
  lemma SymbolIsKeyword(lit: string, kw: string, s: string)
    requires EqualsNoCase(lit, kw) && Symbol(lit, s).Some?
    ensures Keyword(kw, s) == Symbol(lit, s)
  {
    var t := Multispace0(s);
    assert t[..|lit|] == lit;
  }

  /** A literal the older grammar reads as a boolean is also one for the
      current grammar. */
  lemma LegacyBoolIsCurrentBool(b: bool, s: string)
    requires BoolLiteral(Legacy, b, s).Some?
    ensures BoolLiteral(Current, b, s) == BoolLiteral(Legacy, b, s)
  {
    var lit := if b then "true" else "false";
    var kw := if b then "TRUE" else "FALSE";
    assert Symbol(lit, s).Some?;
    BoolWordsIgnoreCase();
    SymbolIsKeyword(lit, kw, s);
    SameWordSameBool(b, s);
  }

  lemma BoolWordsIgnoreCase()
    ensures EqualsNoCase("true", "TRUE") && EqualsNoCase("false", "FALSE")
  {
  }

  lemma SameWordSameBool(b: bool, s: string)
    requires Keyword(if b then "TRUE" else "FALSE", s) == Symbol(if b then "true" else "false", s)
    ensures BoolLiteral(Current, b, s) == BoolLiteral(Legacy, b, s)
  {
  }

  /** The two grammars read values alike, except that the current one also
      takes `TRUE` and `FALSE` in any letter case: whatever the older one
      accepts the current one accepts the same way, and they differ only on
      booleans. */
  lemma DialectsAgree(s: string)
    ensures ParseValue(Legacy, s).Some? ==> ParseValue(Legacy, s) == ParseValue(Current, s)
    ensures ParseValue(Current, s).None? || !ParseValue(Current, s).value.value.Bool? ==>
              ParseValue(Legacy, s) == ParseValue(Current, s)
  {
    BoolFirst(Current, false, s);
    BoolFirst(Current, true, s);
    BoolFirst(Legacy, true, s);
    StringFirst(s);
    if BoolLiteral(Legacy, false, s).Some? {
      LegacyBoolIsCurrentBool(false, s);
    }
    if BoolLiteral(Legacy, true, s).Some? {
      LegacyBoolIsCurrentBool(true, s);
    }
  }

  /** Upper-case `TRUE` is a boolean only for the current grammar; the older
      one rejects it. */
  lemma UpperCaseTrue()
    ensures ParseValue(Current, "TRUE") == Some(Parsed(Bool(true), ""))
    ensures ParseValue(Legacy, "TRUE") == None
  {
    var t := "TRUE";
    SkipNothing(t);
    NotANumber(t);
    BoolFirst(Current, false, t);
    StringFirst(t);
    KeywordReads("TRUE", "");
    assert "TRUE" + "" == "TRUE";
    SymbolMismatch("true", t);
    SymbolMismatch("false", t);
    WsOnWord(FloatToken, t);
    WsOnWord(IntegerToken, t);
  }

  /** `10` is an integer. */
  lemma TenFromTheTests(d: Dialect)
    ensures ParseValue(d, "10") == Some(Parsed(Integer(10), ""))
  {
    assert RenderInteger(10) == "10" by {
      assert NatDigits(1) == "1";
      assert NatDigits(10) == NatDigits(1) + [DigitChar(0)];
    }
    IntegerReadsAt(d, 10, "");
    assert RenderInteger(10) + "" == "10";
  }

  /** `30.65` is a float. */
  lemma FloatFromTheTests(d: Dialect)
    ensures ParseValue(d, "30.65") == Some(Parsed(Float(FloatLexeme(false, "30", "65")), ""))
  {
    var x := FloatLexeme(false, "30", "65");
    assert RenderFloat(x) == "30.65";
    assert Renderable(Float(x));
    FloatReadsAt(d, x, "");
    assert RenderFloat(x) + "" == "30.65";
  }
}
