/** The lexical parsers every grammar shares: keywords, identifiers,
    punctuation and literal values, each wrapped in `ws` so that whitespace
    around a token is skipped. */
module Lexer {
  import opened Nom
  import opened NomFacts
  import opened Ast

  /** Which copy of the DML grammar is meant. The current one reads the
      boolean literals case-insensitively; the older copy only accepts
      lower-case `true` and `false`. */
  datatype Dialect = Current | Legacy

  /** Letters are ASCII letters here. */
  predicate IsAlpha(c: char) {
    'a' <= c <= 'z' || 'A' <= c <= 'Z'
  }

  predicate IsIdentChar(c: char) {
    IsAlpha(c) || c == '_'
  }

  /** A name that `Identifier` reads whole. */
  predicate IsName(n: string) {
    |n| > 0 && forall i :: 0 <= i < |n| ==> IsIdentChar(n[i])
  }

  /** A name holds no digit. */
  lemma NameHasNoDigits(n: string)
    requires IsName(n)
    ensures forall i :: 0 <= i < |n| ==> !IsDigit(n[i])
  {
  }

  predicate NotQuote(c: char) {
    c != '\''
  }

  /** parse_keyword: the literal, in any letter case, with the whitespace around it. */
  function Keyword(kw: string, s: string): (r: Option<Parsed<string>>)
    ensures r.Some? <==> |kw| <= |Multispace0(s)| && EqualsNoCase(Multispace0(s)[..|kw|], kw)
    ensures r.Some? ==> EqualsNoCase(r.value.value, kw) && r.value.value == Multispace0(s)[..|kw|]
    ensures r.Some? ==> r.value.rest == Multispace0(Multispace0(s)[|kw|..])
    ensures r.Some? ==> |r.value.rest| <= |s| && !StartsWithWs(r.value.rest)
    ensures r.Some? && kw != [] ==> |r.value.rest| < |s|
  {
    Ws(t => TagNoCase(kw, t), s)
  }

  /** `ws(tag(lit))`: the literal exactly, with the whitespace around it. */
  function Symbol(lit: string, s: string): (r: Option<Parsed<string>>)
    ensures r.Some? <==> lit <= Multispace0(s)
    ensures r.Some? ==> r.value.value == lit
    ensures r.Some? ==> r.value.rest == Multispace0(Multispace0(s)[|lit|..])
    ensures r.Some? ==> |r.value.rest| <= |s| && !StartsWithWs(r.value.rest)
    ensures r.Some? && lit != [] ==> |r.value.rest| < |s|
  {
    Ws(t => Tag(lit, t), s)
  }

  /** parse_comma. */
  function Comma(s: string): (r: Option<Parsed<string>>)
    ensures r.Some? <==> |Multispace0(s)| > 0 && Multispace0(s)[0] == ','
    ensures r.Some? ==> r.value.rest == Multispace0(Multispace0(s)[1..]) && |r.value.rest| < |s|
  {
    Symbol(",", s)
  }

  /** parse_identifier: the longest run of letters and underscores. */
  function Identifier(s: string): (r: Option<Parsed<string>>)
    ensures r.Some? <==> |Multispace0(s)| > 0 && IsIdentChar(Multispace0(s)[0])
    ensures r.Some? ==> IsName(r.value.value) && r.value.value <= Multispace0(s)
    ensures r.Some? ==> var after := Multispace0(s)[|r.value.value|..];
                        (after == [] || !IsIdentChar(after[0])) && r.value.rest == Multispace0(after)
    ensures r.Some? ==> |r.value.rest| < |s| && !StartsWithWs(r.value.rest)
  {
    Ws(t => TakeWhile1(IsIdentChar, t), s)
  }

  function DigitValue(c: char): nat
    requires IsDigit(c)
  {
    c as int - '0' as int
  }

  predicate AllDigits(ds: string) {
    forall i :: 0 <= i < |ds| ==> IsDigit(ds[i])
  }

  predicate InI64(x: int) {
    I64_MIN <= x <= I64_MAX
  }

  /** The digits of `ds` folded onto `acc` from left to right, each step
      multiplying by ten and then adding the digit (or subtracting it, for a
      negative number), over unbounded integers. */
  function Fold(ds: string, acc: int, positive: bool): int
    requires AllDigits(ds)
    decreases |ds|
  {
    if ds == [] then acc
    else Fold(ds[1..], if positive then acc * 10 + DigitValue(ds[0]) else acc * 10 - DigitValue(ds[0]), positive)
  }

  /** The number a digit string denotes. */
  function DigitsValue(ds: string): int
    requires AllDigits(ds)
  {
    Fold(ds, 0, true)
  }

  lemma {:induction false} FoldMovesAway(ds: string, acc: int, positive: bool)
    requires AllDigits(ds)
    ensures positive && acc >= 0 ==> Fold(ds, acc, positive) >= acc
    ensures !positive && acc <= 0 ==> Fold(ds, acc, positive) <= acc
    decreases |ds|
  {
    if ds != [] {
      var next := if positive then acc * 10 + DigitValue(ds[0]) else acc * 10 - DigitValue(ds[0]);
      FoldMovesAway(ds[1..], next, positive);
    }
  }

  /** The loop of nom's `i64` parser: `checked_mul(10)` and then
      `checked_add` (or `checked_sub` after a minus sign) for each digit; any
      overflow fails the whole number. */
  function CheckedFold(ds: string, acc: i64, positive: bool): (r: Option<i64>)
    requires AllDigits(ds)
    requires positive ==> acc >= 0
    requires !positive ==> acc <= 0
    ensures r.Some? <==> InI64(Fold(ds, acc as int, positive))
    ensures r.Some? ==> r.value as int == Fold(ds, acc as int, positive)
    decreases |ds|
  {
    if ds == [] then Some(acc)
    else
      var shifted := acc as int * 10;
      var next := if positive then shifted + DigitValue(ds[0]) else shifted - DigitValue(ds[0]);
      FoldMovesAway(ds[1..], next, positive);
      if !InI64(shifted) then None
      else if !InI64(next) then None
      else CheckedFold(ds[1..], next as i64, positive)
  }

  /** nom's complete `i64`: an optional sign, then the longest run of digits. */
  function IntegerToken(t: string): (r: Option<Parsed<Value>>)
    ensures r.Some? ==> r.value.value.Integer? && |r.value.rest| < |t|
    ensures r.Some? ==> r.value.rest == t[|t| - |r.value.rest|..]
  {
    if |t| > 0 && t[0] == '-' then DigitsToken(t[1..], false)
    else if |t| > 0 && t[0] == '+' then DigitsToken(t[1..], true)
    else DigitsToken(t, true)
  }

  /** The digits after the sign, accumulated with overflow checks. */
  function DigitsToken(body: string, positive: bool): (r: Option<Parsed<Value>>)
    ensures r.Some? ==> r.value.value.Integer? && |r.value.rest| < |body|
    ensures r.Some? ==> r.value.rest == [] || !IsDigit(r.value.rest[0])
    ensures r.Some? ==> var n := |body| - |r.value.rest|;
                        r.value.rest == body[n..] && AllDigits(body[..n])
  {
    var n := Span(IsDigit, body);
    if n == 0 then None
    else
      match CheckedFold(body[..n], 0, positive)
      case None => None
      case Some(v) => Some(Parsed(Integer(v), body[n..]))
  }

  /** parse_integer. */
  function ParseInteger(s: string): (r: Option<Parsed<Value>>)
    ensures r.Some? ==> r.value.value.Integer? && |r.value.rest| < |s| && !StartsWithWs(r.value.rest)
  {
    Ws(IntegerToken, s)
  }

  /** The text parse_float recognises: an optional minus sign, digits, a
      point and digits. */
  function FloatToken(t: string): (r: Option<Parsed<Value>>)
    ensures r.Some? ==> r.value.value.Float? && |r.value.rest| < |t|
    ensures r.Some? ==> var f := r.value.value.f;
                        |f.whole| > 0 && AllDigits(f.whole) && |f.fraction| > 0 && AllDigits(f.fraction)
    ensures r.Some? ==> (r.value.value.f.negative <==> t[0] == '-')
    ensures r.Some? ==> var f := r.value.value.f;
                        t[if f.negative then 1 else 0..] == f.whole + "." + f.fraction + r.value.rest
    ensures r.Some? ==> r.value.rest == [] || !IsDigit(r.value.rest[0])
  {
    if |t| > 0 && t[0] == '-' then PointToken(t[1..], true) else PointToken(t, false)
  }

  /** Digits, a point and digits, after the optional sign. */
  function PointToken(u: string, negative: bool): (r: Option<Parsed<Value>>)
    ensures r.Some? ==> r.value.value.Float? && |r.value.rest| < |u|
    ensures r.Some? ==> var f := r.value.value.f;
                        |f.whole| > 0 && AllDigits(f.whole) && |f.fraction| > 0 && AllDigits(f.fraction)
    ensures r.Some? ==> var f := r.value.value.f;
                        f.negative == negative && u == f.whole + "." + f.fraction + r.value.rest
    ensures r.Some? ==> r.value.rest == [] || !IsDigit(r.value.rest[0])
  {
    var whole :- Digit1(u);
    var dot :- Tag(".", whole.rest);
    var fraction :- Digit1(dot.rest);
    Some(Parsed(Float(FloatLexeme(negative, whole.value, fraction.value)), fraction.rest))
  }

  /** parse_float; the conversion of the lexeme to an `f64` always succeeds
      for this shape and is not modelled. */
  function ParseFloat(s: string): (r: Option<Parsed<Value>>)
    ensures r.Some? ==> r.value.value.Float? && |r.value.rest| < |s| && !StartsWithWs(r.value.rest)
  {
    Ws(FloatToken, s)
  }

  /** The text between two single quotes: at least one character, none of them a quote. */
  function StringToken(t: string): (r: Option<Parsed<Value>>)
    ensures r.Some? ==> r.value.value.String? && |r.value.rest| < |t|
    ensures r.Some? ==> var body := r.value.value.s;
                        |body| > 0 && forall i :: 0 <= i < |body| ==> body[i] != '\''
    ensures r.Some? <==> |t| > 0 && t[0] == '\'' && Span(NotQuote, t[1..]) > 0 && Span(NotQuote, t[1..]) < |t| - 1
  {
    var open :- Tag("'", t);
    var body :- TakeWhile1(NotQuote, open.rest);
    var close :- Tag("'", body.rest);
    Some(Parsed(String(body.value), close.rest))
  }

  /** parse_string. */
  function ParseString(s: string): (r: Option<Parsed<Value>>)
    ensures r.Some? ==> r.value.value.String? && |r.value.rest| < |s| && !StartsWithWs(r.value.rest)
  {
    Ws(StringToken, s)
  }

  /** The boolean literal `b`: `TRUE`/`FALSE` in any case for the current
      grammar, exactly `true`/`false` for the older copy. */
  function BoolLiteral(d: Dialect, b: bool, s: string): (r: Option<Parsed<Value>>)
    ensures r.Some? ==> r.value.value == Bool(b) && |r.value.rest| < |s| && !StartsWithWs(r.value.rest)
  {
    var word := match d
      case Current => Keyword(if b then "TRUE" else "FALSE", s)
      case Legacy => Symbol(if b then "true" else "false", s);
    match word
    case None => None
    case Some(w) => Some(Parsed(Bool(b), w.rest))
  }

  /** parse_value: float, integer, false, true, quoted string; the first that
      succeeds wins. */
  function ParseValue(d: Dialect, s: string): (r: Option<Parsed<Value>>)
    ensures r.Some? ==> |r.value.rest| < |s| && !StartsWithWs(r.value.rest)
  {
    ParseFloat(s).OrElse(ParseInteger(s)).OrElse(BoolLiteral(d, false, s)).OrElse(BoolLiteral(d, true, s)).OrElse(ParseString(s))
  }
}
