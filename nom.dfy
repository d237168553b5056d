/** The parts of the nom parser-combinator library that the statement parser
    uses, restated over Dafny strings. A parser maps its input to `None` (nom's
    Err, whatever its kind) or to the value it recognised together with the
    input it left over. */
module Nom {

  datatype Option<+T> = None | Some(value: T) {
    predicate IsFailure() { None? }

    function PropagateFailure<U>(): Option<U>
      requires None?
    {
      None
    }

    function Extract(): T
      requires Some?
    {
      value
    }

    /** nom's `alt` of two parsers applied to the same input: the first success wins. */
    function OrElse(other: Option<T>): Option<T> {
      if Some? then this else other
    }
  }

  /** A successful parse: what was recognised and the input that is left. */
  datatype Parsed<+T> = Parsed(value: T, rest: string)

  type Parser<T> = string -> Option<Parsed<T>>

  /** The characters nom's `multispace0` skips. */
  predicate IsWs(c: char) {
    c == ' ' || c == '\t' || c == '\r' || c == '\n'
  }

  predicate IsDigit(c: char) {
    '0' <= c <= '9'
  }

  predicate StartsWithWs(s: string) {
    |s| > 0 && IsWs(s[0])
  }

  predicate AllWs(s: string) {
    forall i :: 0 <= i < |s| ==> IsWs(s[i])
  }

  /** Length of the longest prefix of `s` whose characters all satisfy `p`. */
  function Span(p: char -> bool, s: string): (n: nat)
    ensures n <= |s|
    ensures forall i :: 0 <= i < n ==> p(s[i])
    ensures n < |s| ==> !p(s[n])
    decreases |s|
  {
    if |s| > 0 && p(s[0]) then 1 + Span(p, s[1..]) else 0
  }

  /** nom `multispace0`: drop every leading space, tab, CR and LF. */
  function Multispace0(s: string): (r: string)
    ensures |r| <= |s| && !StartsWithWs(r)
  {
    s[Span(IsWs, s)..]
  }

  /** nom `tag`: the literal, compared exactly. */
  function Tag(lit: string, s: string): (r: Option<Parsed<string>>)
    ensures r.Some? <==> lit <= s
    ensures r.Some? ==> r.value.value == lit && r.value.rest == s[|lit|..]
  {
    if lit <= s then Some(Parsed(lit, s[|lit|..])) else None
  }

  /** ASCII case folding; nom compares `to_lowercase` of each character. */
  function Lower(c: char): char {
    if 'A' <= c <= 'Z' then (c as int + 32) as char else c
  }

  predicate EqualsNoCase(a: string, b: string) {
    |a| == |b| && forall i :: 0 <= i < |a| ==> Lower(a[i]) == Lower(b[i])
  }

  /** nom `tag_no_case`: the literal, compared without regard to letter case. */
  function TagNoCase(lit: string, s: string): (r: Option<Parsed<string>>)
    ensures r.Some? <==> |lit| <= |s| && EqualsNoCase(s[..|lit|], lit)
    ensures r.Some? ==> r.value.value == s[..|lit|] && r.value.rest == s[|lit|..]
  {
    if |lit| <= |s| && EqualsNoCase(s[..|lit|], lit) then Some(Parsed(s[..|lit|], s[|lit|..])) else None
  }

  /** nom `take_while1`: the longest non-empty prefix whose characters satisfy `p`. */
  function TakeWhile1(p: char -> bool, s: string): (r: Option<Parsed<string>>)
    ensures r.Some? <==> |s| > 0 && p(s[0])
    ensures r.Some? ==> 0 < |r.value.value| <= |s| && r.value.value == s[..|r.value.value|] && r.value.rest == s[|r.value.value|..]
    ensures r.Some? ==> forall i :: 0 <= i < |r.value.value| ==> p(r.value.value[i])
    ensures r.Some? ==> r.value.rest == [] || !p(r.value.rest[0])
  {
    var n := Span(p, s);
    if n == 0 then None else Some(Parsed(s[..n], s[n..]))
  }

  /** nom `digit1`. */
  function Digit1(s: string): (r: Option<Parsed<string>>)
    ensures r.Some? <==> |s| > 0 && IsDigit(s[0])
    ensures r.Some? ==> 0 < |r.value.value| <= |s| && r.value.value == s[..|r.value.value|] && r.value.rest == s[|r.value.value|..]
    ensures r.Some? ==> forall i :: 0 <= i < |r.value.value| ==> IsDigit(r.value.value[i])
    ensures r.Some? ==> r.value.rest == [] || !IsDigit(r.value.rest[0])
  {
    TakeWhile1(IsDigit, s)
  }

  /** The `ws` wrapper of common_parser.rs: `delimited(multispace0, p, multispace0)`. */
  function Ws<T>(p: Parser<T>, s: string): (r: Option<Parsed<T>>)
    ensures r.Some? <==> p(Multispace0(s)).Some?
    ensures r.Some? ==> r.value.value == p(Multispace0(s)).value.value
    ensures r.Some? ==> r.value.rest == Multispace0(p(Multispace0(s)).value.rest)
    ensures r.Some? && |p(Multispace0(s)).value.rest| <= |Multispace0(s)| ==> |r.value.rest| <= |s|
    ensures r.Some? && |p(Multispace0(s)).value.rest| < |Multispace0(s)| ==> |r.value.rest| < |s|
  {
    var inner :- p(Multispace0(s));
    Some(Parsed(inner.value, Multispace0(inner.rest)))
  }

  /** A parser never hands back more input than it was given. */
  ghost predicate NeverGrows<T>(p: Parser<T>) {
    forall s :: p(s).Some? ==> |p(s).value.rest| <= |s|
  }

  /** A parser consumes at least one character whenever it succeeds. */
  ghost predicate Consumes<T>(p: Parser<T>) {
    forall s :: p(s).Some? ==> |p(s).value.rest| < |s|
  }

  /** The loop of nom's `separated_list0`/`separated_list1` after the first
      element: `acc` holds the elements so far and `s` the input after the
      last one. A separator that fails, or one whose element then fails,
      ends the list before that separator; a separator that consumes
      nothing makes the whole list fail (nom's infinite-loop guard). An
      element that hands back more input than it was given is no nom parser;
      the loop fails on it, which keeps the loop finite for every function. */
  function SepTail<S, T>(sep: Parser<S>, elem: Parser<T>, s: string, acc: seq<T>): (r: Option<Parsed<seq<T>>>)
    ensures r.Some? ==> |acc| <= |r.value.value| && r.value.value[..|acc|] == acc
    ensures r.Some? ==> |r.value.rest| <= |s|
    decreases |s|
  {
    match sep(s)
    case None => Some(Parsed(acc, s))
    case Some(afterSep) =>
      if |afterSep.rest| >= |s| then None
      else
        match elem(afterSep.rest)
        case None => Some(Parsed(acc, s))
        case Some(e) =>
          if |e.rest| > |afterSep.rest| then None
          else
            var r := SepTail(sep, elem, e.rest, acc + [e.value]);
            assert r.Some? ==> r.value.value[..|acc|] == (acc + [e.value])[..|acc|];
            r
  }

  /** nom `separated_list1`: one or more elements. */
  function SepList1<S, T>(sep: Parser<S>, elem: Parser<T>, s: string): (r: Option<Parsed<seq<T>>>)
    ensures r.Some? <==> elem(s).Some? && SepTail(sep, elem, elem(s).value.rest, [elem(s).value.value]).Some?
    ensures r.Some? ==> |r.value.value| >= 1 && r.value.value[0] == elem(s).value.value
  {
    var first :- elem(s);
    SepTail(sep, elem, first.rest, [first.value])
  }

  /** nom `separated_list0`: zero or more elements; when the first element
      fails the list is empty and nothing is consumed. */
  function SepList0<S, T>(sep: Parser<S>, elem: Parser<T>, s: string): (r: Option<Parsed<seq<T>>>)
    ensures elem(s).None? ==> r == Some(Parsed([], s))
    ensures elem(s).Some? ==> r == SepList1(sep, elem, s)
  {
    match elem(s)
    case None => Some(Parsed([], s))
    case Some(first) => SepTail(sep, elem, first.rest, [first.value])
  }
}

/** Facts about the combinators of module Nom, chiefly how a separated list
    reads back the text of its elements laid out with a separator. */
module NomFacts {
  import opened Nom

  /** What may follow an element in a canonical layout: nothing, a comma, a
      closing parenthesis or whitespace. */
  predicate AtBoundary(f: string) {
    f == [] || f[0] == ',' || f[0] == ')' || IsWs(f[0])
  }

  /** A text that starts with something other than whitespace. */
  predicate StartsWord(u: string) {
    |u| > 0 && !IsWs(u[0])
  }

  /** `p` reads exactly `text`, whatever boundary follows, yields `x` and
      also skips the whitespace after it. */
  ghost predicate ParsesAs<T>(p: Parser<T>, text: string, x: T) {
    forall f :: AtBoundary(f) ==> p(text + f) == Some(Parsed(x, Multispace0(f)))
  }

  ghost predicate SeparatorGives<S>(sep: Parser<S>, input: string, u: string) {
    sep(input).Some? && sep(input).value.rest == u
  }

  /** `sep` reads the separator text `st` (past its leading whitespace) and
      stops right before the next word. */
  ghost predicate ReadsSeparator<S>(sep: Parser<S>, st: string) {
    && |st| > 0 && (st[0] == ',' || IsWs(st[0]))
    && Multispace0(st) != []
    && forall u :: StartsWord(u) ==> SeparatorGives(sep, Multispace0(st) + u, u)
  }

  /** The list loop stops at `r`: no separator, or a separator not followed by an element. */
  ghost predicate ListEnds<S, T>(sep: Parser<S>, elem: Parser<T>, r: string) {
    sep(r).None? || (|sep(r).value.rest| < |r| && elem(sep(r).value.rest).None?)
  }

  /** `st + ts[0] + st + ts[1] + ...` */
  function Interleave(ts: seq<string>, st: string): string {
    if ts == [] then [] else st + ts[0] + Interleave(ts[1..], st)
  }

  /** `ts[0] + st + ts[1] + ... + st + ts[|ts| - 1]` */
  function Join(ts: seq<string>, st: string): string
    requires |ts| >= 1
  {
    ts[0] + Interleave(ts[1..], st)
  }

  lemma SpanConcat(p: char -> bool, a: string, b: string)
    requires Span(p, a) < |a|
    ensures Span(p, a + b) == Span(p, a)
  {
    var m := Span(p, a);
    assert (a + b)[m] == a[m];
    assert forall i :: 0 <= i < m ==> (a + b)[i] == a[i];
  }

  lemma SpanAfter(p: char -> bool, w: string, s: string)
    requires forall i :: 0 <= i < |w| ==> p(w[i])
    ensures Span(p, w + s) == |w| + Span(p, s)
  {
    var m := Span(p, s);
    assert forall i :: 0 <= i < |w| ==> (w + s)[i] == w[i];
    assert forall i :: 0 <= i < m ==> (w + s)[|w| + i] == s[i];
    if m < |s| {
      assert (w + s)[|w| + m] == s[m];
    }
  }

  /** Whitespace before a text is exactly what multispace0 skips. */
  lemma SkipLeadingSpace(w: string, s: string)
    requires AllWs(w)
    ensures Multispace0(w + s) == Multispace0(s)
  {
    SpanAfter(IsWs, w, s);
    assert (w + s)[|w| + Span(IsWs, s)..] == s[Span(IsWs, s)..];
  }

  /** Text that does not start with whitespace is left alone by multispace0. */
  lemma SkipNothing(u: string)
    requires !StartsWithWs(u)
    ensures Multispace0(u) == u
  {
  }

  /** On text that starts with a word, `ws(p)` is `p` followed by skipping whitespace. */
  lemma WsOnWord<T>(p: Parser<T>, t: string)
    requires StartsWord(t)
    ensures Ws(p, t).None? <==> p(t).None?
    ensures p(t).Some? ==> Ws(p, t) == Some(Parsed(p(t).value.value, Multispace0(p(t).value.rest)))
  {
    SkipNothing(t);
  }

  /** When `a` holds a non-blank character, skipping whitespace stops inside it. */
  lemma SkipWithin(a: string, b: string)
    requires Multispace0(a) != []
    ensures Multispace0(a + b) == Multispace0(a) + b
  {
    SpanConcat(IsWs, a, b);
    assert (a + b)[Span(IsWs, a)..] == a[Span(IsWs, a)..] + b;
  }

  /** Every `ws`-wrapped parser ignores whitespace in front of its input. */
  lemma WsIgnoresLeadingSpace<T>(p: Parser<T>, w: string, s: string)
    requires AllWs(w)
    ensures Ws(p, w + s) == Ws(p, s)
  {
    SkipLeadingSpace(w, s);
  }

  /** Each `ts[i]` is a word that `elem` reads as `xs[i]`. */
  ghost predicate ElementsRead<T>(elem: Parser<T>, ts: seq<string>, xs: seq<T>) {
    |ts| == |xs| && forall i :: 0 <= i < |ts| ==> ParsesAs(elem, ts[i], xs[i]) && StartsWord(ts[i])
  }

  lemma ElementsReadTail<T>(elem: Parser<T>, ts: seq<string>, xs: seq<T>)
    requires ElementsRead(elem, ts, xs) && |ts| > 0
    ensures ElementsRead(elem, ts[1..], xs[1..])
    ensures ParsesAs(elem, ts[0], xs[0]) && StartsWord(ts[0])
  {
    forall i | 0 <= i < |ts| - 1
      ensures ParsesAs(elem, ts[1..][i], xs[1..][i]) && StartsWord(ts[1..][i])
    {
      assert ts[1..][i] == ts[i + 1] && xs[1..][i] == xs[i + 1];
    }
  }

  lemma UseParsesAs<T>(p: Parser<T>, text: string, x: T, f: string)
    requires ParsesAs(p, text, x) && AtBoundary(f)
    ensures p(text + f) == Some(Parsed(x, Multispace0(f)))
  {
  }

  /** One turn of the list loop: separator, then element. */
  lemma SepTailStep<S, T>(sep: Parser<S>, elem: Parser<T>, s: string, u: string, e: Parsed<T>, acc: seq<T>)
    requires SeparatorGives(sep, s, u) && |u| < |s| && elem(u) == Some(e) && |e.rest| <= |u|
    ensures SepTail(sep, elem, s, acc) == SepTail(sep, elem, e.rest, acc + [e.value])
  {
  }

  lemma UseSeparator<S>(sep: Parser<S>, st: string, u: string)
    requires ReadsSeparator(sep, st) && StartsWord(u)
    ensures SeparatorGives(sep, Multispace0(st) + u, u) && |u| < |Multispace0(st) + u|
  {
  }

  lemma HeadTail<T>(xs: seq<T>)
    requires |xs| > 0
    ensures [xs[0]] + xs[1..] == xs
  {
  }

  lemma ConsTail<T>(acc: seq<T>, xs: seq<T>)
    requires |xs| > 0
    ensures acc + [xs[0]] + xs[1..] == acc + xs
  {
    assert xs == [xs[0]] + xs[1..];
  }

  /** The list loop reads one separator and one element. */
  lemma SepTailReadsOne<S, T>(sep: Parser<S>, elem: Parser<T>, st: string, t: string, x: T, f: string, acc: seq<T>)
    requires ReadsSeparator(sep, st) && ParsesAs(elem, t, x) && StartsWord(t) && AtBoundary(f)
    ensures SepTail(sep, elem, Multispace0(st + (t + f)), acc) == SepTail(sep, elem, Multispace0(f), acc + [x])
  {
    var u := t + f;
    SkipWithin(st, u);
    assert u[0] == t[0];
    UseSeparator(sep, st, u);
    UseParsesAs(elem, t, x, f);
    SepTailStep(sep, elem, Multispace0(st) + u, u, Parsed(x, Multispace0(f)), acc);
  }

  /** The list loop never fails when the separator consumes input whenever
      it succeeds and the element never hands back more than it was given. */
  lemma {:induction false} SepTailSucceeds<S, T>(sep: Parser<S>, elem: Parser<T>, s: string, acc: seq<T>)
    requires Consumes(sep) && NeverGrows(elem)
    ensures SepTail(sep, elem, s, acc).Some?
    decreases |s|
  {
    match sep(s)
    case None =>
    case Some(afterSep) =>
      match elem(afterSep.rest)
      case None =>
      case Some(e) =>
        SepTailSucceeds(sep, elem, e.rest, acc + [e.value]);
  }

  /** The list loop ends where `ListEnds` holds. */
  lemma SepTailStops<S, T>(sep: Parser<S>, elem: Parser<T>, r: string, acc: seq<T>)
    requires ListEnds(sep, elem, r)
    ensures SepTail(sep, elem, r, acc) == Some(Parsed(acc, r))
  {
  }

  /** After the separator text the next element follows at a boundary. */
  lemma InterleaveBoundary(ts: seq<string>, st: string, rest: string)
    requires |st| > 0 && (st[0] == ',' || IsWs(st[0])) && AtBoundary(rest)
    ensures AtBoundary(Interleave(ts, st) + rest)
  {
    if ts != [] {
      assert (Interleave(ts, st) + rest)[0] == st[0];
    }
  }

  lemma {:induction false} SepTailReads<S, T>(sep: Parser<S>, elem: Parser<T>, ts: seq<string>, xs: seq<T>,
                                              st: string, rest: string, acc: seq<T>)
    requires ElementsRead(elem, ts, xs)
    requires ReadsSeparator(sep, st)
    requires AtBoundary(rest) && ListEnds(sep, elem, Multispace0(rest))
    ensures SepTail(sep, elem, Multispace0(Interleave(ts, st) + rest), acc) == Some(Parsed(acc + xs, Multispace0(rest)))
    decreases |ts|
  {
    if ts == [] {
      assert Interleave(ts, st) + rest == rest;
      assert acc + xs == acc;
      SepTailStops(sep, elem, Multispace0(rest), acc);
    } else {
      ElementsReadTail(elem, ts, xs);
      ConsTail(acc, xs);
      SepTailReadsFirst(sep, elem, ts, xs, st, rest, acc);
      SepTailReads(sep, elem, ts[1..], xs[1..], st, rest, acc + [xs[0]]);
    }
  }

  /** The first turn of the loop over `Interleave(ts, st) + rest`. */
  lemma SepTailReadsFirst<S, T>(sep: Parser<S>, elem: Parser<T>, ts: seq<string>, xs: seq<T>,
                                st: string, rest: string, acc: seq<T>)
    requires |ts| > 0 && |xs| > 0 && ParsesAs(elem, ts[0], xs[0]) && StartsWord(ts[0])
    requires ReadsSeparator(sep, st) && AtBoundary(rest)
    ensures SepTail(sep, elem, Multispace0(Interleave(ts, st) + rest), acc)
         == SepTail(sep, elem, Multispace0(Interleave(ts[1..], st) + rest), acc + [xs[0]])
  {
    var f := Interleave(ts[1..], st) + rest;
    assert Interleave(ts, st) == st + ts[0] + Interleave(ts[1..], st);
    Regroup(st, ts[0], Interleave(ts[1..], st), rest);
    InterleaveBoundary(ts[1..], st, rest);
    SepTailReadsOne(sep, elem, st, ts[0], xs[0], f, acc);
  }

  lemma Regroup(a: string, b: string, c: string, d: string)
    ensures a + b + c + d == a + (b + (c + d))
  {
  }

  /** A separated list reads back the elements of `Join(ts, st)`, in order. */
  lemma SepList1Reads<S, T>(sep: Parser<S>, elem: Parser<T>, ts: seq<string>, xs: seq<T>, st: string, rest: string)
    requires ElementsRead(elem, ts, xs) && |ts| >= 1
    requires ReadsSeparator(sep, st)
    requires AtBoundary(rest) && ListEnds(sep, elem, Multispace0(rest))
    ensures SepList1(sep, elem, Join(ts, st) + rest) == Some(Parsed(xs, Multispace0(rest)))
  {
    ElementsReadTail(elem, ts, xs);
    var f := Interleave(ts[1..], st) + rest;
    assert Join(ts, st) + rest == ts[0] + f;
    InterleaveBoundary(ts[1..], st, rest);
    UseParsesAs(elem, ts[0], xs[0], f);
    SepTailReads(sep, elem, ts[1..], xs[1..], st, rest, [xs[0]]);
    assert [xs[0]] + xs[1..] == xs;
  }
}
