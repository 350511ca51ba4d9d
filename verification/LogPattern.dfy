/**
 The pattern of a log formatter: what the index loop of `LogFormatter::init` reads from it,
 stated on suffixes, and a printer that is its inverse.
 */
module LogPattern {

  datatype Piece = Text(text: string) | Directive(name: string, format: string)

  const PATTERN_ERROR := "<<pattern_error>>"

  // ---- one directive -------------------------------------------------------------------------

  predicate IsAlpha(c: char) {
    'a' <= c <= 'z' || 'A' <= c <= 'Z'
  }

  /** What a directive name runs over: letters, and closing braces. */
  predicate NameChar(c: char) {
    IsAlpha(c) || c == '}'
  }

  function NameLength(q: string): (n: nat)
    ensures n <= |q| && forall i :: 0 <= i < n ==> NameChar(q[i])
    ensures n < |q| ==> !NameChar(q[n])
  {
    if q == "" || !NameChar(q[0]) then 0 else 1 + NameLength(q[1..])
  }

  /** The index of the first closing brace, or the length. */
  function CloseAt(q: string): (n: nat)
    ensures n <= |q| && (n < |q| ==> q[n] == '}')
    ensures forall i :: 0 <= i < n ==> q[i] != '}'
  {
    if q == "" || q[0] == '}' then 0 else 1 + CloseAt(q[1..])
  }

  datatype Reading = Closed(name: string, format: string, rest: string) | Open

  /** The directive that starts behind a percent sign. */
  function ReadDirective(q: string): (r: Reading)
    ensures r.Closed? ==> |r.rest| <= |q|
  {
    var n := NameLength(q);
    if n == |q| || q[n] != '{' then Closed(q[..n], "", q[n..])
    else
      var body := q[n + 1..];
      var m := CloseAt(body);
      if m == |body| then Open else Closed(q[..n], body[..m], body[m + 1..])
  }

  // ---- the whole pattern -----------------------------------------------------------------------

  function Flush(lit: string): seq<Piece> {
    if lit == "" then [] else [Text(lit)]
  }

  /**
   The pieces of the pattern p when `lit` is the literal text pending before it, and whether a
   brace was left open. Only the first of two percent signs is consumed. At an open brace the
   error piece overtakes the pending text, and reading goes on behind the percent sign.
   */
  function Scan(p: string, lit: string): (seq<Piece>, bool)
    decreases |p|
  {
    if p == "" then (Flush(lit), false)
    else if p[0] != '%' then Scan(p[1..], lit + [p[0]])
    else if |p| > 1 && p[1] == '%' then Scan(p[1..], lit + "%")
    else
      match ReadDirective(p[1..])
      case Closed(name, format, rest) =>
        var (more, error) := Scan(rest, "");
        (Flush(lit) + [Directive(name, format)] + more, error)
      case Open =>
        ([Text(PATTERN_ERROR)] + Scan(p[1..], lit).0, true)
  }

  function Parse(p: string): (seq<Piece>, bool) {
    Scan(p, "")
  }

  // ---- printing ----------------------------------------------------------------------------------

  /** Percent signs only at the end. */
  predicate PercentsLast(s: string) {
    forall i, j :: 0 <= i < j < |s| && s[i] == '%' ==> s[j] == '%'
  }

  /**
   What a pattern can say: texts are not empty and not adjacent, their percent signs stand at
   the end and before a directive; names are made of name characters, formats have no closing brace.
   */
  predicate Printable(x: seq<Piece>) {
    if x == [] then true
    else
      && Printable(x[1..])
      && match x[0]
         case Text(s) =>
           && s != "" && PercentsLast(s)
           && (if |x| > 1 then x[1].Directive? else s[|s| - 1] != '%')
         case Directive(name, format) =>
           (forall c :: c in name ==> NameChar(c)) && '}' !in format
  }

  /** Braces are needed for a format, for an empty name, and before a text that would be read as part of the directive. */
  predicate NeedsBraces(x: seq<Piece>)
    requires x != [] && x[0].Directive?
  {
    || x[0].format != "" || x[0].name == ""
    || (|x| > 1 && x[1].Text? && x[1].text != "" && (NameChar(x[1].text[0]) || x[1].text[0] == '{'))
  }

  function Written(name: string, format: string, braces: bool): string {
    if braces then name + "{" + format + "}" else name
  }

  function Print(x: seq<Piece>): string {
    if x == [] then ""
    else match x[0]
      case Text(s) => s + Print(x[1..])
      case Directive(name, format) =>
        "%" + (Written(name, format, NeedsBraces(x)) + Print(x[1..]))
  }

  // ---- reading back what was printed -------------------------------------------------------------

  lemma NameEnds(name: string, rest: string)
    requires forall c :: c in name ==> NameChar(c)
    requires rest == "" || !NameChar(rest[0])
    ensures NameLength(name + rest) == |name|
  {
    var q := name + rest;
    assert forall i :: 0 <= i < |name| ==> q[i] == name[i] && name[i] in name;
    assert rest != "" ==> q[|name|] == rest[0];
  }

  lemma BraceCloses(format: string, rest: string)
    requires '}' !in format
    ensures CloseAt(format + "}" + rest) == |format|
  {
    var q := format + "}" + rest;
    assert q[|format|] == '}' && forall i :: 0 <= i < |format| ==> q[i] == format[i] && format[i] in format;
  }

  lemma ReadsBraces(name: string, format: string, rest: string)
    requires (forall c :: c in name ==> NameChar(c)) && '}' !in format
    ensures ReadDirective(name + "{" + format + "}" + rest) == Closed(name, format, rest)
  {
    var tail := "{" + format + "}" + rest;
    NameEnds(name, tail);
    BraceCloses(format, rest);
    var q := name + "{" + format + "}" + rest;
    assert q == name + tail;
    assert q[|name|..] == tail && q[..|name|] == name && q[|name|] == '{';
    assert q[|name| + 1..] == format + "}" + rest;
  }

  lemma ReadsName(name: string, rest: string)
    requires forall c :: c in name ==> NameChar(c)
    requires rest == "" || (!NameChar(rest[0]) && rest[0] != '{')
    ensures ReadDirective(name + rest) == Closed(name, "", rest)
  {
    NameEnds(name, rest);
    assert (name + rest)[|name|..] == rest && (name + rest)[..|name|] == name;
  }

  lemma {:induction false} ScanText(s: string, rest: string, lit: string)
    requires PercentsLast(s)
    requires s != "" && s[|s| - 1] == '%' ==> rest != "" && rest[0] == '%'
    ensures Scan(s + rest, lit) == Scan(rest, lit + s)
    decreases |s|
  {
    if s == "" {
      assert s + rest == rest && lit + s == lit;
    } else {
      assert (s + rest)[1..] == s[1..] + rest;
      assert lit + s == (lit + [s[0]]) + s[1..];
      if s[0] == '%' && |s| == 1 {
        assert (s + rest)[1] == rest[0];
      }
      ScanText(s[1..], rest, lit + [s[0]]);
    }
  }

  lemma {:induction false} ScanPrinted(x: seq<Piece>)
    requires Printable(x)
    ensures Scan(Print(x), "") == (x, false)
    decreases |x|
  {
    if x != [] {
      match x[0]
      case Text(s) =>
        if |x| == 1 {
          assert x[1..] == [] && x == [Text(s)] && Print(x) == s + "";
          ScanText(s, "", "");
          assert "" + s == s;
        } else {
          ScanText(s, Print(x[1..]), "");
          assert "" + s == s;
          ScanPrintedDirective(x[1..], s);
          assert Flush(s) + [x[1]] + x[1..][1..] == x;
        }
      case Directive(name, format) =>
        ScanPrintedDirective(x, "");
        assert Flush("") + [x[0]] + x[1..] == x;
    }
  }

  lemma {:induction false} ScanPrintedDirective(x: seq<Piece>, lit: string)
    requires Printable(x) && x != [] && x[0].Directive?
    ensures Scan(Print(x), lit) == (Flush(lit) + [x[0]] + x[1..], false)
    decreases |x|, 0
  {
    var rest := Print(x[1..]);
    ScanPrinted(x[1..]);
    DirectiveReads(x);
    var p := Print(x);
    assert p[0] == '%' && (|p| > 1 ==> p[1] != '%');
  }

  lemma DirectiveReads(x: seq<Piece>)
    requires Printable(x) && x != [] && x[0].Directive?
    ensures var p := Print(x);
      && p != "" && p[0] == '%' && (|p| > 1 ==> p[1] != '%')
      && ReadDirective(p[1..]) == Closed(x[0].name, x[0].format, Print(x[1..]))
  {
    var name, format, rest, p := x[0].name, x[0].format, Print(x[1..]), Print(x);
    assert name != "" ==> name[0] in name;
    PrintedDirective(x);
    if NeedsBraces(x) {
      ReadsBraces(name, format, rest);
    } else {
      NextStopsName(x);
      ReadsName(name, rest);
    }
  }

  lemma PrintedDirective(x: seq<Piece>)
    requires x != [] && x[0].Directive?
    ensures Print(x) != "" && Print(x)[0] == '%'
    ensures Print(x)[1..] == if NeedsBraces(x) then x[0].name + "{" + x[0].format + "}" + Print(x[1..]) else x[0].name + Print(x[1..])
  {
    var tail := Written(x[0].name, x[0].format, NeedsBraces(x)) + Print(x[1..]);
    assert Print(x) == "%" + tail && ("%" + tail)[1..] == tail;
  }

  lemma NextStopsName(x: seq<Piece>)
    requires Printable(x) && x != [] && x[0].Directive? && !NeedsBraces(x)
    ensures var rest := Print(x[1..]); rest == "" || (!NameChar(rest[0]) && rest[0] != '{')
  {
    if |x| > 1 && x[1].Text? {
      assert Print(x[1..])[0] == x[1].text[0];
    }
  }

  // ---- what can be read ----------------------------------------------------------------------------

  lemma {:induction false} ScanIsPrintable(p: string, lit: string)
    requires PercentsLast(lit)
    requires lit != "" && lit[|lit| - 1] == '%' ==> p != "" && p[0] == '%'
    ensures !Scan(p, lit).1 ==> Printable(Scan(p, lit).0)
    decreases |p|
  {
    if p == "" {
    } else if p[0] != '%' {
      ScanIsPrintable(p[1..], lit + [p[0]]);
    } else if |p| > 1 && p[1] == '%' {
      ScanIsPrintable(p[1..], lit + "%");
    } else {
      var r := ReadDirective(p[1..]);
      if r.Closed? && !Scan(p, lit).1 {
        ScanIsPrintable(r.rest, "");
        var more := Scan(r.rest, "").0;
        assert forall c :: c in r.name ==> NameChar(c);
        FlushedIsPrintable(lit, Directive(r.name, r.format), more);
      }
    }
  }

  lemma FlushedIsPrintable(lit: string, d: Piece, more: seq<Piece>)
    requires PercentsLast(lit) && Printable(more)
    requires d.Directive? && (forall c :: c in d.name ==> NameChar(c)) && '}' !in d.format
    ensures Printable(Flush(lit) + [d] + more)
  {
    assert ([d] + more)[1..] == more;
    assert Flush(lit) + [d] + more == Flush(lit) + ([d] + more);
    if lit == "" {
      assert Flush(lit) + ([d] + more) == [d] + more;
    } else {
      assert (Flush(lit) + ([d] + more))[1..] == [d] + more;
    }
  }

  /**
   The parser inverts the printer on exactly the printable lists. In particular an unprintable
   list is the reading of no pattern at all.
   */
  lemma RoundTripIffPrintable(x: seq<Piece>)
    ensures Parse(Print(x)) == (x, false) <==> Printable(x)
  {
    if Printable(x) {
      ScanPrinted(x);
    } else {
      ScanIsPrintable(Print(x), "");
    }
  }

  /** Every pattern without an open brace reads as the printed form of its own pieces does. */
  lemma PrintingNormalises(p: string)
    requires !Parse(p).1
    ensures Parse(Print(Parse(p).0)) == Parse(p)
  {
    ScanIsPrintable(p, "");
    ScanPrinted(Parse(p).0);
  }

  // ---- the doubled percent sign ----------------------------------------------------------------------

  /** How many error pieces come out before the text that is pending in front of p. */
  function Overtakers(p: string): nat
    decreases |p|
  {
    if p == "" then 0
    else if p[0] != '%' || (|p| > 1 && p[1] == '%') then Overtakers(p[1..])
    else if ReadDirective(p[1..]).Open? then 1 + Overtakers(p[1..])
    else 0
  }

  function Errors(n: nat): seq<Piece> {
    seq(n, _ => Text(PATTERN_ERROR))
  }

  /** The pieces x with more text in front. */
  function InFront(text: string, x: seq<Piece>): seq<Piece> {
    if text == "" then x
    else if x != [] && x[0].Text? then [Text(text + x[0].text)] + x[1..]
    else [Text(text)] + x
  }

  /**
   Pending text is neither lost nor repeated nor changed: it comes out in front of the text that
   follows it, behind exactly the error pieces that overtake it, and nothing else depends on it.
   */
  lemma {:induction false} PendingTextIsKept(p: string, a: string, b: string)
    ensures var n, x := Overtakers(p), Scan(p, b).0;
      && n <= |x| && x[..n] == Errors(n)
      && Scan(p, a + b) == (Errors(n) + InFront(a, x[n..]), Scan(p, b).1)
    decreases |p|
  {
    if p == "" {
      FlushAlone(a, b);
    } else if p[0] != '%' || (|p| > 1 && p[1] == '%') {
      var c := [p[0]];
      PendingTextIsKept(p[1..], a, b + c);
      assert a + (b + c) == a + b + c;
    } else {
      match ReadDirective(p[1..])
      case Closed(name, format, rest) =>
        FlushInFront(a, b, Directive(name, format), Scan(rest, "").0);
      case Open =>
        PendingTextIsKept(p[1..], a, b);
        OneMoreError(Overtakers(p[1..]), a, Scan(p[1..], b).0);
    }
  }

  lemma OneMoreError(n: nat, a: string, x: seq<Piece>)
    requires n <= |x| && x[..n] == Errors(n)
    ensures var y := [Text(PATTERN_ERROR)] + x;
      && y[..n + 1] == Errors(n + 1)
      && [Text(PATTERN_ERROR)] + (Errors(n) + InFront(a, x[n..])) == Errors(n + 1) + InFront(a, y[n + 1..])
  {
    assert Errors(n + 1) == [Text(PATTERN_ERROR)] + Errors(n);
    var y := [Text(PATTERN_ERROR)] + x;
    assert y[n + 1..] == x[n..] && y[..n + 1] == [Text(PATTERN_ERROR)] + x[..n];
  }

  lemma FlushAlone(a: string, b: string)
    ensures Flush(b)[..0] == Errors(0) && Flush(a + b) == Errors(0) + InFront(a, Flush(b)[0..])
  {
    assert a == "" ==> a + b == b;
    assert b == "" ==> a + b == a;
    assert Flush(b)[0..] == Flush(b) && Errors(0) + InFront(a, Flush(b)) == InFront(a, Flush(b));
  }

  lemma FlushInFront(a: string, b: string, d: Piece, more: seq<Piece>)
    requires d.Directive?
    ensures var x := Flush(b) + [d] + more;
      x[..0] == Errors(0) && Flush(a + b) + [d] + more == Errors(0) + InFront(a, x[0..])
  {
    var x := Flush(b) + [d] + more;
    assert a == "" ==> a + b == b;
    assert b == "" ==> a + b == a;
    assert x[0..] == x && Errors(0) + InFront(a, x) == InFront(a, x);
    assert b != "" ==> x[0] == Text(b) && x[1..] == [d] + more;
  }

  /** Pending text comes out first, at the front of a text, unless an error piece overtakes it. */
  lemma {:induction false} PendingTextComesFirst(p: string, lit: string)
    requires lit != ""
    ensures var x := Scan(p, lit).0;
      x != [] && x[0].Text? && (lit <= x[0].text || x[0].text == PATTERN_ERROR)
    decreases |p|
  {
    if p != "" && p[0] != '%' {
      PendingTextComesFirst(p[1..], lit + [p[0]]);
    } else if |p| > 1 && p[1] == '%' {
      PendingTextComesFirst(p[1..], lit + "%");
    }
  }

  /** Different pending texts give different pieces. */
  lemma LongerTextShows(q: string, l: string, more: string)
    requires l != "" && more != ""
    ensures Scan(q, l + more) != Scan(q, l)
  {
    var n, x := Overtakers(q), Scan(q, "").0;
    PendingTextIsKept(q, l + more, "");
    PendingTextIsKept(q, l, "");
    assert l + more + "" == l + more && l + "" == l;
    assert InFront(l + more, x[n..])[0] != InFront(l, x[n..])[0] by {
      assert |InFront(l + more, x[n..])[0].text| > |InFront(l, x[n..])[0].text|;
    }
    assert (Errors(n) + InFront(l + more, x[n..]))[n] == InFront(l + more, x[n..])[0];
  }

  /** The comment above `init` lists a doubled percent sign as an escape: it never reads as one. */
  lemma DoubledPercentIsNoEscape(q: string, lit: string)
    ensures Scan("%%" + q, lit) != Scan(q, lit + "%")
  {
    var l, p := lit + "%", "%" + q;
    assert ("%%" + q)[1..] == p && p[1..] == q;
    assert Scan("%%" + q, lit) == Scan(p, l);
    if q != "" && q[0] == '%' {
      assert p[1] == '%' && Scan(p, l) == Scan(q, l + "%");
      LongerTextShows(q, l, "%");
    } else {
      match ReadDirective(q)
      case Closed(name, format, rest) =>
        assert Scan(p, l).0[0] == Text(l);
        if q == "" {
          assert |Scan(q, l).0| == 1;
        } else {
          PendingTextComesFirst(q[1..], l + [q[0]]);
          assert l[|l| - 1] == '%' && PATTERN_ERROR[|PATTERN_ERROR| - 1] == '>';
        }
      case Open =>
        assert |Scan(p, l).0| == 1 + |Scan(q, l).0|;
    }
  }
}
