/**
 `LogFormatter` with the index loops of `init`: they compute what `LogPattern` states on suffixes,
 and then turn each piece into a format item.
 */
module LogFormatterCode {
  import opened LogPattern

  /** A format item: fixed text, or one of the named fields with its format. */
  datatype Item = Str(text: string) | Field(name: string, format: string)

  const FIELDS: set<string> := {"m", "p", "r", "c", "t", "n", "d", "f", "l", "T", "F", "N"}

  function ItemOf(x: Piece): (Item, bool) {
    match x
    case Text(s) => (Str(s), false)
    case Directive(name, format) =>
      if name in FIELDS then (Field(name, format), false) else (Str("<<error_format %" + name + ">>"), true)
  }

  function Items(x: seq<Piece>): (seq<Item>, bool) {
    if x == [] then ([], false)
    else ([ItemOf(x[0]).0] + Items(x[1..]).0, ItemOf(x[0]).1 || Items(x[1..]).1)
  }

  /** The items and the error flag that `init` leaves for a pattern. */
  function Read(p: string): (seq<Item>, bool) {
    (Items(Parse(p).0).0, Parse(p).1 || Items(Parse(p).0).1)
  }

  lemma {:induction false} ItemsAppend(x: seq<Piece>, y: seq<Piece>)
    ensures Items(x + y) == (Items(x).0 + Items(y).0, Items(x).1 || Items(y).1)
  {
    if x == [] {
      assert x + y == y && Items(x).0 + Items(y).0 == Items(y).0;
    } else {
      assert (x + y)[1..] == x[1..] + y;
      ItemsAppend(x[1..], y);
      assert [ItemOf(x[0]).0] + (Items(x[1..]).0 + Items(y).0) == Items(x).0 + Items(y).0;
    }
  }

  predicate Unknown(x: Piece) {
    x.Directive? && x.name !in FIELDS
  }

  lemma {:induction false} ItemsFailIff(x: seq<Piece>)
    ensures |Items(x).0| == |x|
    ensures Items(x).1 <==> exists i :: 0 <= i < |x| && Unknown(x[i])
    ensures forall i :: 0 <= i < |x| && x[i].Directive? && !Unknown(x[i]) ==> Items(x).0[i] == Field(x[i].name, x[i].format)
    ensures forall i :: 0 <= i < |x| && x[i].Text? ==> Items(x).0[i] == Str(x[i].text)
  {
    if x != [] {
      ItemsFailIff(x[1..]);
      assert forall i :: 0 < i < |x| ==> x[i] == x[1..][i - 1] && Items(x).0[i] == Items(x[1..]).0[i - 1];
      if Items(x[1..]).1 {
        var i :| 0 <= i < |x[1..]| && Unknown(x[1..][i]);
        assert Unknown(x[i + 1]);
      }
    }
  }

  /** A printed list is formatted without an error exactly when all its directives are known fields. */
  lemma PrintedFormatFailsIff(x: seq<Piece>)
    requires Printable(x)
    ensures Read(Print(x)).1 <==> exists i :: 0 <= i < |x| && Unknown(x[i])
    ensures |Read(Print(x)).0| == |x|
    ensures forall i :: 0 <= i < |x| && x[i].Text? ==> Read(Print(x)).0[i] == Str(x[i].text)
    ensures forall i :: 0 <= i < |x| && x[i].Directive? && !Unknown(x[i]) ==> Read(Print(x)).0[i] == Field(x[i].name, x[i].format)
  {
    RoundTripIffPrintable(x);
    ItemsFailIff(x);
  }

  // ---- suffixes and indices ----------------------------------------------------------------------

  lemma {:induction false} NameLengthIs(q: string, n: nat)
    requires n <= |q| && forall i :: 0 <= i < n ==> NameChar(q[i])
    requires n < |q| ==> !NameChar(q[n])
    ensures NameLength(q) == n
  {
  }

  /** The name ends where something else than a brace begins. */
  lemma ReadsToStop(p: string, i: nat, n: nat)
    requires InName(p, i, n)
    requires n < |p| ==> !NameChar(p[n]) && p[n] != '{'
    ensures ReadDirective(p[i + 1..]) == Closed(p[i + 1..n], "", p[n..])
  {
    var q := p[i + 1..];
    NameLengthIs(q, n - i - 1);
    assert q[..n - i - 1] == p[i + 1..n] && q[n - i - 1..] == p[n..];
  }

  /** From behind the percent sign at i up to n there are only name characters. */
  ghost predicate InName(p: string, i: nat, n: nat) {
    i < n <= |p| && forall j :: i < j < n ==> NameChar(p[j])
  }

  /** The name ends at an opening brace, and the scan for the closing one has come to n. */
  ghost predicate InBraces(p: string, i: nat, begin: nat, n: nat) {
    && i < begin < n <= |p| && p[begin] == '{'
    && (forall j :: i < j < begin ==> NameChar(p[j]))
    && (forall j :: begin < j < n ==> p[j] != '}')
  }

  lemma ReadsToClose(p: string, i: nat, begin: nat, n: nat)
    requires InBraces(p, i, begin, n) && (n < |p| ==> p[n] == '}')
    ensures ReadDirective(p[i + 1..]) ==
      if n < |p| then Closed(p[i + 1..begin], p[begin + 1..n], p[n + 1..]) else Open
  {
    NameStopsAt(p, i, begin);
    ClosesAt(p, begin, n);
    ReadsBody(p[i + 1..], begin - i - 1, p[begin + 1..], n - begin - 1,
              p[i + 1..begin], p[begin + 1..n], if n < |p| then p[n + 1..] else "");
  }

  lemma ReadsBody(q: string, m: nat, body: string, c: nat, name: string, format: string, rest: string)
    requires NameLength(q) == m < |q| && q[m] == '{' && q[m + 1..] == body && q[..m] == name
    requires CloseAt(body) == c && (c < |body| ==> body[..c] == format && body[c + 1..] == rest)
    ensures ReadDirective(q) == if c < |body| then Closed(name, format, rest) else Open
  {
  }

  lemma NameStopsAt(p: string, i: nat, begin: nat)
    requires i < begin < |p| && p[begin] == '{' && forall j :: i < j < begin ==> NameChar(p[j])
    ensures var q, m := p[i + 1..], begin - i - 1;
      NameLength(q) == m && q[m] == '{' && q[..m] == p[i + 1..begin] && q[m + 1..] == p[begin + 1..]
  {
    NameLengthIs(p[i + 1..], begin - i - 1);
  }

  lemma ClosesAt(p: string, begin: nat, n: nat)
    requires begin < n <= |p| && (n < |p| ==> p[n] == '}') && forall j :: begin < j < n ==> p[j] != '}'
    ensures var body := p[begin + 1..];
      && CloseAt(body) == n - begin - 1
      && (n < |p| ==> body[..n - begin - 1] == p[begin + 1..n] && body[n - begin - 1 + 1..] == p[n + 1..])
  {
    var body := p[begin + 1..];
    assert forall j :: begin < j < n ==> body[j - begin - 1] == p[j];
    assert forall j :: 0 <= j < n - begin - 1 ==> body[j] == p[j + begin + 1];
  }

  /** What has been read and what is still to be read, when the outer loop stands at i. */
  function Total(p: string, vec: seq<Piece>, error: bool, i: nat, nstr: string): (seq<Piece>, bool)
    requires i <= |p|
  {
    (vec + Scan(p[i..], nstr).0, error || Scan(p[i..], nstr).1)
  }

  lemma TotalAtText(p: string, vec: seq<Piece>, error: bool, i: nat, nstr: string)
    requires i < |p| && (p[i] != '%' || (i + 1 < |p| && p[i + 1] == '%'))
    ensures Total(p, vec, error, i, nstr) == Total(p, vec, error, i + 1, nstr + [p[i]])
  {
    assert p[i..][1..] == p[i + 1..];
  }

  lemma TotalAtDirective(p: string, vec: seq<Piece>, error: bool, i: nat, nstr: string, d: Piece, n: nat)
    requires i < n <= |p| && p[i] == '%' && (i + 1 < |p| ==> p[i + 1] != '%')
    requires d.Directive? && ReadDirective(p[i + 1..]) == Closed(d.name, d.format, p[n..])
    ensures Total(p, vec, error, i, nstr) == Total(p, vec + Flush(nstr) + [d], error, n, "")
  {
    assert p[i..][1..] == p[i + 1..];
    var (more, open) := Scan(p[n..], "");
    assert Scan(p[i..], nstr) == (Flush(nstr) + [d] + more, open);
    assert vec + (Flush(nstr) + [d] + more) == vec + Flush(nstr) + [d] + more;
  }

  lemma TotalAtOpenBrace(p: string, vec: seq<Piece>, error: bool, i: nat, nstr: string)
    requires i < |p| && p[i] == '%' && (i + 1 < |p| ==> p[i + 1] != '%') && ReadDirective(p[i + 1..]) == Open
    ensures Total(p, vec, error, i, nstr) == Total(p, vec + [Text(PATTERN_ERROR)], true, i + 1, nstr)
  {
    assert p[i..][1..] == p[i + 1..];
    var more := Scan(p[i + 1..], nstr).0;
    assert vec + ([Text(PATTERN_ERROR)] + more) == vec + [Text(PATTERN_ERROR)] + more;
  }

  lemma TotalAtEnd(p: string, vec: seq<Piece>, error: bool, nstr: string)
    ensures Total(p, vec, error, |p|, nstr) == (if nstr != "" then vec + [Text(nstr)] else vec, error)
  {
    assert p[|p|..] == "" && vec + [] == vec;
  }

  class LogFormatter {
    const pattern: string
    var items: seq<Item>
    var error: bool

    /** Everything a formatter needs is read from its pattern when it is made. */
    constructor (pattern: string)
      ensures this.pattern == pattern && (items, error) == Read(pattern)
    {
      this.pattern, items, error := pattern, [], false;
      new;
      Init();
    }

    /** The inner loop: from the percent sign at i to behind the directive, or to the end of an open brace. */
    method ScanDirective(i: nat) returns (str: string, fmt: string, status: int, n: nat)
      requires i < |pattern| && pattern[i] == '%'
      ensures status == 0 || status == 1
      ensures status == 0 ==> i < n <= |pattern| && ReadDirective(pattern[i + 1..]) == Closed(str, fmt, pattern[n..])
      ensures status == 1 ==> ReadDirective(pattern[i + 1..]) == Open && fmt == ""
    {
      n, status := i + 1, 0;
      var begin := 0;
      str, fmt := "", "";
      while n < |pattern|
        invariant i < n <= |pattern| && fmt == "" && (status == 0 || status == 1)
        invariant status == 0 ==> InName(pattern, i, n)
        invariant status == 0 ==> str == if n == |pattern| then pattern[i + 1..] else ""
        invariant status == 1 ==> InBraces(pattern, i, begin, n)
        invariant status == 1 && n < |pattern| ==> str == pattern[i + 1..begin]
      {
        if status == 0 && !IsAlpha(pattern[n]) && pattern[n] != '{' && pattern[n] != '}' {
          str := pattern[i + 1..n];
          ReadsToStop(pattern, i, n);
          return;
        }
        if status == 0 {
          if pattern[n] == '{' {
            str := pattern[i + 1..n];
            status := 1;
            begin := n;
            n := n + 1;
            continue;
          }
        } else if status == 1 {
          if pattern[n] == '}' {
            fmt := pattern[begin + 1..n];
            ReadsToClose(pattern, i, begin, n);
            status := 0;
            n := n + 1;
            return;
          }
        }
        n := n + 1;
        if n == |pattern| {
          if str == "" {
            str := pattern[i + 1..];
          }
        }
      }
      if status == 0 {
        ReadsToStop(pattern, i, n);
      } else {
        ReadsToClose(pattern, i, begin, n);
      }
    }

    /** The outer loop; the index moves on in every turn. */
    method ScanPattern() returns (vec: seq<Piece>)
      modifies this`error
      ensures (vec, error) == (Parse(pattern).0, old(error) || Parse(pattern).1)
    {
      vec := [];
      var nstr := "";
      var i := 0;
      assert pattern[0..] == pattern && Total(pattern, [], error, 0, "").0 == Parse(pattern).0;
      while i < |pattern|
        invariant 0 <= i <= |pattern|
        invariant Total(pattern, vec, error, i, nstr) == (Parse(pattern).0, old(error) || Parse(pattern).1)
      {
        if pattern[i] != '%' {
          TotalAtText(pattern, vec, error, i, nstr);
          nstr := nstr + [pattern[i]];
          i := i + 1;
          continue;
        }
        if i + 1 < |pattern| {
          if pattern[i + 1] == '%' {
            TotalAtText(pattern, vec, error, i, nstr);
            nstr := nstr + "%";
            i := i + 1;
            continue;
          }
        }
        var str, fmt, status, n := ScanDirective(i);
        if status == 0 {
          TotalAtDirective(pattern, vec, error, i, nstr, Directive(str, fmt), n);
          assert vec + [] == vec;
          if nstr != "" {
            vec := vec + [Text(nstr)];
            nstr := "";
          }
          vec := vec + [Directive(str, fmt)];
          i := n;
        } else {
          TotalAtOpenBrace(pattern, vec, error, i, nstr);
          error := true;
          vec := vec + [Text(PATTERN_ERROR)];
          i := i + 1;
        }
      }
      TotalAtEnd(pattern, vec, error, nstr);
      if nstr != "" {
        vec := vec + [Text(nstr)];
      }
    }

    method Init()
      requires items == [] && !error
      modifies this
      ensures (items, error) == Read(pattern)
    {
      var vec := ScanPattern();
      var i := 0;
      assert vec[..0] == [] && vec[..|vec|] == vec;
      while i < |vec|
        invariant 0 <= i <= |vec|
        invariant items == Items(vec[..i]).0
        invariant error == (Parse(pattern).1 || Items(vec[..i]).1)
      {
        assert vec[..i + 1] == vec[..i] + [vec[i]];
        ItemsAppend(vec[..i], [vec[i]]);
        match vec[i] {
          case Text(s) =>
            items := items + [Str(s)];
          case Directive(name, format) =>
            if name !in FIELDS {
              items := items + [Str("<<error_format %" + name + ">>")];
              error := true;
            } else {
              items := items + [Field(name, format)];
            }
        }
        i := i + 1;
      }
    }
  }
}
