/**
 The twelve fields of a log pattern, and what the default pattern stands for.
 */
module LogFields {
  import opened LogPattern
  import opened LogFormatterCode
  import opened LogConfig

  // ---- the fields -----------------------------------------------------------------------------

  lemma FieldsOfOneLetter(name: char)
    ensures [name] in FIELDS <==> name in {'m', 'p', 'r', 'c', 't', 'n', 'd', 'f', 'l', 'T', 'F', 'N'}
  {
    assert forall c: char :: [name] == [c] ==> [name][0] == c;
    if [name] in FIELDS {
      assert [name][0] == name;
    }
  }

  lemma OneItem(x: Piece)
    ensures Items([x]) == ([ItemOf(x).0], ItemOf(x).1)
  {
    assert [x][1..] == [] && [ItemOf(x).0] + [] == [ItemOf(x).0];
  }

  /** The pattern of one letter is read without an error exactly for the twelve fields. */
  lemma FieldReads(name: char)
    requires NameChar(name)
    ensures Read(['%', name]) ==
      if name in {'m', 'p', 'r', 'c', 't', 'n', 'd', 'f', 'l', 'T', 'F', 'N'} then ([Field([name], "")], false)
      else ([Str("<<error_format %" + [name] + ">>")], true)
  {
    var p, d := ['%', name], Directive([name], "");
    NameEnds([name], "");
    assert p[1..] == [name] + "" == [name];
    assert ReadDirective(p[1..]) == Closed([name], "", "");
    ScanOne(p, "", d, "");
    assert Flush("") + [d] + [] == [d];
    OneItem(d);
    FieldsOfOneLetter(name);
  }

  // ---- reading from the front -----------------------------------------------------------------

  /** Something that is not read as part of a field before it. */
  predicate Apart(rest: string) {
    rest == "" || (!NameChar(rest[0]) && rest[0] != '{')
  }

  lemma ScanOne(p: string, lit: string, d: Piece, rest: string)
    requires p != "" && p[0] == '%' && (|p| > 1 ==> p[1] != '%')
    requires d.Directive? && ReadDirective(p[1..]) == Closed(d.name, d.format, rest)
    ensures Scan(p, lit) == (Flush(lit) + [d] + Scan(rest, "").0, Scan(rest, "").1)
  {
  }

  /** One field behind pending text. */
  lemma ReadOne(p: string, lit: string, d: Piece, rest: string)
    requires p != "" && p[0] == '%' && (|p| > 1 ==> p[1] != '%')
    requires d.Directive? && d.name in FIELDS && ReadDirective(p[1..]) == Closed(d.name, d.format, rest)
    ensures Items(Scan(p, lit).0).0 == (if lit == "" then [] else [Str(lit)]) + [Field(d.name, d.format)] + Read(rest).0
    ensures (Scan(p, lit).1 || Items(Scan(p, lit).0).1) == Read(rest).1
  {
    ScanOne(p, lit, d, rest);
    ItemsAppend(Flush(lit) + [d], Scan(rest, "").0);
    ItemsAppend(Flush(lit), [d]);
    OneItem(d);
    OneItem(Text(lit));
  }

  lemma NameThenRest(name: char, rest: string)
    requires NameChar(name) && Apart(rest)
    ensures ReadDirective([name] + rest) == Closed([name], "", rest)
  {
    NameEnds([name], rest);
    assert ([name] + rest)[..1] == [name] && ([name] + rest)[1..] == rest;
  }

  lemma Behind<T>(a: T, b: seq<T>, c: seq<T>)
    ensures ([a] + b + c)[1..] == b + c && [a] + (b + c) == [a] + b + c
  {
  }

  /** A field of one letter before the pattern `rest`, which reads as x. */
  lemma FieldAhead(name: char, rest: string, x: seq<Item>) returns (p: string, y: seq<Item>)
    requires [name] in FIELDS && NameChar(name) && Apart(rest) && Read(rest) == (x, false)
    ensures p == ['%', name] + rest && y == [Field([name], "")] + x && Read(p) == (y, false)
  {
    p, y := ['%', name] + rest, [Field([name], "")] + x;
    Behind('%', [name], rest);
    assert ['%'] + [name] == ['%', name];
    NameThenRest(name, rest);
    ReadOne(p, "", Directive([name], ""), rest);
  }

  /** A character of text before such a field. */
  lemma TextAhead(c: char, name: char, rest: string, x: seq<Item>) returns (p: string, y: seq<Item>)
    requires c != '%' && [name] in FIELDS && NameChar(name) && Apart(rest) && Read(rest) == (x, false)
    ensures p == [c, '%', name] + rest && y == [Str([c]), Field([name], "")] + x && Read(p) == (y, false)
  {
    p, y := [c, '%', name] + rest, [Str([c]), Field([name], "")] + x;
    var q := ['%', name] + rest;
    Behind(c, ['%', name], rest);
    assert [c] + ['%', name] == [c, '%', name];
    Behind('%', [name], rest);
    assert ['%'] + [name] == ['%', name] && "" + [c] == [c];
    NameThenRest(name, rest);
    ReadOne(q, [c], Directive([name], ""), rest);
    TextComesFirst(p, c);
    assert [Str([c])] + [Field([name], "")] == [Str([c]), Field([name], "")];
  }

  lemma TextComesFirst(p: string, c: char)
    requires p != "" && p[0] == c != '%'
    ensures Scan(p, "") == Scan(p[1..], [c])
  {
    assert "" + [c] == [c];
  }

  /** A field with a format. */
  lemma FormatAhead(name: char, format: string, rest: string, x: seq<Item>) returns (p: string, y: seq<Item>)
    requires [name] in FIELDS && NameChar(name) && '}' !in format && Read(rest) == (x, false)
    ensures p == ['%', name] + "{" + format + "}" + rest && y == [Field([name], format)] + x && Read(p) == (y, false)
  {
    p, y := ['%', name] + "{" + format + "}" + rest, [Field([name], format)] + x;
    var body := format + "}" + rest;
    var q := [name] + ("{" + body);
    assert p[1..] == q;
    NameEnds([name], "{" + body);
    BraceCloses(format, rest);
    assert q[..1] == [name] && q[1 + 1..] == body && body[..|format|] == format && body[|format| + 1..] == rest;
    ReadOne(p, "", Directive([name], format), rest);
  }

  // ---- a brace that is not closed -------------------------------------------------------------

  /** Text without a percent sign is pending until something else comes. */
  lemma {:induction false} TextIsPending(t: string, rest: string, lit: string)
    requires '%' !in t
    ensures Scan(t + rest, lit) == Scan(rest, lit + t)
    decreases |t|
  {
    if t == "" {
      assert t + rest == rest && lit + t == lit;
    } else {
      assert (t + rest)[0] == t[0] && (t + rest)[1..] == t[1..] + rest;
      TextIsPending(t[1..], rest, lit + [t[0]]);
      assert lit + [t[0]] + t[1..] == lit + t;
    }
  }

  lemma StaysOpen(name: string, body: string)
    requires (forall c :: c in name ==> NameChar(c)) && '}' !in body
    ensures ReadDirective(name + ("{" + body)) == Open
  {
    var q := name + ("{" + body);
    NameEnds(name, "{" + body);
    assert q[|name|] == '{' && q[|name| + 1..] == body;
    NeverCloses(body);
  }

  lemma OpenIsText(q: string, lit: string)
    requires q != "" && '%' !in q && ReadDirective(q) == Open
    ensures Scan("%" + q, lit) == ([Text("<<pattern_error>>"), Text(lit + q)], true)
  {
    assert ("%" + q)[1..] == q && q[0] in q;
    TextIsPending(q, "", lit);
    assert q + "" == q && Scan(q, lit) == ([Text(lit + q)], false);
    assert [Text(PATTERN_ERROR)] + [Text(lit + q)] == [Text("<<pattern_error>>"), Text(lit + q)];
  }

  /** An unclosed directive yields the error, and stays as text behind it without its percent sign. */
  lemma UnclosedBraceIsText(t: string, name: string, body: string)
    requires '%' !in t && (forall c :: c in name ==> NameChar(c)) && '%' !in body && '}' !in body
    ensures Parse(t + ("%" + (name + ("{" + body)))) == ([Text("<<pattern_error>>"), Text(t + (name + ("{" + body)))], true)
  {
    var q := name + ("{" + body);
    TextIsPending(t, "%" + q, "");
    assert "" + t == t && '%' !in q;
    StaysOpen(name, body);
    OpenIsText(q, t);
  }

  lemma {:induction false} NeverCloses(body: string)
    requires '}' !in body
    ensures CloseAt(body) == |body|
  {
    if body != "" {
      NeverCloses(body[1..]);
    }
  }

  // ---- the default pattern --------------------------------------------------------------------

  /** The default pattern is read without an error: time, thread, its name, fiber, level, logger, file, line and message. */
  lemma DefaultPatternReads(p: string) returns (x: seq<Item>)
    requires p == DEFAULT_PATTERN
    ensures Read(p) == (x, false)
    ensures x ==
      [Field("d", "%Y-%m-%d %H:%M:%S")] + ([Field("T", "")] + ([Field("t", "")] + ([Field("T", "")] + ([Field("N", "")] +
      ([Field("T", "")] + ([Field("F", "")] + ([Field("T", "")] + ([Str("["), Field("p", "")] + ([Str("]"), Field("T", "")] +
      ([Str("["), Field("c", "")] + ([Str("]"), Field("T", "")] + ([Field("f", "")] + ([Str(":"), Field("l", "")] +
      ([Field("T", "")] + ([Field("m", "")] + ([Field("n", "")] + []))))))))))))))))
  {
    var q, y := LineReads();
    q, y := BracketsRead(q, y);
    q, y := ColumnsRead(q, y);
    q, x := FormatAhead('d', "%Y-%m-%d %H:%M:%S", q, y);
    assert q == p;
  }

  /** Thread, its name and the fiber. */
  lemma ColumnsRead(rest: string, y: seq<Item>) returns (p: string, x: seq<Item>)
    requires Apart(rest) && Read(rest) == (y, false)
    ensures p == "%T" + ("%t" + ("%T" + ("%N" + ("%T" + ("%F" + ("%T" + rest)))))) && Read(p) == (x, false)
    ensures x == [Field("T", "")] + ([Field("t", "")] + ([Field("T", "")] + ([Field("N", "")] + ([Field("T", "")] +
      ([Field("F", "")] + ([Field("T", "")] + y))))))
  {
    p, x := FieldAhead('T', rest, y);
    p, x := FieldAhead('F', p, x);
    p, x := FieldAhead('T', p, x);
    p, x := FieldAhead('N', p, x);
    p, x := FieldAhead('T', p, x);
    p, x := FieldAhead('t', p, x);
    p, x := FieldAhead('T', p, x);
  }

  /** Level and logger, in brackets. */
  lemma BracketsRead(rest: string, y: seq<Item>) returns (p: string, x: seq<Item>)
    requires Apart(rest) && Read(rest) == (y, false)
    ensures p == "[%p" + ("]%T" + ("[%c" + ("]%T" + rest))) && Read(p) == (x, false)
    ensures x == [Str("["), Field("p", "")] + ([Str("]"), Field("T", "")] + ([Str("["), Field("c", "")] + ([Str("]"), Field("T", "")] + y)))
  {
    p, x := TextAhead(']', 'T', rest, y);
    p, x := TextAhead('[', 'c', p, x);
    p, x := TextAhead(']', 'T', p, x);
    p, x := TextAhead('[', 'p', p, x);
  }

  /** File, line, message and the end of the line. */
  lemma LineReads() returns (p: string, x: seq<Item>)
    ensures p == "%f" + (":%l" + ("%T" + ("%m" + ("%n" + "")))) && Read(p) == (x, false)
    ensures x == [Field("f", "")] + ([Str(":"), Field("l", "")] + ([Field("T", "")] + ([Field("m", "")] + ([Field("n", "")] + []))))
  {
    p, x := FieldAhead('n', "", []);
    p, x := FieldAhead('m', p, x);
    p, x := FieldAhead('T', p, x);
    p, x := TextAhead(':', 'l', p, x);
    p, x := FieldAhead('f', p, x);
  }
}
