/**
The SDK's SQL quoting and the statements built with it, read back by the lexer of SqlLexer.
 */
module SqlQuoting {
  import opened Wrappers
  import opened SqlLexer

  datatype QuoteError = EmptyIdentifier | NulByte

  const NUL: char := '\0'

  // ----- quoteIdent, quoteLiteral -----------------------------------------------------------------------

  /** Every c replaced by r. */
  function ReplaceAll(s: string, c: char, r: string): string {
    if s == "" then "" else (if s[0] == c then r else [s[0]]) + ReplaceAll(s[1..], c, r)
  }

  function QuoteIdent(name: string): Result<string, QuoteError> {
    if name == "" then Err(EmptyIdentifier)
    else if NUL in name then Err(NulByte)
    else Ok("\"" + ReplaceAll(name, '"', "\"\"") + "\"")
  }

  function QuoteLiteral(value: string): Result<string, QuoteError> {
    if NUL in value then Err(NulByte)
    else
      var escaped := ReplaceAll(value, '\'', "''");
      if '\\' in value then Ok("E'" + ReplaceAll(escaped, '\\', "\\\\") + "'")
      else Ok("'" + escaped + "'")
  }

  // ----- Quoting undoes lexing: string literals -----------------------------------------------------------

  lemma {:induction false} ReplaceJoin(a: string, b: string, c: char, r: string)
    ensures ReplaceAll(a + b, c, r) == ReplaceAll(a, c, r) + ReplaceAll(b, c, r)
  {
    if a == "" {
      assert a + b == b;
    } else {
      assert (a + b)[1..] == a[1..] + b;
      ReplaceJoin(a[1..], b, c, r);
    }
  }

  function EscapeChar(c: char, escapes: bool): string {
    if c == '\'' then "''" else if escapes && c == '\\' then "\\\\" else [c]
  }

  function Escaped(v: string, escapes: bool): string {
    if v == "" then "" else EscapeChar(v[0], escapes) + Escaped(v[1..], escapes)
  }

  lemma {:induction false} PlainEscaped(v: string)
    ensures ReplaceAll(v, '\'', "''") == Escaped(v, false)
  {
    if v != "" { PlainEscaped(v[1..]); }
  }

  /** Quotes first, backslashes second comes to escaping each character once. */
  lemma {:induction false} TwiceEscaped(v: string)
    ensures ReplaceAll(ReplaceAll(v, '\'', "''"), '\\', "\\\\") == Escaped(v, true)
  {
    if v != "" {
      var head := if v[0] == '\'' then "''" else [v[0]];
      TwiceEscaped(v[1..]);
      ReplaceJoin(head, ReplaceAll(v[1..], '\'', "''"), '\\', "\\\\");
      assert head[1..] == "" || (|head| == 2 && head[1..] == "'" && head[1..][1..] == "");
    }
  }

  lemma {:induction false} PrependPrepend(a: string, b: string, r: Option<Scan>)
    ensures Prepend(a, Prepend(b, r)) == Prepend(a + b, r)
  {
    if r.Some? { assert a + (b + r.value.value) == (a + b) + r.value.value; }
  }

  /** One escaped character is read back as that character, whatever follows it. */
  lemma {:induction false} BodyChar(c: char, escapes: bool, tail: string)
    requires c == '\\' ==> escapes
    ensures Body(escapes, EscapeChar(c, escapes) + tail) == Prepend([c], Body(escapes, tail))
  {
    var s := EscapeChar(c, escapes) + tail;
    if c == '\'' {
      assert s[..2] == "''" && s[2..] == tail;
    } else if c == '\\' {
      assert s[0] == '\\' && s[1] == '\\' && s[2..] == tail;
    } else {
      assert s[0] == c && s[1..] == tail;
    }
  }

  lemma {:induction false} BodyEscaped(v: string, escapes: bool, tail: string)
    requires '\\' in v ==> escapes
    ensures Body(escapes, Escaped(v, escapes) + tail) == Prepend(v, Body(escapes, tail))
  {
    hide Body;
    if v == "" {
      assert Escaped(v, escapes) + tail == tail;
      PrependNothing(Body(escapes, tail));
    } else {
      var rest := Escaped(v[1..], escapes) + tail;
      BodyEscaped(v[1..], escapes, tail);
      BodyChar(v[0], escapes, rest);
      PrependPrepend([v[0]], v[1..], Body(escapes, tail));
      assert [v[0]] + v[1..] == v;
      assert Escaped(v, escapes) + tail == EscapeChar(v[0], escapes) + rest;
    }
  }

  lemma {:induction false} PrependNothing(r: Option<Scan>)
    ensures Prepend("", r) == r
  {
    if r.Some? { assert "" + r.value.value == r.value.value; }
  }

  /** What may not follow a string constant: a quote, or a continuation of it. */
  predicate Joins(rest: string) { Starts(rest, "'") || Continuation(rest, false).Some? }

  lemma {:induction false} BodyClosing(escapes: bool, rest: string)
    ensures !Joins(rest) ==> Body(escapes, "'" + rest) == Some(Scan("", rest))
    ensures Joins(rest) ==> Body(escapes, "'" + rest).Some? ==> |Body(escapes, "'" + rest).value.rest| < |rest|
  {
    hide Continuation;
    var s := "'" + rest;
    assert s[0] == '\'' && s[1..] == rest;
    assert Starts(s, "''") <==> Starts(rest, "'") by {
      if |rest| > 0 { assert s[..2] == ['\'', rest[0]] && rest[..1] == [rest[0]]; }
    }
    if Starts(rest, "'") { assert s[2..] == rest[1..]; }
  }

  lemma {:induction false} QuotedForm(v: string)
    requires NUL !in v
    ensures QuoteLiteral(v)
         == Ok((if '\\' in v then "E'" else "'") + Escaped(v, '\\' in v) + "'")
  {
    PlainEscaped(v);
    TwiceEscaped(v);
  }

  lemma {:induction false} LexQuoted(v: string, conforming: bool, rest: string)
    requires NUL !in v
    ensures IsString(QuoteLiteral(v).value + rest)
    ensures '\\' in v ==> LexString(conforming, QuoteLiteral(v).value + rest) == Prepend(v, Body(true, "'" + rest))
    ensures '\\' !in v ==> LexString(conforming, QuoteLiteral(v).value + rest) == Prepend(v, Body(!conforming, "'" + rest))
  {
    hide Body, ReplaceAll, QuoteLiteral;
    QuotedForm(v);
    var s := QuoteLiteral(v).value + rest;
    if '\\' in v {
      assert s[2..] == Escaped(v, true) + ("'" + rest);
      assert s[0] == 'E' && s[1] == '\'';
      BodyEscaped(v, true, "'" + rest);
    } else {
      assert s[1..] == Escaped(v, false) + ("'" + rest);
      assert s[0] == '\'';
      EscapesIrrelevant(v, !conforming);
      BodyEscaped(v, !conforming, "'" + rest);
    }
  }

  /** Without a backslash the two ways of escaping agree. */
  lemma {:induction false} EscapesIrrelevant(v: string, escapes: bool)
    requires '\\' !in v
    ensures Escaped(v, escapes) == Escaped(v, false)
  {
    if v != "" {
      assert v[0] in v && forall c :: c in v[1..] ==> c in v;
      EscapesIrrelevant(v[1..], escapes);
    }
  }

  /**
  A quoted literal is read back as its value, followed by exactly the text after it, under either
  setting of standard_conforming_strings, if and only if that text neither begins with a quote nor
  continues the constant on another line.
   */
  lemma {:induction false} LiteralReadBack(v: string, conforming: bool, rest: string)
    requires NUL !in v
    ensures IsString(QuoteLiteral(v).value + rest)
    ensures LexString(conforming, QuoteLiteral(v).value + rest) == Some(Scan(v, rest)) <==> !Joins(rest)
  {
    hide Body, QuoteLiteral, LexString, Joins;
    LexQuoted(v, conforming, rest);
    var escapes := '\\' in v || !conforming;
    BodyClosing(escapes, rest);
    assert v + "" == v;
  }

  /** A literal is refused exactly for a NUL. */
  lemma {:induction false} RefusedExactly(value: string, name: string)
    ensures QuoteLiteral(value).Err? <==> NUL in value
    ensures QuoteIdent(name).Err? <==> name == "" || NUL in name
  {
    hide ReplaceAll;
  }

  // ----- Quoting undoes lexing: identifiers ------------------------------------------------------------------

  lemma {:induction false} IdentChar(c: char, tail: string)
    ensures IdentBody((if c == '"' then "\"\"" else [c]) + tail) == Prepend([c], IdentBody(tail))
  {
    var s := (if c == '"' then "\"\"" else [c]) + tail;
    if c == '"' {
      assert s[..2] == "\"\"" && s[2..] == tail;
    } else {
      assert s[0] == c && s[1..] == tail;
      assert !Starts(s, "\"\"");
    }
  }

  lemma {:induction false} IdentEscaped(name: string, tail: string)
    ensures IdentBody(ReplaceAll(name, '"', "\"\"") + tail) == Prepend(name, IdentBody(tail))
  {
    hide IdentBody, Prepend;
    if name == "" {
      assert ReplaceAll(name, '"', "\"\"") + tail == tail;
      PrependNothing(IdentBody(tail));
    } else {
      var rest := ReplaceAll(name[1..], '"', "\"\"") + tail;
      IdentEscaped(name[1..], tail);
      PrependPrepend([name[0]], name[1..], IdentBody(tail));
      assert [name[0]] + name[1..] == name;
      IdentChar(name[0], rest);
      assert ReplaceAll(name, '"', "\"\"") + tail == (if name[0] == '"' then "\"\"" else [name[0]]) + rest;
    }
  }

  lemma {:induction false} IdentClosing(rest: string)
    ensures !Starts(rest, "\"") ==> IdentBody("\"" + rest) == Some(Scan("", rest))
    ensures Starts(rest, "\"") ==> IdentBody("\"" + rest).Some? ==> |IdentBody("\"" + rest).value.rest| < |rest|
  {
    var s := "\"" + rest;
    assert s[0] == '"' && s[1..] == rest;
    assert Starts(s, "\"\"") <==> Starts(rest, "\"") by {
      if |rest| > 0 { assert s[..2] == ['"', rest[0]] && rest[..1] == [rest[0]]; }
    }
    if Starts(rest, "\"") { assert s[2..] == rest[1..]; }
  }

  /** The same for identifiers, up to the next character not being a double quote. */
  lemma {:induction false} IdentReadBack(name: string, rest: string)
    requires name != "" && NUL !in name
    ensures var s := QuoteIdent(name).value + rest;
            s[0] == '"' && (LexIdent(s) == Some(Scan(name, rest)) <==> !Starts(rest, "\""))
  {
    hide IdentBody, ReplaceAll, Starts;
    var s := QuoteIdent(name).value + rest;
    assert s[0] == '"' && s[1..] == ReplaceAll(name, '"', "\"\"") + ("\"" + rest);
    IdentEscaped(name, "\"" + rest);
    IdentClosing(rest);
    assert name + "" == name;
  }
}
