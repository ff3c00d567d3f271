/**
The part of PostgreSQL's lexer that quoting is about: sections 4.1.1, 4.1.2.1 and 4.1.2.2 of the
PostgreSQL manual, and the decimal numbers of section 4.1.2.6. conforming is the server's
standard_conforming_strings setting.

Numeric and Unicode escapes in escape strings, dollar quoting, the B, X, N and U& prefixes, and numbers
with a radix prefix or with underscores are not modelled: an escape string or a number that uses one does
not lex here.
 */
module SqlLexer {
  import opened DecimalText
  import opened Wrappers

  datatype Token = Word(text: string) | Ident(name: string) | Str(value: string) | Number(text: string) | Symbol(text: string)

  predicate IsNewline(c: char) { c == '\n' || c == '\r' }

  predicate IsSpace(c: char) { c == ' ' || c == '\t' || c == '\U{0b}' || c == '\U{0c}' || IsNewline(c) }

  predicate IsWordStart(c: char) { 'a' <= c <= 'z' || 'A' <= c <= 'Z' || c == '_' || c >= '\U{80}' }

  predicate IsWordChar(c: char) { IsWordStart(c) || IsDigit(c) || c == '$' }

  predicate IsOperator(c: char) {
    c in {'+', '-', '*', '/', '<', '>', '=', '~', '!', '@', '#', '%', '^', '&', '|', '`', '?'}
  }

  predicate Starts(s: string, prefix: string) { |prefix| <= |s| && s[..|prefix|] == prefix }

  /** A comment reaches to the end of its line; the newline stays. */
  function AfterLine(s: string): (r: string)
    ensures |r| <= |s|
  {
    if s == "" || IsNewline(s[0]) then s else AfterLine(s[1..])
  }

  function AfterBlock(s: string, depth: nat): (r: Option<string>)
    ensures r.Some? ==> |r.value| <= |s|
  {
    if depth == 0 then Some(s)
    else if Starts(s, "*/") then AfterBlock(s[2..], depth - 1)
    else if Starts(s, "/*") then AfterBlock(s[2..], depth + 1)
    else if s == "" then None
    else AfterBlock(s[1..], depth)
  }

  // ----- String constants -----------------------------------------------------------------------------

  /**
  Where a string constant goes on, after its closing quote: white space or comments with at least
  one newline among them, then another quote.
   */
  function Continuation(s: string, newline: bool): (r: Option<string>)
    ensures r.Some? ==> |r.value| < |s|
    decreases |s|
  {
    if s == "" then None
    else if IsSpace(s[0]) then Continuation(s[1..], newline || IsNewline(s[0]))
    else if Starts(s, "--") then Continuation(AfterLine(s[2..]), newline)
    else if newline && s[0] == '\'' then Some(s[1..])
    else None
  }

  function Unescape(c: char): Option<char> {
    if c == 'b' then Some('\U{08}')
    else if c == 'f' then Some('\U{0c}')
    else if c == 'n' then Some('\n')
    else if c == 'r' then Some('\r')
    else if c == 't' then Some('\t')
    else if c == 'x' || c == 'u' || c == 'U' || '0' <= c <= '7' then None
    else Some(c)
  }

  datatype Scan = Scan(value: string, rest: string)

  function Prepend(v: string, r: Option<Scan>): Option<Scan> {
    match r
    case Some(scan) => Some(Scan(v + scan.value, scan.rest))
    case None => None
  }

  /** The rest of a string constant after its opening quote. */
  function Body(escapes: bool, s: string): (r: Option<Scan>)
    ensures r.Some? ==> |r.value.rest| < |s|
    decreases |s|
  {
    if s == "" then None
    else if s[0] == '\'' then
      if Starts(s, "''") then Prepend("'", Body(escapes, s[2..]))
      else
        match Continuation(s[1..], false)
        case Some(t) => Body(escapes, t)
        case None => Some(Scan("", s[1..]))
    else if escapes && s[0] == '\\' then
      if |s| < 2 || Unescape(s[1]) == None then None
      else Prepend([Unescape(s[1]).value], Body(escapes, s[2..]))
    else Prepend([s[0]], Body(escapes, s[1..]))
  }

  predicate IsEscapeString(s: string) { |s| >= 2 && (s[0] == 'E' || s[0] == 'e') && s[1] == '\'' }

  predicate IsString(s: string) { (s != "" && s[0] == '\'') || IsEscapeString(s) }

  function LexString(conforming: bool, s: string): (r: Option<Scan>)
    requires IsString(s)
    ensures r.Some? ==> |r.value.rest| < |s|
  {
    if s[0] == '\'' then Body(!conforming, s[1..]) else Body(true, s[2..])
  }

  // ----- Delimited identifiers --------------------------------------------------------------------------

  function IdentBody(s: string): (r: Option<Scan>)
    ensures r.Some? ==> |r.value.rest| < |s|
    decreases |s|
  {
    if s == "" then None
    else if Starts(s, "\"\"") then Prepend("\"", IdentBody(s[2..]))
    else if s[0] == '"' then Some(Scan("", s[1..]))
    else Prepend([s[0]], IdentBody(s[1..]))
  }

  /** A zero-length delimited identifier is an error. */
  function LexIdent(s: string): (r: Option<Scan>)
    requires s != "" && s[0] == '"'
    ensures r.Some? ==> |r.value.rest| < |s|
  {
    var r := IdentBody(s[1..]);
    if r.Some? && r.value.value == "" then None else r
  }

  // ----- Statements ------------------------------------------------------------------------------------------

  function WordLength(s: string): (n: nat)
    ensures n <= |s|
  {
    if s == "" || !IsWordChar(s[0]) then 0 else 1 + WordLength(s[1..])
  }

  function DigitLength(s: string): (n: nat)
    ensures n <= |s|
  {
    if s == "" || !IsDigit(s[0]) then 0 else 1 + DigitLength(s[1..])
  }

  function FractionLength(s: string): (n: nat)
    ensures n <= |s|
  {
    if s == "" || s[0] != '.' || Starts(s, "..") then 0 else 1 + DigitLength(s[1..])
  }

  /** An exponent with no digits is none. */
  function ExponentLength(s: string): (n: nat)
    ensures n <= |s|
  {
    if s == "" || (s[0] != 'e' && s[0] != 'E') then 0
    else
      var sign := if |s| > 1 && (s[1] == '+' || s[1] == '-') then 1 else 0;
      var digits := DigitLength(s[1 + sign..]);
      if digits == 0 then 0 else 1 + sign + digits
  }

  function NumberLength(s: string): (n: nat)
    ensures n <= |s|
    ensures s != "" && IsDigit(s[0]) ==> n > 0
  {
    var whole := DigitLength(s);
    var fraction := FractionLength(s[whole..]);
    whole + fraction + ExponentLength(s[whole + fraction..])
  }

  function OperatorLength(s: string): (n: nat)
    ensures n <= |s|
  {
    if s == "" || !IsOperator(s[0]) || Starts(s, "--") || Starts(s, "/*") then 0 else 1 + OperatorLength(s[1..])
  }

  function Cons(t: Token, ts: Option<seq<Token>>): Option<seq<Token>> {
    if ts.Some? then Some([t] + ts.value) else None
  }

  /** The tokens of a text; None where the server reports a lexical error. */
  function Lex(conforming: bool, s: string): Option<seq<Token>>
    decreases |s|
  {
    if s == "" then Some([])
    else if IsSpace(s[0]) then Lex(conforming, s[1..])
    else if Starts(s, "--") then Lex(conforming, AfterLine(s[2..]))
    else if Starts(s, "/*") then
      var t := AfterBlock(s[2..], 1);
      if t.Some? then Lex(conforming, t.value) else None
    else if IsString(s) then
      var r := LexString(conforming, s);
      if r.Some? then Cons(Str(r.value.value), Lex(conforming, r.value.rest)) else None
    else if s[0] == '"' then
      var r := LexIdent(s);
      if r.Some? then Cons(Ident(r.value.value), Lex(conforming, r.value.rest)) else None
    else if IsWordStart(s[0]) then
      var n := 1 + WordLength(s[1..]);
      Cons(Word(s[..n]), Lex(conforming, s[n..]))
    else if IsDigit(s[0]) then
      var n := NumberLength(s);
      if n < |s| && IsWordStart(s[n]) then None else Cons(Number(s[..n]), Lex(conforming, s[n..]))
    else if IsOperator(s[0]) then
      var n := 1 + OperatorLength(s[1..]);
      Cons(Symbol(s[..n]), Lex(conforming, s[n..]))
    else Cons(Symbol([s[0]]), Lex(conforming, s[1..]))
  }
}
