/**
The emitters of the TimescaleDB and pgvector helpers, proved to emit one fixed shape of tokens for
all names and values.
 */
module SqlEmitters {
  import opened Wrappers
  import opened SqlLexer
  import opened SqlQuoting
  import opened SqlStatements
  import opened DecimalText

  /** What the server reads, under either setting of standard_conforming_strings. */
  ghost predicate Reads(text: string, tokens: seq<Token>) {
    forall conforming :: Lex(conforming, text) == Some(tokens)
  }

  /** A text that stands for these tokens; looseStart and looseEnd say that it may abut any other text there. */
  ghost predicate Spells(text: string, tokens: seq<Token>, looseStart: bool, looseEnd: bool) {
    exists ps :: Good(ps) && text == Render(ps) && tokens == TokensOf(ps) && Edges(ps, looseStart, looseEnd)
  }

  predicate Edges(ps: seq<Piece>, looseStart: bool, looseEnd: bool) {
    |ps| > 0 && (looseStart ==> Loose(ps[0])) && (looseEnd ==> Loose(ps[|ps| - 1]))
  }

  lemma {:induction false} SpellsReads(text: string, tokens: seq<Token>, looseStart: bool, looseEnd: bool)
    requires Spells(text, tokens, looseStart, looseEnd)
    ensures Reads(text, tokens)
  {
    hide Render, Lex, Edges, TokensOf, Proper;
    var ps :| Good(ps) && text == Render(ps) && tokens == TokensOf(ps) && Edges(ps, looseStart, looseEnd);
    forall conforming
      ensures Lex(conforming, text) == Some(tokens)
    {
      RenderLexes(conforming, ps);
    }
  }

  lemma {:induction false} Then(t: string, x: seq<Token>, ts: bool, te: bool, u: string, y: seq<Token>, us: bool, ue: bool)
    requires Spells(t, x, ts, te) && Spells(u, y, us, ue) && (te || us)
    ensures Spells(t + u, x + y, ts, ue)
  {
    hide Render, TokensOf, Loose, Proper;
    var a :| Good(a) && t == Render(a) && x == TokensOf(a) && Edges(a, ts, te);
    var b :| Good(b) && u == Render(b) && y == TokensOf(b) && Edges(b, us, ue);
    Glue(a, b);
    assert Edges(a + b, ts, ue);
  }

  lemma {:induction false} One(p: Piece)
    requires Proper(p)
    ensures Spells(Text(p), TokenOf(p), Loose(p), Loose(p))
  {
    hide Proper, Text, TokenOf, Good;
    Single(p);
    assert Edges([p], Loose(p), Loose(p));
  }

  lemma {:induction false} Literal(v: string)
    requires NUL !in v
    ensures QuoteLiteral(v).Ok? && Spells(QuoteLiteral(v).value, [Str(v)], false, false)
  {
    hide QuoteLiteral, Spells;
    RefusedExactly(v, "");
    One(PLiteral(v));
  }

  lemma {:induction false} Quoted(name: string)
    requires name != "" && NUL !in name
    ensures QuoteIdent(name).Ok? && Spells(QuoteIdent(name).value, [Ident(name)], false, false)
  {
    hide QuoteIdent, Spells;
    RefusedExactly("", name);
    One(PIdent(name));
  }

  lemma {:induction false} Keyword(w: string)
    requires PlainWord(w)
    ensures Spells(w, [Word(w)], false, false)
    ensures Spells(w + " ", [Word(w)], false, true)
    ensures Spells(w + "(", [Word(w), Symbol("(")], false, true)
  {
    hide PlainWord, Spells;
    Marks();
    One(PWord(w));
    Then(w, [Word(w)], false, false, " ", [], true, true);
    Then(w, [Word(w)], false, false, "(", [Symbol("(")], true, true);
    assert [Word(w)] + [] == [Word(w)] && [Word(w)] + [Symbol("(")] == [Word(w), Symbol("(")];
  }

  lemma {:induction false} Marks()
    ensures Spells(" ", [], true, true)
    ensures Spells("(", [Symbol("(")], true, true)
    ensures Spells(")", [Symbol(")")], true, true)
    ensures Spells(";", [Symbol(";")], true, true)
    ensures Spells(",", [Symbol(",")], true, true)
    ensures Spells(", ", [Symbol(",")], true, true)
    ensures Spells(");", [Symbol(")"), Symbol(";")], true, true)
    ensures Spells("=> ", [Symbol("=>")], false, true)
    ensures Spells("= ", [Symbol("=")], false, true)
  {
    hide Spells;
    One(PSpace);
    One(PSym("("));
    One(PSym(")"));
    One(PSym(";"));
    One(PSym(","));
    One(PSym("=>"));
    One(PSym("="));
    Then(",", [Symbol(",")], true, true, " ", [], true, true);
    Then(")", [Symbol(")")], true, true, ";", [Symbol(";")], true, true);
    Then("=>", [Symbol("=>")], false, false, " ", [], true, true);
    Then("=", [Symbol("=")], false, false, " ", [], true, true);
    assert "," + " " == ", " && ")" + ";" == ");" && "=>" + " " == "=> " && "=" + " " == "= ";
    assert [Symbol(")")] + [Symbol(";")] == [Symbol(")"), Symbol(";")];
    assert [Symbol(",")] + [] == [Symbol(",")] && [Symbol("=>")] + [] == [Symbol("=>")] && [Symbol("=")] + [] == [Symbol("=")];
  }

  // ----- Function calls with a list of arguments ---------------------------------------------------------------

  /** texts[k] stands for tokens[k]. */
  ghost predicate SpellsEach(texts: seq<string>, tokens: seq<seq<Token>>) {
    |texts| == |tokens| && forall k :: 0 <= k < |texts| ==> Spells(texts[k], tokens[k], false, false)
  }

  function JoinTokens(parts: seq<seq<Token>>, separator: seq<Token>): seq<Token> {
    if |parts| == 0 then []
    else if |parts| == 1 then parts[0]
    else JoinTokens(parts[..|parts| - 1], separator) + separator + parts[|parts| - 1]
  }

  lemma {:induction false} JoinSpells(texts: seq<string>, tokens: seq<seq<Token>>, separator: string, y: seq<Token>)
    requires SpellsEach(texts, tokens) && |texts| > 0 && Spells(separator, y, true, true)
    ensures Spells(Join(texts, separator), JoinTokens(tokens, y), false, false)
  {
    hide Spells;
    if |texts| > 1 {
      var n := |texts| - 1;
      JoinSpells(texts[..n], tokens[..n], separator, y);
      var t, x := Join(texts[..n], separator), JoinTokens(tokens[..n], y);
      Then(t, x, false, false, separator, y, true, true);
      Then(t + separator, x + y, false, true, texts[n], tokens[n], false, false);
    }
  }

  /** SELECT f(…); */
  lemma {:induction false} CallSpells(f: string, args: string, x: seq<Token>)
    requires PlainWord(f) && Spells(args, x, false, false)
    ensures Reads("SELECT " + f + "(" + args + ");", [Word("SELECT"), Word(f), Symbol("(")] + x + [Symbol(")"), Symbol(";")])
  {
    hide Spells, Reads, PlainWord;
    Keywords();
    Marks();
    Keyword("SELECT");
    Keyword(f);
    assert "SELECT" + " " == "SELECT ";
    Then("SELECT ", [Word("SELECT")], false, true, f + "(", [Word(f), Symbol("(")], false, true);
    var t1, x1 := "SELECT " + (f + "("), [Word("SELECT")] + [Word(f), Symbol("(")];
    Then(t1, x1, false, true, args, x, false, false);
    Then(t1 + args, x1 + x, false, false, ");", [Symbol(")"), Symbol(";")], true, true);
    SpellsReads(t1 + args + ");", x1 + x + [Symbol(")"), Symbol(";")], false, true);
    assert x1 == [Word("SELECT"), Word(f), Symbol("(")];
    assert "SELECT " + (f + "(") == "SELECT " + f + "(";
  }

  lemma {:induction false} Keywords()
    ensures PlainWord("SELECT") && PlainWord("INTERVAL") && PlainWord("drop_chunks") && PlainWord("create_hypertable")
    ensures PlainWord("by_range") && PlainWord("migrate_data") && PlainWord("if_not_exists") && PlainWord("TRUE")
  {
  }

  lemma {:induction false} Interval(v: string)
    requires NUL !in v
    ensures QuoteLiteral(v).Ok?
    ensures Spells("INTERVAL " + QuoteLiteral(v).value, [Word("INTERVAL"), Str(v)], false, false)
  {
    hide QuoteLiteral, Spells, PlainWord;
    Keywords();
    Keyword("INTERVAL");
    Literal(v);
    assert "INTERVAL" + " " == "INTERVAL ";
    Then("INTERVAL ", [Word("INTERVAL")], false, true, QuoteLiteral(v).value, [Str(v)], false, false);
    assert [Word("INTERVAL")] + [Str(v)] == [Word("INTERVAL"), Str(v)];
  }

  // ----- drop_chunks ------------------------------------------------------------------------------------------

  function DropChunks(table: string, olderThan: string): Result<string, QuoteError> {
    var t :- QuoteLiteral(table);
    var o :- QuoteLiteral(olderThan);
    Ok("SELECT drop_chunks(" + t + ", INTERVAL " + o + ");")
  }

  function DropChunksTokens(table: string, olderThan: string): seq<Token> {
    [Word("SELECT"), Word("drop_chunks"), Symbol("("), Str(table), Symbol(","), Word("INTERVAL"), Str(olderThan),
     Symbol(")"), Symbol(";")]
  }

  lemma {:induction false} TwoArguments(table: string, v: string)
    requires NUL !in table && NUL !in v
    ensures QuoteLiteral(table).Ok? && QuoteLiteral(v).Ok?
    ensures Spells(QuoteLiteral(table).value + ", INTERVAL " + QuoteLiteral(v).value,
                   [Str(table), Symbol(","), Word("INTERVAL"), Str(v)], false, false)
  {
    hide QuoteLiteral, Spells, PlainWord;
    Marks();
    Literal(table);
    Interval(v);
    var t, o := QuoteLiteral(table).value, "INTERVAL " + QuoteLiteral(v).value;
    Then(t, [Str(table)], false, false, ", ", [Symbol(",")], true, true);
    Then(t + ", ", [Str(table)] + [Symbol(",")], false, true, o, [Word("INTERVAL"), Str(v)], false, false);
    assert [Str(table)] + [Symbol(",")] + [Word("INTERVAL"), Str(v)] == [Str(table), Symbol(","), Word("INTERVAL"), Str(v)];
    assert t + ", " + o == t + ", INTERVAL " + QuoteLiteral(v).value by {
      assert ", " + "INTERVAL " == ", INTERVAL ";
    }
  }

  /** One shape for all tables and intervals; only a NUL is refused. */
  lemma {:induction false} DropChunksShape(table: string, olderThan: string)
    ensures DropChunks(table, olderThan).Err? <==> NUL in table || NUL in olderThan
    ensures DropChunks(table, olderThan).Ok? ==> Reads(DropChunks(table, olderThan).value, DropChunksTokens(table, olderThan))
  {
    hide QuoteLiteral, Spells, Reads, PlainWord;
    RefusedExactly(table, "");
    RefusedExactly(olderThan, "");
    if NUL !in table && NUL !in olderThan {
      var x := [Str(table), Symbol(","), Word("INTERVAL"), Str(olderThan)];
      Keywords();
      TwoArguments(table, olderThan);
      CallSpells("drop_chunks", QuoteLiteral(table).value + ", INTERVAL " + QuoteLiteral(olderThan).value, x);
      assert [Word("SELECT"), Word("drop_chunks"), Symbol("(")] + x + [Symbol(")"), Symbol(";")]
          == DropChunksTokens(table, olderThan);
      CallText("drop_chunks", "SELECT drop_chunks(", QuoteLiteral(table).value + ", INTERVAL " + QuoteLiteral(olderThan).value);
      Regroup("SELECT drop_chunks(", QuoteLiteral(table).value, ", INTERVAL ", QuoteLiteral(olderThan).value, ");");
    }
  }

  lemma {:induction false} CallText(f: string, opening: string, args: string)
    requires "SELECT " + f + "(" == opening
    ensures "SELECT " + f + "(" + args + ");" == opening + args + ");"
  {
  }

  lemma {:induction false} Regroup(a: string, b: string, c: string, d: string, e: string)
    ensures a + (b + c + d) + e == a + b + c + d + e
  {
  }

  // ----- create_hypertable --------------------------------------------------------------------------------------

  function DimensionTokens(column: string, interval: string): seq<Token> {
    [Word("by_range"), Symbol("("), Str(column)]
    + (if interval == "" then [] else [Symbol(","), Word("INTERVAL"), Str(interval)])
    + [Symbol(")")]
  }

  function FlagTokens(flag: string): seq<Token> { [Word(flag), Symbol("=>"), Word("TRUE")] }

  function ArgumentTokens(table: string, column: string, interval: string, migrateData: bool, ifNotExists: bool): seq<seq<Token>> {
    [[Str(table)], DimensionTokens(column, interval)]
    + (if migrateData then [FlagTokens("migrate_data")] else [])
    + (if ifNotExists then [FlagTokens("if_not_exists")] else [])
  }

  method Dimension(column: string, interval: string) returns (r: Result<string, QuoteError>)
    ensures r.Err? <==> NUL in column || NUL in interval
    ensures r.Ok? ==> Spells(r.value, DimensionTokens(column, interval), false, false)
  {
    hide QuoteLiteral, Spells, PlainWord;
    RefusedExactly(column, "");
    RefusedExactly(interval, "");
    var b :- QuoteLiteral(column);
    Keywords();
    Marks();
    Keyword("by_range");
    Literal(column);
    Then("by_range" + "(", [Word("by_range"), Symbol("(")], false, true, b, [Str(column)], false, false);
    ghost var t, x := "by_range" + "(" + b, [Word("by_range"), Symbol("(")] + [Str(column)];
    if interval != "" {
      var i :- QuoteLiteral(interval);
      Interval(interval);
      r := Ok("by_range(" + b + ", INTERVAL " + i + ")");
      Then(t, x, false, false, ", ", [Symbol(",")], true, true);
      Then(t + ", ", x + [Symbol(",")], false, true, "INTERVAL " + i, [Word("INTERVAL"), Str(interval)], false, false);
      Close(t + ", " + ("INTERVAL " + i), x + [Symbol(",")] + [Word("INTERVAL"), Str(interval)]);
      assert r.value == t + ", " + ("INTERVAL " + i) + ")" by {
        assert "by_range" + "(" == "by_range(" && ", " + "INTERVAL " == ", INTERVAL ";
      }
      assert x + [Symbol(",")] + [Word("INTERVAL"), Str(interval)] + [Symbol(")")] == DimensionTokens(column, interval);
    } else {
      r := Ok("by_range(" + b + ")");
      Close(t, x);
      assert r.value == t + ")" by { assert "by_range" + "(" == "by_range("; }
      assert x + [Symbol(")")] == DimensionTokens(column, interval);
    }
  }

  lemma {:induction false} Close(t: string, x: seq<Token>)
    requires Spells(t, x, false, false)
    ensures Spells(t + ")", x + [Symbol(")")], false, false)
  {
    hide Spells;
    Marks();
    Then(t, x, false, false, ")", [Symbol(")")], true, true);
    Weaken(t + ")", x + [Symbol(")")], false, true);
  }

  lemma {:induction false} Weaken(t: string, x: seq<Token>, looseStart: bool, looseEnd: bool)
    requires Spells(t, x, looseStart, looseEnd)
    ensures Spells(t, x, false, false)
  {
    hide Render, TokensOf, Loose, Proper;
    var a :| Good(a) && t == Render(a) && x == TokensOf(a) && Edges(a, looseStart, looseEnd);
    assert Edges(a, false, false);
  }

  lemma {:induction false} Flag(w: string)
    requires PlainWord(w)
    ensures Spells(w + " => TRUE", FlagTokens(w), false, false)
  {
    hide Spells, PlainWord;
    Keywords();
    Marks();
    Keyword(w);
    Keyword("TRUE");
    Then(w + " ", [Word(w)], false, true, "=> ", [Symbol("=>")], false, true);
    Then(w + " " + "=> ", [Word(w)] + [Symbol("=>")], false, true, "TRUE", [Word("TRUE")], false, false);
    assert w + " " + "=> " + "TRUE" == w + " => TRUE";
    assert [Word(w)] + [Symbol("=>")] + [Word("TRUE")] == FlagTokens(w);
  }

  method Arguments(table: string, dimension: string, ghost column: string, ghost interval: string, ifNotExists: bool, migrateData: bool)
    returns (r: Result<seq<string>, QuoteError>)
    requires Spells(dimension, DimensionTokens(column, interval), false, false)
    ensures r.Err? <==> NUL in table
    ensures r.Ok? ==> SpellsEach(r.value, ArgumentTokens(table, column, interval, migrateData, ifNotExists)) && |r.value| > 0
  {
    hide QuoteLiteral, Spells, PlainWord, DimensionTokens, FlagTokens;
    RefusedExactly(table, "");
    var name :- QuoteLiteral(table);
    var args := [name, dimension];
    Keywords();
    Literal(table);
    if migrateData {
      Flag("migrate_data");
      assert "migrate_data" + " => TRUE" == "migrate_data => TRUE";
      args := args + ["migrate_data => TRUE"];
    }
    if ifNotExists {
      Flag("if_not_exists");
      assert "if_not_exists" + " => TRUE" == "if_not_exists => TRUE";
      args := args + ["if_not_exists => TRUE"];
    }
    r := Ok(args);
  }

  function HypertableTokens(table: string, column: string, interval: string, ifNotExists: bool, migrateData: bool): seq<Token> {
    [Word("SELECT"), Word("create_hypertable"), Symbol("(")]
    + JoinTokens(ArgumentTokens(table, column, interval, migrateData, ifNotExists), [Symbol(",")])
    + [Symbol(")"), Symbol(";")]
  }

  /** One shape for all tables, columns and intervals; only a NUL is refused. */
  method Hypertable(table: string, column: string, interval: string, ifNotExists: bool, migrateData: bool)
    returns (r: Result<string, QuoteError>)
    ensures r.Err? <==> NUL in table || NUL in column || NUL in interval
    ensures r.Ok? ==> Reads(r.value, HypertableTokens(table, column, interval, ifNotExists, migrateData))
  {
    hide QuoteLiteral, Spells, SpellsEach, PlainWord, Reads, ArgumentTokens, JoinTokens, Join, DimensionTokens;
    var dimension :- Dimension(column, interval);
    var args :- Arguments(table, dimension, column, interval, ifNotExists, migrateData);
    var text := JoinAll(args, ", ");
    ghost var tokens := ArgumentTokens(table, column, interval, migrateData, ifNotExists);
    Keywords();
    Marks();
    JoinSpells(args, tokens, ", ", [Symbol(",")]);
    CallSpells("create_hypertable", text, JoinTokens(tokens, [Symbol(",")]));
    assert "SELECT " + "create_hypertable" + "(" == "SELECT create_hypertable(";
    r := Ok("SELECT create_hypertable(" + text + ");");
  }

  method JoinAll(parts: seq<string>, separator: string) returns (text: string)
    ensures text == Join(parts, separator)
  {
    text := "";
    for k := 0 to |parts|
      invariant text == Join(parts[..k], separator)
    {
      assert parts[..k + 1][..k] == parts[..k];
      text := if k == 0 then parts[k] else text + separator + parts[k];
    }
    assert parts[..|parts|] == parts;
  }

  // ----- Vector indexes -----------------------------------------------------------------------------------------

  predicate BadIdent(name: string) { name == "" || NUL in name }

  function PrefixTokens(name: string, concurrently: bool, ifNotExists: bool): seq<seq<Token>> {
    [[Word("CREATE"), Word("INDEX")]]
    + (if concurrently then [[Word("CONCURRENTLY")]] else [])
    + (if ifNotExists then [[Word("IF"), Word("NOT"), Word("EXISTS")]] else [])
    + [[Ident(name)]]
  }

  lemma {:induction false} IndexKeywords()
    ensures Spells("CREATE INDEX", [Word("CREATE"), Word("INDEX")], false, false)
    ensures Spells("CONCURRENTLY", [Word("CONCURRENTLY")], false, false)
    ensures Spells("IF NOT EXISTS", [Word("IF"), Word("NOT"), Word("EXISTS")], false, false)
  {
    hide Spells;
    Keyword("CREATE");
    Keyword("INDEX");
    Keyword("CONCURRENTLY");
    Keyword("IF");
    Keyword("NOT");
    Keyword("EXISTS");
    Then("CREATE" + " ", [Word("CREATE")], false, true, "INDEX", [Word("INDEX")], false, false);
    Then("IF" + " ", [Word("IF")], false, true, "NOT" + " ", [Word("NOT")], false, true);
    Then("IF" + " " + ("NOT" + " "), [Word("IF")] + [Word("NOT")], false, true, "EXISTS", [Word("EXISTS")], false, false);
    assert "CREATE" + " " + "INDEX" == "CREATE INDEX" && "IF" + " " + ("NOT" + " ") + "EXISTS" == "IF NOT EXISTS";
    assert [Word("CREATE")] + [Word("INDEX")] == [Word("CREATE"), Word("INDEX")];
    assert [Word("IF")] + [Word("NOT")] + [Word("EXISTS")] == [Word("IF"), Word("NOT"), Word("EXISTS")];
  }

  method CreateIndexPrefix(name: string, concurrently: bool, ifNotExists: bool) returns (r: Result<string, QuoteError>)
    ensures r.Err? <==> BadIdent(name)
    ensures r.Ok? ==> Spells(r.value, JoinTokens(PrefixTokens(name, concurrently, ifNotExists), []), false, false)
  {
    hide QuoteIdent, Spells, Join, JoinTokens;
    RefusedExactly("", name);
    IndexKeywords();
    var parts := ["CREATE INDEX"];
    if concurrently {
      parts := parts + ["CONCURRENTLY"];
    }
    if ifNotExists {
      parts := parts + ["IF NOT EXISTS"];
    }
    var quoted :- QuoteIdent(name);
    Quoted(name);
    parts := parts + [quoted];
    assert SpellsEach(parts, PrefixTokens(name, concurrently, ifNotExists));
    var text := JoinAll(parts, " ");
    Marks();
    JoinSpells(parts, PrefixTokens(name, concurrently, ifNotExists), " ", []);
    r := Ok(text);
  }

  type Digits = s: string | forall k :: 0 <= k < |s| ==> IsDigit(s[k])

  /**
  A JavaScript number as a template prints it: digits, perhaps a fraction, perhaps a power of ten with
  its sign. Which digits a double gets is not part of this model; the forms are.
   */
  datatype Numeral =
    | NaN
    | Infinity(negative: bool)
    | Finite(negative: bool, whole: nat, fraction: Digits, exponent: Option<int>)

  function Sign(negative: bool): string { if negative then "-" else "" }

  function Magnitude(whole: nat, fraction: Digits, exponent: Option<int>): string {
    Decimal(whole)
    + (if fraction == "" then "" else "." + fraction)
    + (match exponent
       case None => ""
       case Some(e) => if e < 0 then "e-" + Decimal(-e) else "e+" + Decimal(e))
  }

  function Printed(n: Numeral): string {
    match n
    case NaN => "NaN"
    case Infinity(negative) => Sign(negative) + "Infinity"
    case Finite(negative, whole, fraction, exponent) => Sign(negative) + Magnitude(whole, fraction, exponent)
  }

  function Signed(negative: bool, t: Token): seq<Token> { if negative then [Symbol("-"), t] else [t] }

  function NumeralTokens(n: Numeral): seq<Token> {
    match n
    case NaN => [Word("NaN")]
    case Infinity(negative) => Signed(negative, Word("Infinity"))
    case Finite(negative, whole, fraction, exponent) => Signed(negative, Number(Magnitude(whole, fraction, exponent)))
  }

  lemma {:induction false} DigitsOnly(w: string)
    requires forall k :: 0 <= k < |w| ==> IsDigit(w[k])
    ensures DigitLength(w) == |w|
  {
    if w != "" { DigitsOnly(w[1..]); }
  }

  lemma {:induction false} ExponentText(sign: char, digits: string)
    requires (sign == '+' || sign == '-') && digits != "" && forall k :: 0 <= k < |digits| ==> IsDigit(digits[k])
    ensures ExponentLength(['e', sign] + digits) == 2 + |digits|
  {
    hide DigitLength;
    DigitsOnly(digits);
    assert (['e', sign] + digits)[2..] == digits;
  }

  lemma {:induction false} FractionText(digits: string, rest: string)
    requires digits != "" && (forall k :: 0 <= k < |digits| ==> IsDigit(digits[k])) && NotDigit(rest)
    ensures FractionLength("." + digits + rest) == 1 + |digits|
  {
    hide DigitLength;
    var s := "." + digits + rest;
    assert s[0] == '.' && s[1] == digits[0] && s[1..] == digits + rest;
    StartsPair(s, "..");
    DigitsThen(digits, rest);
    DigitsOnly(digits);
  }

  lemma {:induction false} NumberParts(whole: string, fraction: string, exponent: string)
    requires NotDigit(fraction + exponent) && DigitLength(whole) == |whole|
    requires FractionLength(fraction + exponent) == |fraction| && ExponentLength(exponent) == |exponent|
    ensures NumberLength(whole + fraction + exponent) == |whole + fraction + exponent|
  {
    hide DigitLength, FractionLength, ExponentLength;
    var s := whole + fraction + exponent;
    assert s == whole + (fraction + exponent);
    DigitsThen(whole, fraction + exponent);
    assert s[|whole|..] == fraction + exponent;
    assert s[|whole| + |fraction|..] == exponent;
  }

  lemma {:induction false} MagnitudeIsNumber(whole: nat, fraction: Digits, exponent: Option<int>)
    ensures PlainNumber(Magnitude(whole, fraction, exponent))
  {
    hide Decimal, DigitLength, FractionLength, ExponentLength, NumberLength;
    var w := Decimal(whole);
    var f := if fraction == "" then "" else "." + fraction;
    var e := match exponent
             case None => ""
             case Some(e) => if e < 0 then "e-" + Decimal(-e) else "e+" + Decimal(e);
    DecimalDigits(whole);
    DigitsOnly(w);
    if exponent.Some? {
      var x := exponent.value;
      DecimalDigits(if x < 0 then -x else x);
      ExponentText(if x < 0 then '-' else '+', Decimal(if x < 0 then -x else x));
      assert e == ['e', if x < 0 then '-' else '+'] + Decimal(if x < 0 then -x else x);
    } else {
      NoFraction("");
    }
    if fraction == "" {
      assert f + e == e;
      NoFraction(e);
    } else {
      FractionText(fraction, e);
    }
    NumberParts(w, f, e);
    assert Magnitude(whole, fraction, exponent)[0] == w[0];
  }

  lemma {:induction false} NoFraction(e: string)
    ensures e == "" || e[0] != '.' ==> FractionLength(e) == 0
    ensures ExponentLength("") == 0
  {
  }

  lemma {:induction false} SignedSpells(negative: bool, t: Token)
    requires Proper(PMinus(t))
    ensures Spells(Sign(negative) + t.text, Signed(negative, t), false, false)
  {
    hide Spells, PlainNumber, PlainWord;
    if negative {
      One(PMinus(t));
    } else {
      assert "" + t.text == t.text;
      if t.Number? { One(PNumber(t.text)); } else { One(PWord(t.text)); }
    }
  }

  lemma {:induction false} NumeralSpells(n: Numeral)
    ensures Spells(Printed(n), NumeralTokens(n), false, false)
  {
    hide Spells, Magnitude, PlainNumber, PlainWord;
    NumeralWords();
    match n
    case NaN => Keyword("NaN");
    case Infinity(negative) => SignedSpells(negative, Word("Infinity"));
    case Finite(negative, whole, fraction, exponent) =>
      MagnitudeIsNumber(whole, fraction, exponent);
      SignedSpells(negative, Number(Magnitude(whole, fraction, exponent)));
  }

  lemma {:induction false} NumeralWords()
    ensures PlainWord("NaN") && PlainWord("Infinity")
  {
  }

  datatype Param = Param(key: string, value: Option<Numeral>)

  function Settings(params: seq<Param>): seq<seq<Token>> {
    if |params| == 0 then []
    else
      var p := params[|params| - 1];
      Settings(params[..|params| - 1])
      + if p.value.Some? then [[Word(p.key), Symbol("=")] + NumeralTokens(p.value.value)] else []
  }

  function WithTokens(params: seq<Param>): seq<Token> {
    if Settings(params) == [] then []
    else [Word("WITH"), Symbol("(")] + JoinTokens(Settings(params), [Symbol(",")]) + [Symbol(")")]
  }

  lemma {:induction false} Setting(key: string, value: Numeral)
    requires PlainWord(key)
    ensures Spells(key + " = " + Printed(value), [Word(key), Symbol("=")] + NumeralTokens(value), false, false)
  {
    hide Spells, PlainWord, Printed, NumeralTokens;
    Keyword(key);
    Marks();
    NumeralSpells(value);
    Then(key + " ", [Word(key)], false, true, "= ", [Symbol("=")], false, true);
    Then(key + " " + "= ", [Word(key)] + [Symbol("=")], false, true, Printed(value), NumeralTokens(value), false, false);
    assert key + " " + "= " == key + " = ";
    assert [Word(key)] + [Symbol("=")] == [Word(key), Symbol("=")];
  }

  predicate PlainKeys(params: seq<Param>) { forall k :: 0 <= k < |params| ==> PlainWord(params[k].key) }

  /** The parameters that are set, or nothing at all. */
  method WithClause(params: seq<Param>) returns (text: string)
    requires PlainKeys(params)
    ensures if Settings(params) == [] then text == "" else Spells(text, WithTokens(params), true, true)
  {
    hide Spells, PlainWord, Printed, NumeralTokens, Join, JoinTokens;
    var settings: seq<string> := [];
    for k := 0 to |params|
      invariant SpellsEach(settings, Settings(params[..k]))
    {
      assert params[..k + 1][..k] == params[..k];
      var p := params[k];
      if p.value.Some? {
        Setting(p.key, p.value.value);
        settings := settings + [p.key + " = " + Printed(p.value.value)];
      }
    }
    assert params[..|params|] == params;
    if |settings| == 0 {
      return "";
    }
    var joined := JoinAll(settings, ", ");
    Marks();
    JoinSpells(settings, Settings(params), ", ", [Symbol(",")]);
    text := " WITH (" + joined + ")";
    Wrapped(joined, JoinTokens(Settings(params), [Symbol(",")]));
  }

  lemma {:induction false} Wrapped(joined: string, x: seq<Token>)
    requires Spells(joined, x, false, false)
    ensures Spells(" WITH (" + joined + ")", [Word("WITH"), Symbol("(")] + x + [Symbol(")")], true, true)
  {
    hide Spells;
    Marks();
    Keyword("WITH");
    Then(" ", [], true, true, "WITH" + " ", [Word("WITH")], false, true);
    Then(" " + ("WITH" + " "), [] + [Word("WITH")], true, true, "(", [Symbol("(")], true, true);
    var t, y := " " + ("WITH" + " ") + "(", [] + [Word("WITH")] + [Symbol("(")];
    Then(t, y, true, true, joined, x, false, false);
    Then(t + joined, y + x, true, false, ")", [Symbol(")")], true, true);
    assert t == " WITH (" && y == [Word("WITH"), Symbol("(")];
  }

  /** The tokens of one CREATE INDEX over one column. */
  function IndexTokens(
    name: string, table: string, column: string, access: string, ops: string, concurrently: bool, ifNotExists: bool,
    params: seq<Param>): seq<Token>
  {
    JoinTokens(PrefixTokens(name, concurrently, ifNotExists), [])
    + [Word("ON"), Ident(table), Word("USING"), Word(access), Symbol("("), Ident(column), Word(ops), Symbol(")")]
    + WithTokens(params) + [Symbol(";")]
  }

  function Target(table: string, access: string, column: string, ops: string): string {
    " ON " + table + (" USING " + access + " (") + column + (" " + ops + ")")
  }

  lemma {:induction false} TargetSpells(table: string, column: string, access: string, ops: string)
    requires !BadIdent(table) && !BadIdent(column) && PlainWord(access) && PlainWord(ops)
    ensures QuoteIdent(table).Ok? && QuoteIdent(column).Ok?
    ensures Spells(Target(QuoteIdent(table).value, access, QuoteIdent(column).value, ops),
                   [Word("ON"), Ident(table), Word("USING"), Word(access), Symbol("("), Ident(column), Word(ops), Symbol(")")],
                   true, true)
  {
    hide Spells, QuoteIdent, PlainWord;
    Quoted(table);
    Quoted(column);
    var t, c := QuoteIdent(table).value, QuoteIdent(column).value;
    OnText();
    UsingText(access);
    OpsText(ops);
    Then(" ON ", [Word("ON")], true, true, t, [Ident(table)], false, false);
    var x1 := [Word("ON")] + [Ident(table)];
    Then(" ON " + t, x1, true, false, " USING " + access + " (", [Word("USING"), Word(access), Symbol("(")], true, true);
    var x2 := x1 + [Word("USING"), Word(access), Symbol("(")];
    Then(" ON " + t + (" USING " + access + " ("), x2, true, true, c, [Ident(column)], false, false);
    var x3 := x2 + [Ident(column)];
    Then(" ON " + t + (" USING " + access + " (") + c, x3, true, false, " " + ops + ")", [Word(ops), Symbol(")")], true, true);
    assert x3 + [Word(ops), Symbol(")")]
        == [Word("ON"), Ident(table), Word("USING"), Word(access), Symbol("("), Ident(column), Word(ops), Symbol(")")];
  }

  lemma {:induction false} OnText()
    ensures Spells(" ON ", [Word("ON")], true, true)
  {
    hide Spells;
    Marks();
    Keyword("ON");
    Then(" ", [], true, true, "ON" + " ", [Word("ON")], false, true);
    assert " " + ("ON" + " ") == " ON ";
    assert [] + [Word("ON")] == [Word("ON")];
  }

  lemma {:induction false} UsingText(access: string)
    requires PlainWord(access)
    ensures Spells(" USING " + access + " (", [Word("USING"), Word(access), Symbol("(")], true, true)
  {
    hide Spells, PlainWord;
    Marks();
    assert PlainWord("USING") by { UsingPlain(); }
    Keyword("USING");
    Keyword(access);
    Then(" ", [], true, true, "USING" + " ", [Word("USING")], false, true);
    assert " " + ("USING" + " ") == " USING ";
    Then(" USING ", [] + [Word("USING")], true, true, access + " ", [Word(access)], false, true);
    Then(" USING " + (access + " "), [] + [Word("USING")] + [Word(access)], true, true, "(", [Symbol("(")], true, true);
    assert " USING " + (access + " ") + "(" == " USING " + access + " (";
    assert [] + [Word("USING")] + [Word(access)] + [Symbol("(")] == [Word("USING"), Word(access), Symbol("(")];
  }

  lemma {:induction false} UsingPlain()
    ensures PlainWord("USING")
  {
  }

  lemma {:induction false} OpsText(ops: string)
    requires PlainWord(ops)
    ensures Spells(" " + ops + ")", [Word(ops), Symbol(")")], true, true)
  {
    hide Spells, PlainWord;
    Marks();
    Keyword(ops);
    Then(" ", [], true, true, ops, [Word(ops)], false, false);
    Then(" " + ops, [] + [Word(ops)], true, false, ")", [Symbol(")")], true, true);
    assert [] + [Word(ops)] + [Symbol(")")] == [Word(ops), Symbol(")")];
  }

  lemma {:induction false} ReadsPlain(text: string, tokens: seq<Token>, w: string)
    requires Reads(text, tokens) && Word(w) in tokens
    ensures PlainWord(w)
  {
    hide PlainWord, Lex;
    assert Lex(true, text) == Some(tokens);
    LexedWords(true, text);
  }

  lemma {:induction false} OpsToken(
    name: string, table: string, column: string, access: string, ops: string, concurrently: bool, ifNotExists: bool,
    params: seq<Param>)
    ensures Word(ops) in IndexTokens(name, table, column, access, ops, concurrently, ifNotExists, params)
  {
    hide JoinTokens, PrefixTokens, WithTokens;
    var y := [Word("ON"), Ident(table), Word("USING"), Word(access), Symbol("("), Ident(column), Word(ops), Symbol(")")];
    assert Word(ops) == y[6];
  }

  /**
  One shape for all names and parameters; only an empty name or a NUL is refused. ops is put in as it is,
  so the shape is kept exactly when it is a plain word.
   */
  method CreateIndex(
    name: string, table: string, column: string, access: string, ops: string, concurrently: bool, ifNotExists: bool,
    params: seq<Param>) returns (r: Result<string, QuoteError>)
    requires PlainWord(access) && PlainKeys(params)
    ensures r.Err? <==> BadIdent(name) || BadIdent(table) || BadIdent(column)
    ensures r.Ok? ==>
              (Reads(r.value, IndexTokens(name, table, column, access, ops, concurrently, ifNotExists, params)) <==> PlainWord(ops))
  {
    hide Spells, QuoteIdent, PlainWord, Reads, JoinTokens, PrefixTokens, IndexTokens;
    var prefix :- CreateIndexPrefix(name, concurrently, ifNotExists);
    var withSql := WithClause(params);
    RefusedExactly("", table);
    RefusedExactly("", column);
    var t :- QuoteIdent(table);
    var c :- QuoteIdent(column);
    r := Ok(prefix + Target(t, access, c, ops) + withSql + ";");
    if PlainWord(ops) {
      IndexSpells(prefix, withSql, name, table, column, access, ops, concurrently, ifNotExists, params);
    } else {
      OpsToken(name, table, column, access, ops, concurrently, ifNotExists, params);
      if Reads(r.value, IndexTokens(name, table, column, access, ops, concurrently, ifNotExists, params)) {
        ReadsPlain(r.value, IndexTokens(name, table, column, access, ops, concurrently, ifNotExists, params), ops);
      }
    }
  }

  lemma {:induction false} IndexSpells(
    prefix: string, withSql: string, name: string, table: string, column: string, access: string, ops: string,
    concurrently: bool, ifNotExists: bool, params: seq<Param>)
    requires PlainWord(access) && PlainWord(ops) && !BadIdent(table) && !BadIdent(column)
    requires Spells(prefix, JoinTokens(PrefixTokens(name, concurrently, ifNotExists), []), false, false)
    requires if Settings(params) == [] then withSql == "" else Spells(withSql, WithTokens(params), true, true)
    ensures QuoteIdent(table).Ok? && QuoteIdent(column).Ok?
    ensures Reads(prefix + Target(QuoteIdent(table).value, access, QuoteIdent(column).value, ops) + withSql + ";",
                  IndexTokens(name, table, column, access, ops, concurrently, ifNotExists, params))
  {
    hide Spells, QuoteIdent, PlainWord, Reads, JoinTokens, PrefixTokens, Settings, Target;
    TargetSpells(table, column, access, ops);
    var target := Target(QuoteIdent(table).value, access, QuoteIdent(column).value, ops);
    var x := JoinTokens(PrefixTokens(name, concurrently, ifNotExists), []);
    var y := [Word("ON"), Ident(table), Word("USING"), Word(access), Symbol("("), Ident(column), Word(ops), Symbol(")")];
    Marks();
    Then(prefix, x, false, false, target, y, true, true);
    var text := prefix + target;
    if Settings(params) == [] {
      assert text + withSql == text;
      assert x + y + WithTokens(params) == x + y;
    } else {
      Then(text, x + y, false, true, withSql, WithTokens(params), true, true);
    }
    Then(text + withSql, x + y + WithTokens(params), false, true, ";", [Symbol(";")], true, true);
    SpellsReads(text + withSql + ";", x + y + WithTokens(params) + [Symbol(";")], false, true);
  }

  method Hnsw(name: string, table: string, column: string, ops: string, m: Option<Numeral>, efConstruction: Option<Numeral>,
              ifNotExists: bool, concurrently: bool) returns (r: Result<string, QuoteError>)
    ensures r.Err? <==> BadIdent(name) || BadIdent(table) || BadIdent(column)
    ensures r.Ok? ==>
              (Reads(r.value, IndexTokens(name, table, column, "hnsw", ops, concurrently, ifNotExists,
                                          [Param("m", m), Param("ef_construction", efConstruction)]))
               <==> PlainWord(ops))
  {
    hide Reads, IndexTokens;
    r := CreateIndex(name, table, column, "hnsw", ops, concurrently, ifNotExists,
                     [Param("m", m), Param("ef_construction", efConstruction)]);
  }

  method Ivfflat(name: string, table: string, column: string, ops: string, lists: Option<Numeral>,
                 ifNotExists: bool, concurrently: bool) returns (r: Result<string, QuoteError>)
    ensures r.Err? <==> BadIdent(name) || BadIdent(table) || BadIdent(column)
    ensures r.Ok? ==>
              (Reads(r.value, IndexTokens(name, table, column, "ivfflat", ops, concurrently, ifNotExists, [Param("lists", lists)]))
               <==> PlainWord(ops))
  {
    hide Reads, IndexTokens;
    r := CreateIndex(name, table, column, "ivfflat", ops, concurrently, ifNotExists, [Param("lists", lists)]);
  }
}
