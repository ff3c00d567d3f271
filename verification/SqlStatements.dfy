/**
The statements the extension helpers emit. Whatever names and values they are given, the server's
lexer reads one fixed shape of tokens, with the names and values as single tokens in it.
 */
module SqlStatements {
  import opened DecimalText
  import opened Wrappers
  import opened SqlLexer
  import opened SqlQuoting

  // ----- Texts as pieces -------------------------------------------------------------------------------

  datatype Piece =
    | PWord(text: string) | PNumber(text: string) | PMinus(after: Token) | PSpace | PSym(sym: string)
    | PLiteral(value: string) | PIdent(name: string)

  const PUNCTUATION := {"(", ")", ",", ";"}

  predicate AllWord(s: string) { forall k :: 0 <= k < |s| ==> IsWordChar(s[k]) }

  predicate PlainWord(s: string) { s != "" && IsWordStart(s[0]) && AllWord(s) }

  predicate PlainNumber(s: string) { s != "" && IsDigit(s[0]) && NumberLength(s) == |s| }

  predicate Proper(p: Piece) {
    match p
    case PWord(text) => PlainWord(text)
    case PNumber(text) => PlainNumber(text)
    case PMinus(t) => (t.Number? && PlainNumber(t.text)) || (t.Word? && PlainWord(t.text))
    case PSpace => true
    case PSym(sym) => sym in PUNCTUATION || sym == "=" || sym == "=>"
    case PLiteral(v) => NUL !in v
    case PIdent(name) => name != "" && NUL !in name
  }

  /** A piece that ends the token before it. */
  predicate Loose(p: Piece) { p == PSpace || (p.PSym? && p.sym in PUNCTUATION) }

  predicate Separated(ps: seq<Piece>) {
    forall k :: 0 <= k < |ps| - 1 ==> Loose(ps[k]) || Loose(ps[k + 1])
  }

  predicate Good(ps: seq<Piece>) { Separated(ps) && forall p :: p in ps ==> Proper(p) }

  function Text(p: Piece): string
    requires Proper(p)
  {
    match p
    case PWord(text) => text
    case PNumber(text) => text
    case PMinus(t) => "-" + t.text
    case PSpace => " "
    case PSym(sym) => sym
    case PLiteral(v) => QuoteLiteral(v).value
    case PIdent(name) => QuoteIdent(name).value
  }

  function Render(ps: seq<Piece>): string
    requires forall p :: p in ps ==> Proper(p)
  {
    if |ps| == 0 then "" else Text(ps[0]) + Render(ps[1..])
  }

  function TokenOf(p: Piece): seq<Token> {
    match p
    case PWord(text) => [Word(text)]
    case PNumber(text) => [Number(text)]
    case PMinus(t) => [Symbol("-"), t]
    case PSpace => []
    case PSym(sym) => [Symbol(sym)]
    case PLiteral(v) => [Str(v)]
    case PIdent(name) => [Ident(name)]
  }

  function TokensOf(ps: seq<Piece>): seq<Token> {
    if |ps| == 0 then [] else TokenOf(ps[0]) + TokensOf(ps[1..])
  }

  // ----- Lexing a rendered text ---------------------------------------------------------------------------

  predicate Ends(rest: string) { rest == "" || rest[0] in {' ', '(', ')', ',', ';'} }

  lemma {:induction false} LooseEnds(ps: seq<Piece>)
    requires forall p :: p in ps ==> Proper(p)
    requires |ps| == 0 || Loose(ps[0])
    ensures Ends(Render(ps))
  {
    hide QuoteLiteral, QuoteIdent, Proper;
    if |ps| > 0 {
      assert Proper(ps[0]);
      LooseText(ps[0]);
      assert Render(ps)[0] == Text(ps[0])[0];
    }
  }

  lemma {:induction false} LooseText(p: Piece)
    requires Proper(p) && Loose(p)
    ensures Text(p) != "" && Text(p)[0] in {' ', '(', ')', ',', ';'}
  {
    hide QuoteLiteral, QuoteIdent;
  }

  /** No rendered text continues a string constant: it has no newline before its first token. */
  lemma {:induction false} NothingContinues(ps: seq<Piece>)
    requires forall p :: p in ps ==> Proper(p)
    ensures Continuation(Render(ps), false) == None
  {
    hide QuoteLiteral, QuoteIdent;
    if |ps| > 0 {
      var text := Render(ps);
      if ps[0] == PSpace {
        NothingContinues(ps[1..]);
        assert text[1..] == Render(ps[1..]);
      } else {
        FirstLetter(ps[0]);
        assert text[0] == Text(ps[0])[0];
        assert |Text(ps[0])| > 1 ==> text[1] == Text(ps[0])[1];
        StartsPair(text, "--");
      }
    }
  }

  lemma {:induction false} StartsPair(s: string, pair: string)
    requires |pair| == 2
    ensures Starts(s, pair) <==> |s| >= 2 && s[0] == pair[0] && s[1] == pair[1]
  {
    if |s| >= 2 && s[0] == pair[0] && s[1] == pair[1] {
      assert s[..2] == pair;
    }
  }

  lemma {:induction false} FirstLetter(p: Piece)
    requires Proper(p) && p != PSpace
    ensures var t := Text(p); t != "" && !IsSpace(t[0]) && (t[0] == '-' ==> |t| > 1 && t[1] != '-')
  {
    hide ReplaceAll;
    if p.PLiteral? { QuotedForm(p.value); }
  }

  lemma {:induction false} WholeWord(w: string, rest: string)
    requires AllWord(w) && Ends(rest)
    ensures WordLength(w + rest) == |w|
  {
    if w == "" {
      assert w + rest == rest;
    } else {
      assert (w + rest)[1..] == w[1..] + rest;
      WholeWord(w[1..], rest);
    }
  }

  predicate NotDigit(rest: string) { rest == "" || !IsDigit(rest[0]) }

  lemma {:induction false} DigitsThen(w: string, rest: string)
    requires NotDigit(rest)
    ensures DigitLength(w + rest) == DigitLength(w)
  {
    if w == "" {
      assert w + rest == rest;
    } else {
      assert (w + rest)[1..] == w[1..] + rest;
      DigitsThen(w[1..], rest);
    }
  }

  lemma {:induction false} FractionThen(w: string, rest: string)
    requires Ends(rest)
    ensures FractionLength(w + rest) == FractionLength(w)
  {
    hide DigitLength;
    if w == "" {
      assert w + rest == rest;
    } else {
      assert (w + rest)[1..] == w[1..] + rest;
      DigitsThen(w[1..], rest);
      assert |w| >= 2 ==> (w + rest)[..2] == w[..2];
      assert |w| == 1 && rest != "" ==> (w + rest)[1] == rest[0];
    }
  }

  lemma {:induction false} ExponentThen(w: string, rest: string)
    requires Ends(rest)
    ensures ExponentLength(w + rest) == ExponentLength(w)
  {
    hide DigitLength;
    if w == "" {
      assert w + rest == rest;
    } else {
      var sign := if |w| > 1 && (w[1] == '+' || w[1] == '-') then 1 else 0;
      assert (w + rest)[1 + sign..] == w[1 + sign..] + rest;
      DigitsThen(w[1 + sign..], rest);
      assert |w| == 1 && rest != "" ==> (w + rest)[1] == rest[0];
    }
  }

  lemma {:induction false} NumberThen(w: string, rest: string)
    requires Ends(rest)
    ensures NumberLength(w + rest) == NumberLength(w)
  {
    hide DigitLength, FractionLength, ExponentLength;
    var whole := DigitLength(w);
    DigitsThen(w, rest);
    assert (w + rest)[whole..] == w[whole..] + rest;
    FractionThen(w[whole..], rest);
    var more := whole + FractionLength(w[whole..]);
    assert (w + rest)[more..] == w[more..] + rest;
    ExponentThen(w[more..], rest);
  }

  lemma {:induction false} LexWord(conforming: bool, w: string, rest: string)
    requires PlainWord(w) && Ends(rest)
    ensures Lex(conforming, w + rest) == Cons(Word(w), Lex(conforming, rest))
  {
    hide AfterLine, AfterBlock, LexString, LexIdent;
    var s := w + rest;
    assert s[0] == w[0] && s[1..] == w[1..] + rest;
    WholeWord(w[1..], rest);
    assert s[..|w|] == w && s[|w|..] == rest;
    NotComment(s);
    if |w| == 1 && rest != "" { assert s[1] == rest[0]; }
  }

  lemma {:induction false} NotComment(s: string)
    requires s != "" && s[0] != '-' && s[0] != '/'
    ensures !Starts(s, "--") && !Starts(s, "/*")
  {
    if |s| >= 2 { assert s[..2][0] == s[0]; }
  }

  lemma {:induction false} LexNumber(conforming: bool, w: string, rest: string)
    requires PlainNumber(w) && Ends(rest)
    ensures Lex(conforming, w + rest) == Cons(Number(w), Lex(conforming, rest))
  {
    hide AfterLine, AfterBlock, LexString, LexIdent, WordLength, NumberLength;
    var s := w + rest;
    assert s[0] == w[0];
    NumberThen(w, rest);
    assert s[..|w|] == w && s[|w|..] == rest;
    assert rest != "" ==> s[|w|] == rest[0];
    NotComment(s);
  }

  lemma {:induction false} LexMinus(conforming: bool, value: Token, rest: string)
    requires Proper(PMinus(value)) && Ends(rest)
    ensures Lex(conforming, "-" + value.text + rest) == Cons(Symbol("-"), Cons(value, Lex(conforming, rest)))
  {
    hide AfterLine, AfterBlock, LexString, LexIdent, WordLength, NumberLength, DigitLength;
    var s := "-" + value.text + rest;
    assert s[0] == '-' && s[1] == value.text[0] && s[1..] == value.text + rest;
    assert s[..1] == "-";
    StartsPair(s, "--");
    StartsPair(s, "/*");
    assert OperatorLength(s[1..]) == 0;
    if value.Number? { LexNumber(conforming, value.text, rest); } else { LexWord(conforming, value.text, rest); }
  }

  lemma {:induction false} LexPunctuation(conforming: bool, sym: string, rest: string)
    requires sym in PUNCTUATION
    ensures Lex(conforming, sym + rest) == Cons(Symbol(sym), Lex(conforming, rest))
  {
    hide AfterLine, AfterBlock, LexString, LexIdent, WordLength, DigitLength, OperatorLength;
    var s := sym + rest;
    assert s[0] == sym[0] && s[1..] == rest;
    NotComment(s);
    assert [s[0]] == sym;
  }

  lemma {:induction false} LexEquals(conforming: bool, sym: string, rest: string)
    requires (sym == "=" || sym == "=>") && Ends(rest)
    ensures Lex(conforming, sym + rest) == Cons(Symbol(sym), Lex(conforming, rest))
  {
    hide AfterLine, AfterBlock, LexString, LexIdent, WordLength, DigitLength;
    var s := sym + rest;
    NotComment(s);
    assert s[0] == '=';
    assert OperatorLength(rest) == 0;
    if sym == "=" {
      assert s[1..] == rest;
    } else {
      assert s[1] == '>' && s[1..][1..] == rest;
      NotComment(s[1..]);
      assert OperatorLength(s[1..]) == 1;
    }
    assert s[..|sym|] == sym && s[|sym|..] == rest;
  }

  lemma {:induction false} LexLiteral(conforming: bool, v: string, rest: string)
    requires NUL !in v && Ends(rest) && Continuation(rest, false) == None
    ensures Lex(conforming, QuoteLiteral(v).value + rest) == Cons(Str(v), Lex(conforming, rest))
  {
    hide AfterLine, AfterBlock, LexString, LexIdent, WordLength, DigitLength, OperatorLength, QuoteLiteral, Continuation;
    RefusedExactly(v, "");
    var s := QuoteLiteral(v).value + rest;
    LiteralReadBack(v, conforming, rest);
    NotComment(s);
  }

  lemma {:induction false} LexQuotedIdent(conforming: bool, name: string, rest: string)
    requires name != "" && NUL !in name && Ends(rest)
    ensures Lex(conforming, QuoteIdent(name).value + rest) == Cons(Ident(name), Lex(conforming, rest))
  {
    hide AfterLine, AfterBlock, LexString, LexIdent, WordLength, DigitLength, OperatorLength, QuoteIdent;
    RefusedExactly("", name);
    var s := QuoteIdent(name).value + rest;
    IdentReadBack(name, rest);
    NotComment(s);
  }

  lemma {:induction false} PieceLexes(conforming: bool, p: Piece, rest: string)
    requires Proper(p) && (Loose(p) || Ends(rest)) && Continuation(rest, false) == None
    requires Lex(conforming, rest).Some?
    ensures Lex(conforming, Text(p) + rest) == Some(TokenOf(p) + Lex(conforming, rest).value)
  {
    hide Lex, QuoteLiteral, QuoteIdent, Continuation, Ends, PlainWord, PlainNumber;
    match p
    case PWord(text) => LexWord(conforming, text, rest);
    case PNumber(text) => LexNumber(conforming, text, rest);
    case PMinus(t) =>
      LexMinus(conforming, t, rest);
      assert [Symbol("-")] + ([t] + Lex(conforming, rest).value) == [Symbol("-"), t] + Lex(conforming, rest).value;
    case PSpace =>
      LexSpace(conforming, rest);
      assert [] + Lex(conforming, rest).value == Lex(conforming, rest).value;
    case PSym(sym) =>
      if sym in PUNCTUATION { LexPunctuation(conforming, sym, rest); } else { LexEquals(conforming, sym, rest); }
    case PLiteral(v) => LexLiteral(conforming, v, rest);
    case PIdent(name) => LexQuotedIdent(conforming, name, rest);
  }

  /** A rendered text lexes to its pieces' tokens, under either server setting. */
  lemma {:induction false} RenderLexes(conforming: bool, ps: seq<Piece>)
    requires Good(ps)
    ensures Lex(conforming, Render(ps)) == Some(TokensOf(ps))
  {
    hide Lex, Text, TokenOf, Continuation, Ends, Proper, Loose;
    if |ps| == 0 {
      EmptyLexes(conforming);
    } else {
      GoodTail(ps);
      RenderLexes(conforming, ps[1..]);
      NothingContinues(ps[1..]);
      if !Loose(ps[0]) {
        assert |ps| > 1 ==> Loose(ps[1]);
        LooseEnds(ps[1..]);
      }
      PieceLexes(conforming, ps[0], Render(ps[1..]));
    }
  }

  lemma {:induction false} EmptyLexes(conforming: bool)
    ensures Lex(conforming, "") == Some([])
  {
  }

  lemma {:induction false} LexSpace(conforming: bool, rest: string)
    ensures Lex(conforming, " " + rest) == Lex(conforming, rest)
  {
    assert (" " + rest)[1..] == rest;
  }

  lemma {:induction false} GoodTail(ps: seq<Piece>)
    requires Good(ps) && |ps| > 0
    ensures Good(ps[1..]) && Proper(ps[0])
  {
    hide Proper, Loose;
    var tail := ps[1..];
    assert forall k :: 0 <= k < |tail| ==> tail[k] == ps[k + 1];
  }

  // ----- What the lexer calls a word ----------------------------------------------------------------------------

  lemma {:induction false} WordLengthChars(s: string)
    ensures AllWord(s[..WordLength(s)])
  {
    if s != "" && IsWordChar(s[0]) {
      WordLengthChars(s[1..]);
      var n := WordLength(s[1..]);
      assert s[..1 + n] == [s[0]] + s[1..][..n];
    }
  }

  predicate WordsPlain(ts: seq<Token>) { forall k :: 0 <= k < |ts| && ts[k].Word? ==> PlainWord(ts[k].text) }

  lemma {:induction false} ConsPlain(t: Token, ts: Option<seq<Token>>)
    requires t.Word? ==> PlainWord(t.text)
    requires ts.Some? ==> WordsPlain(ts.value)
    ensures Cons(t, ts).Some? ==> WordsPlain(Cons(t, ts).value)
  {
    hide PlainWord;
  }

  lemma {:induction false} WordToken(s: string)
    requires s != "" && IsWordStart(s[0])
    ensures PlainWord(s[..1 + WordLength(s[1..])])
  {
    hide WordLength;
    WordLengthChars(s[1..]);
    var n := WordLength(s[1..]);
    assert s[..1 + n] == [s[0]] + s[1..][..n];
  }

  /** Every word token is a plain word, whatever text it came from. */
  lemma {:induction false} LexedWords(conforming: bool, s: string)
    ensures var r := Lex(conforming, s); r.Some? ==> WordsPlain(r.value)
    decreases |s|, 1
  {
    hide AfterLine, AfterBlock, LexString, LexIdent, WordLength, NumberLength, OperatorLength, PlainWord, Cons, WordsPlain;
    if s == "" {
      NoWords();
    } else if IsSpace(s[0]) {
      LexedWords(conforming, s[1..]);
    } else if Starts(s, "--") {
      LexedWords(conforming, AfterLine(s[2..]));
    } else if Starts(s, "/*") {
      var t := AfterBlock(s[2..], 1);
      if t.Some? { LexedWords(conforming, t.value); }
    } else if IsString(s) {
      var r := LexString(conforming, s);
      if r.Some? { LexedThen(conforming, Str(r.value.value), s, r.value.rest); }
    } else if s[0] == '"' {
      var r := LexIdent(s);
      if r.Some? { LexedThen(conforming, Ident(r.value.value), s, r.value.rest); }
    } else if IsWordStart(s[0]) {
      var n := 1 + WordLength(s[1..]);
      WordToken(s);
      LexedThen(conforming, Word(s[..n]), s, s[n..]);
    } else if IsDigit(s[0]) {
      var n := NumberLength(s);
      LexedThen(conforming, Number(s[..n]), s, s[n..]);
    } else if IsOperator(s[0]) {
      var n := 1 + OperatorLength(s[1..]);
      LexedThen(conforming, Symbol(s[..n]), s, s[n..]);
    } else {
      LexedThen(conforming, Symbol([s[0]]), s, s[1..]);
    }
  }

  lemma {:induction false} LexedThen(conforming: bool, t: Token, s: string, rest: string)
    requires |rest| < |s| && (t.Word? ==> PlainWord(t.text))
    ensures var r := Cons(t, Lex(conforming, rest)); r.Some? ==> WordsPlain(r.value)
    decreases |s|, 0
  {
    hide Lex, Cons, WordsPlain, PlainWord;
    LexedWords(conforming, rest);
    ConsPlain(t, Lex(conforming, rest));
  }

  lemma {:induction false} NoWords()
    ensures WordsPlain([])
  {
  }

  // ----- Putting pieces together ------------------------------------------------------------------------------

  lemma {:induction false} GlueGood(a: seq<Piece>, b: seq<Piece>)
    requires Good(a) && Good(b)
    requires |a| == 0 || |b| == 0 || Loose(a[|a| - 1]) || Loose(b[0])
    ensures Good(a + b)
  {
    hide Proper, Loose;
    var c := a + b;
    forall k | 0 <= k < |c| - 1
      ensures Loose(c[k]) || Loose(c[k + 1])
    {
      assert c[k] == if k < |a| then a[k] else b[k - |a|];
      assert c[k + 1] == if k + 1 < |a| then a[k + 1] else b[k + 1 - |a|];
    }
  }

  lemma {:induction false} GlueTokens(a: seq<Piece>, b: seq<Piece>)
    ensures TokensOf(a + b) == TokensOf(a) + TokensOf(b)
  {
    hide TokenOf;
    if |a| == 0 {
      assert a + b == b;
    } else {
      assert (a + b)[1..] == a[1..] + b;
      GlueTokens(a[1..], b);
    }
  }

  lemma {:induction false} GlueText(a: seq<Piece>, b: seq<Piece>)
    requires forall p :: p in a + b ==> Proper(p)
    ensures (forall p :: p in a ==> Proper(p)) && (forall p :: p in b ==> Proper(p))
    ensures Render(a + b) == Render(a) + Render(b)
  {
    hide Text, Proper;
    assert forall p :: p in a || p in b ==> p in a + b;
    if |a| == 0 {
      assert a + b == b;
    } else {
      assert (a + b)[1..] == a[1..] + b;
      assert a[0] == (a + b)[0];
      GlueText(a[1..], b);
    }
  }

  lemma {:induction false} Glue(a: seq<Piece>, b: seq<Piece>)
    requires Good(a) && Good(b)
    requires |a| == 0 || |b| == 0 || Loose(a[|a| - 1]) || Loose(b[0])
    ensures Good(a + b)
    ensures Render(a + b) == Render(a) + Render(b)
    ensures TokensOf(a + b) == TokensOf(a) + TokensOf(b)
  {
    hide Proper, Loose, Text, Render, TokensOf, Separated;
    GlueGood(a, b);
    GlueText(a, b);
    GlueTokens(a, b);
  }

  lemma {:induction false} Single(p: Piece)
    requires Proper(p)
    ensures Good([p]) && Render([p]) == Text(p) && TokensOf([p]) == TokenOf(p)
  {
    hide Proper, Text, TokenOf;
    assert Text(p) + "" == Text(p);
    assert TokenOf(p) + [] == TokenOf(p);
  }

  function Join(parts: seq<string>, separator: string): string {
    if |parts| == 0 then ""
    else if |parts| == 1 then parts[0]
    else Join(parts[..|parts| - 1], separator) + separator + parts[|parts| - 1]
  }
}
