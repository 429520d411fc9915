/**
 Programs as texts: tokens with blanks and comments between them are scanned as
 those tokens, so a program's text is scanned and parsed into the program
 (src/lexer.c:54-302, src/parser.c:821-863).
 */
module SourceTexts {
  import opened Wrappers
  import opened Lexing
  import opened Parsing
  import opened PrattSoundness
  import opened RoundTrips
  import opened SourceTokens
  import Ast

  // ---- between the tokens ----

  /** White space, or a comment to the end of its line. */
  datatype Gap = Blank(c: char) | Comment(line: string)

  predicate GapOk(g: Gap) {
    match g
    case Blank(c) => c in " \t\n\r" || c as int == 11 || c as int == 12
    case Comment(line) => '\n' !in line
  }

  predicate GapsOk(gs: seq<Gap>) { forall i | 0 <= i < |gs| :: GapOk(gs[i]) }

  function GapText(gs: seq<Gap>): string {
    if gs == [] then "" else
    (match gs[0] case Blank(c) => [c] case Comment(line) => "//" + line + "\n") + GapText(gs[1..])
  }

  lemma {:induction false} CommentEnds(s: string, i: nat, line: string)
    requires At(s, i, line + "\n") && '\n' !in line
    ensures LineEnd(s, i) == i + |line|
    decreases |line|
  {
    hide At;
    if line == "" {
      assert line + "\n" == "\n";
      AtChar(s, i, "\n", 0);
    } else {
      assert line + "\n" == [line[0]] + (line[1..] + "\n");
      AtCat(s, i, [line[0]], line[1..] + "\n");
      AtChar(s, i, [line[0]], 0);
      AtBound(s, i + 1, line[1..] + "\n");
      assert line[0] in line;
      CommentEnds(s, i + 1, line[1..]);
    }
  }

  lemma {:induction false} AtBound(s: string, i: nat, w: string)
    requires At(s, i, w)
    ensures i + |w| <= |s|
  {
  }

  /** Gaps are passed over. */
  lemma {:induction false} GapsSkipped(s: string, i: nat, gs: seq<Gap>)
    requires GapsOk(gs) && At(s, i, GapText(gs))
    ensures i + |GapText(gs)| <= |s| && SkipBlank(s, i) == SkipBlank(s, i + |GapText(gs)|)
    decreases |gs|
  {
    hide At, SkipBlank, GapOk;
    AtBound(s, i, GapText(gs));
    if gs != [] {
      assert GapOk(gs[0]);
      var first := match gs[0] case Blank(c) => [c] case Comment(line) => "//" + line + "\n";
      AtCat(s, i, first, GapText(gs[1..]));
      OneGap(s, i, gs[0]);
      GapsSkipped(s, i + |first|, gs[1..]);
    }
  }

  lemma {:induction false} OneGap(s: string, i: nat, g: Gap)
    requires GapOk(g)
    requires At(s, i, match g case Blank(c) => [c] case Comment(line) => "//" + line + "\n")
    ensures var n := match g case Blank(_) => 1 case Comment(line) => |line| + 3;
            i + n <= |s| && SkipBlank(s, i) == SkipBlank(s, i + n)
  {
    match g
    case Blank(c) => AtChar(s, i, [c], 0);
    case Comment(line) =>
      assert "//" + line + "\n" == "/" + ("/" + (line + "\n"));
      AtCat(s, i, "/", "/" + (line + "\n"));
      AtCat(s, i + 1, "/", line + "\n");
      AtChar(s, i, "/", 0);
      AtChar(s, i + 1, "/", 0);
      AtBound(s, i + 2, line + "\n");
      AtChar(s, i + 2, line + "\n", |line|);
      CommentEnds(s, i + 2, line);
  }

  // ---- tokens ----

  /** By their ASCII codes: small and capital letters, and the underscore. */
  predicate Letter(c: char) { 97 <= c as int <= 122 || 65 <= c as int <= 90 || c as int == 95 }

  predicate Numeral(c: char) { 48 <= c as int <= 57 }

  const KEYWORDS: seq<string> :=
    ["let", "fn", "true", "false", "if", "else", "return", "while", "for", "in", "break", "continue"]

  /** A letter, then letters and digits, no more than 63 in all, and no keyword. */
  predicate NameLike(w: string) {
    0 < |w| <= 63 && Letter(w[0]) && (forall i | 0 <= i < |w| :: Letter(w[i]) || Numeral(w[i])) && w !in KEYWORDS
  }

  predicate NumberLike(w: string) { 0 < |w| <= 63 && forall i | 0 <= i < |w| :: Numeral(w[i]) }

  /** Between quotes, every quote is behind a backslash, and the last character is none. */
  predicate Quotable(w: string) {
    (forall i | 0 <= i < |w| && w[i] == '"' :: i > 0 && w[i - 1] == '\\') && (w != "" ==> w[|w| - 1] != '\\')
  }

  /** The token can be written as it is. */
  predicate LexOk(tok: Tok) {
    match tok.kind
    case IdentT => NameLike(tok.text)
    case IntT => NumberLike(tok.text)
    case StringT => Quotable(tok.text)
    case k => Spelling(k) != "" && tok.text == Spelling(k)
  }

  function Show(tok: Tok): string {
    if tok.kind == StringT then "\"" + tok.text + "\"" else tok.text
  }

  lemma {:induction false} NoKeyword(w: string)
    requires w !in KEYWORDS
    ensures Keyword(w) == IdentT
  {
  }

  /** A keyword's token is written as the keyword. */
  lemma {:induction false} KeywordIs(kind: TokenType)
    requires IsKeyword(kind)
    ensures Keyword(Spelling(kind)) == kind && 0 < |Spelling(kind)| < MAX_IDENT_LENGTH && IsLetter(Spelling(kind)[0])
    ensures forall i | 0 <= i < |Spelling(kind)| :: IsWord(Spelling(kind)[i])
  {
  }

  predicate IsKeyword(kind: TokenType) {
    match kind
    case LetT => true case FunctionT => true case TrueT => true case FalseT => true case IfT => true case ElseT => true
    case ReturnT => true case WhileT => true case ForT => true case InT => true case BreakT => true
    case ContinueT => true
    case _ => false
  }

  /** The character behind a token is a blank. */
  predicate BlankAt(s: string, i: nat) { i < |s| && IsSpace(s[i]) }

  /** Scanned at i, whatever type the token before had. */
  ghost predicate ScansAt(s: string, i: nat, tok: Tok) {
    && i <= |s| && SkipBlank(s, i) == i
    && forall prev ::
         var l := LexemeAt(s, i, prev);
         l.kind == tok.kind && l.next == i + |Show(tok)| && TokOf(s, l) == tok
  }

  lemma {:induction false} WordScans(s: string, i: nat, w: string)
    requires At(s, i, w) && 0 < |w| < MAX_IDENT_LENGTH && IsLetter(w[0]) && (forall k | 0 <= k < |w| :: IsWord(w[k]))
    requires BlankAt(s, i + |w|)
    ensures ScansAt(s, i, Tok(Keyword(w), w))
  {
    hide Keyword;
    forall k | i <= k < i + |w| ensures IsWord(s[k]) { AtChar(s, i, w, k - i); }
    AtChar(s, i, w, 0);
    WordRuns(s, i, i + |w|, MAX_IDENT_LENGTH - 1);
    assert SkipBlank(s, i) == i;
    NotString(w);
    forall prev ensures LexemeAt(s, i, prev) == Lexeme(Keyword(w), w, 0, 0, i + |w|) {
      assert Symbol(s[i], CharAt(s, i + 1), prev) == None;
    }
  }

  lemma {:induction false} NotString(w: string)
    ensures Keyword(w) != StringT
  {
  }

  lemma {:induction false} NumberScans(s: string, i: nat, w: string)
    requires At(s, i, w) && NumberLike(w) && BlankAt(s, i + |w|)
    ensures ScansAt(s, i, Tok(IntT, w))
  {
    forall k | i <= k < i + |w| ensures IsDigit(s[k]) { AtChar(s, i, w, k - i); }
    AtChar(s, i, w, 0);
    DigitsRun(s, i, i + |w|, MAX_IDENT_LENGTH - 1);
    assert SkipBlank(s, i) == i;
    forall prev ensures LexemeAt(s, i, prev) == Lexeme(IntT, w, 0, 0, i + |w|) {
      assert Symbol(s[i], CharAt(s, i + 1), prev) == None;
    }
  }

  lemma {:induction false} QuotesRun(s: string, k: nat, j: nat)
    requires 1 <= k <= j < |s| && s[j] == '"' && s[j - 1] != '\\'
    requires forall i | k <= i < j && s[i] == '"' :: s[i - 1] == '\\'
    ensures QuoteEnd(s, k) == j
    decreases j - k
  {
    if k < j {
      QuotesRun(s, k + 1, j);
    }
  }

  lemma {:induction false} StringScans(s: string, i: nat, w: string)
    requires At(s, i, "\"" + w + "\"") && Quotable(w)
    ensures ScansAt(s, i, Tok(StringT, w))
  {
    hide At, QuoteEnd, LexemeAt, Quotable, TokOf, SkipBlank;
    var j := i + 1 + |w|;
    QuotedAt(s, i, w);
    Inside(s, i + 1, w);
    forall prev
      ensures var l := LexemeAt(s, i, prev);
              l.kind == StringT && l.next == i + |w| + 2 && TokOf(s, l) == Tok(StringT, w)
    {
      StringLexeme(s, i, j, prev);
    }
  }

  lemma {:induction false} QuotedAt(s: string, i: nat, w: string)
    requires At(s, i, "\"" + w + "\"") && Quotable(w)
    ensures At(s, i + 1, w) && i + 1 + |w| < |s| && s[i] == '"' && QuoteEnd(s, i + 1) == i + 1 + |w|
    ensures SkipBlank(s, i) == i
  {
    hide At, QuoteEnd;
    assert "\"" + w + "\"" == "\"" + (w + "\"");
    AtCat(s, i, "\"", w + "\"");
    AtCat(s, i + 1, w, "\"");
    AtChar(s, i, "\"", 0);
    AtBound(s, i + 1 + |w|, "\"");
    AtChar(s, i + 1 + |w|, "\"", 0);
    var j := i + 1 + |w|;
    forall k | i + 1 <= k < j ensures s[k] == w[k - i - 1] { AtChar(s, i + 1, w, k - i - 1); }
    QuotesRun(s, i + 1, j);
  }

  lemma {:induction false} StringLexeme(s: string, i: nat, j: nat, prev: TokenType)
    requires i < j < |s| && s[i] == '"' && QuoteEnd(s, i + 1) == j
    ensures LexemeAt(s, i, prev) == Lexeme(StringT, "", i + 1, j, j + 1)
    ensures TokOf(s, LexemeAt(s, i, prev)) == Tok(StringT, s[i + 1..j])
  {
    hide QuoteEnd;
  }

  lemma {:induction false} Inside(s: string, i: nat, w: string)
    requires At(s, i, w)
    ensures i + |w| <= |s| && s[i..i + |w|] == w
  {
  }

  predicate IsSymbol(kind: TokenType) {
    Spelling(kind) != "" && !IsKeyword(kind)
  }

  /** What the switch of the scanner makes of the characters of a sign. */
  lemma {:induction false} SymbolIs(kind: TokenType, d: char, prev: TokenType)
    requires IsSymbol(kind) && (if |Spelling(kind)| == 2 then d == Spelling(kind)[1] else IsSpace(d))
    ensures var c := Spelling(kind)[0];
            && Symbol(c, d, prev) == Some((kind, Spelling(kind))) && SymbolSize(c, d) == |Spelling(kind)| <= 2
            && !IsSpace(c) && (c == '/' ==> d != '/')
  {
  }

  lemma {:induction false} SymbolScans(s: string, i: nat, kind: TokenType)
    requires At(s, i, Spelling(kind)) && IsSymbol(kind) && BlankAt(s, i + |Spelling(kind)|)
    ensures ScansAt(s, i, Fixed(kind))
  {
    hide At, Spelling, Symbol, SymbolSize, IsSymbol;
    var w := Spelling(kind);
    SymbolShort(kind);
    AtChar(s, i, w, 0);
    AtBound(s, i, w);
    if |w| == 2 {
      AtChar(s, i, w, 1);
    }
    forall prev ensures LexemeAt(s, i, prev) == Lexeme(kind, w, 0, 0, i + |w|) {
      SymbolIs(kind, s[i + 1], prev);
    }
    SymbolIs(kind, s[i + 1], Eof);
    assert SkipBlank(s, i) == i;
    NoStringSymbol(kind);
  }

  lemma {:induction false} SymbolShort(kind: TokenType)
    requires IsSymbol(kind)
    ensures 1 <= |Spelling(kind)| <= 2
  {
  }

  lemma {:induction false} NoStringSymbol(kind: TokenType)
    requires IsSymbol(kind)
    ensures kind != StringT
  {
  }

  lemma {:induction false} NameScans(s: string, i: nat, w: string)
    requires At(s, i, w) && NameLike(w) && BlankAt(s, i + |w|)
    ensures ScansAt(s, i, Name(w))
  {
    hide At, ScansAt, BlankAt, Keyword;
    NoKeyword(w);
    WordScans(s, i, w);
  }

  lemma {:induction false} SpelledScans(s: string, i: nat, tok: Tok)
    requires tok == Fixed(tok.kind) && Spelling(tok.kind) != "" && At(s, i, tok.text) && BlankAt(s, i + |tok.text|)
    ensures ScansAt(s, i, tok) && tok.kind != Eof
  {
    hide At, ScansAt, BlankAt, Spelling, Keyword, IsKeyword;
    NoEof(tok.kind);
    if IsKeyword(tok.kind) {
      KeywordIs(tok.kind);
      WordScans(s, i, tok.text);
    } else {
      SymbolScans(s, i, tok.kind);
    }
  }

  lemma {:induction false} LexOkIs(tok: Tok)
    requires LexOk(tok)
    ensures tok.kind == IdentT ==> NameLike(tok.text)
    ensures tok.kind == IntT ==> NumberLike(tok.text)
    ensures tok.kind == StringT ==> Quotable(tok.text)
    ensures tok.kind != IdentT && tok.kind != IntT && tok.kind != StringT ==>
              Spelling(tok.kind) != "" && tok == Fixed(tok.kind)
  {
    hide NameLike, NumberLike, Quotable, Spelling;
  }

  /** A token with a blank behind it is scanned as that token. */
  lemma {:induction false} TokenScans(s: string, i: nat, tok: Tok)
    requires LexOk(tok) && At(s, i, Show(tok)) && BlankAt(s, i + |Show(tok)|)
    ensures ScansAt(s, i, tok) && tok.kind != Eof
  {
    hide At, ScansAt, BlankAt, Spelling, Fixed, LexOk, Quotable, NumberLike, NameLike;
    LexOkIs(tok);
    if tok.kind == IdentT {
      NameScans(s, i, tok.text);
    } else if tok.kind == IntT {
      NumberScans(s, i, tok.text);
    } else if tok.kind == StringT {
      StringScans(s, i, tok.text);
    } else {
      SpelledScans(s, i, tok);
    }
  }

  lemma {:induction false} NoEof(kind: TokenType)
    requires Spelling(kind) != ""
    ensures kind != Eof
  {
  }

  // ---- texts ----

  /** Behind each token a blank, and then any blanks and comments. */
  predicate Separated(gaps: seq<seq<Gap>>) {
    forall i | 0 <= i < |gaps| :: gaps[i] != [] && gaps[i][0].Blank? && GapsOk(gaps[i])
  }

  predicate Lexable(ts: seq<Tok>) { forall i | 0 <= i < |ts| :: LexOk(ts[i]) }

  function TextOf(ts: seq<Tok>, gaps: seq<seq<Gap>>): string
    requires |gaps| == |ts|
  {
    if ts == [] then "" else Show(ts[0]) + (GapText(gaps[0]) + TextOf(ts[1..], gaps[1..]))
  }

  lemma {:induction false} GapStarts(s: string, i: nat, gs: seq<Gap>)
    requires gs != [] && gs[0].Blank? && GapsOk(gs) && At(s, i, GapText(gs))
    ensures BlankAt(s, i)
  {
    AtCat(s, i, [gs[0].c], GapText(gs[1..]));
    AtChar(s, i, [gs[0].c], 0);
    assert GapOk(gs[0]);
  }

  /** The first token, and the tokens from the gap behind it on. */
  lemma {:induction false} OneToken(s: string, i: nat, tok: Tok, g: string, prev: TokenType)
    requires ScansAt(s, i, tok) && tok.kind != Eof
    requires var j := i + |Show(tok)|; j + |g| <= |s| && SkipBlank(s, j) == SkipBlank(s, j + |g|)
    ensures Tokens(s, i, prev) == [tok] + Tokens(s, i + |Show(tok)| + |g|, tok.kind)
  {
    hide SkipBlank, Show, LexemeAt, TokOf;
    var l := LexemeAt(s, i, prev);
    assert l.kind == tok.kind;
    SameTokens(s, i + |Show(tok)|, i + |Show(tok)| + |g|, tok.kind);
  }

  lemma {:induction false} TokensAt(s: string, i: nat, ts: seq<Tok>, gaps: seq<seq<Gap>>, prev: TokenType)
    requires |gaps| == |ts| && Separated(gaps) && Lexable(ts)
    requires At(s, i, TextOf(ts, gaps)) && i + |TextOf(ts, gaps)| == |s|
    ensures Tokens(s, i, prev) == ts
    decreases |ts|
  {
    hide At, SkipBlank, GapText, Show, GapsOk, LexOk, LexemeAt, Tokens, ScansAt, BlankAt;
    if ts == [] {
      NoTokensLeft(s, prev);
    } else {
      var w, g, rest := Show(ts[0]), GapText(gaps[0]), TextOf(ts[1..], gaps[1..]);
      AtCat(s, i, w, g + rest);
      AtCat(s, i + |w|, g, rest);
      GapStarts(s, i + |w|, gaps[0]);
      TokenScans(s, i, ts[0]);
      GapsSkipped(s, i + |w|, gaps[0]);
      OneToken(s, i, ts[0], g, prev);
      TokensAt(s, i + |w| + |g|, ts[1..], gaps[1..], ts[0].kind);
      assert ts == [ts[0]] + ts[1..];
    }
  }

  lemma {:induction false} NoTokensLeft(s: string, prev: TokenType)
    ensures Tokens(s, |s|, prev) == []
  {
  }

  lemma {:induction false} SameTokens(s: string, i: nat, j: nat, prev: TokenType)
    requires i <= |s| && j <= |s| && SkipBlank(s, i) == SkipBlank(s, j)
    ensures Tokens(s, i, prev) == Tokens(s, j, prev)
  {
    hide SkipBlank, LexemeAt;
  }

  /** Whatever is in front of the first token and between the tokens, the text is scanned as these tokens. */
  lemma {:induction false} TextScans(lead: seq<Gap>, ts: seq<Tok>, gaps: seq<seq<Gap>>, first: TokenType)
    requires |gaps| == |ts| && GapsOk(lead) && Separated(gaps) && Lexable(ts)
    ensures Tokens(GapText(lead) + TextOf(ts, gaps), 0, first) == ts
  {
    hide At, SkipBlank, GapText, TextOf, Tokens, GapsOk, Separated, Lexable;
    var a, b := GapText(lead), TextOf(ts, gaps);
    var s := a + b;
    Whole(s);
    AtCat(s, 0, a, b);
    GapsSkipped(s, 0, lead);
    SameTokens(s, 0, |a|, first);
    TokensAt(s, |a|, ts, gaps, first);
  }

  /**
   The round trip from text: any syntax tree that can be written, with blanks and
   comments anywhere between its tokens, is what scanner and parser make of the text.
   */
  lemma {:induction false} SourceReparses(b: seq<Ast.Stmt>, lead: seq<Gap>, gaps: seq<seq<Gap>>, first: TokenType)
    requires OkB(b) && Lexable(TokB(b)) && |gaps| == |TokB(b)| && GapsOk(lead) && Separated(gaps)
    ensures var ts := Tokens(GapText(lead) + TextOf(TokB(b), gaps), 0, first);
            ts == TokB(b) && ProgramLoop(ts, [], 0, true) == Done(b, |ts|)
  {
    hide OkB, TokB, Tokens, ProgramLoop, GapText, TextOf, GapsOk, Separated, Lexable;
    TextScans(lead, TokB(b), gaps, first);
    ProgramReparses(b);
  }

  // ---- which trees' tokens can be written ----

  function Power10(k: nat): nat { if k == 0 then 1 else 10 * Power10(k - 1) }

  lemma {:induction false} DigitsFit(n: nat, k: nat)
    requires 0 < k && n < Power10(k)
    ensures |Digits(n)| <= k && forall i | 0 <= i < |Digits(n)| :: Numeral(Digits(n)[i])
    decreases n
  {
    DigitIsNumeral(n % 10);
    if n >= 10 {
      assert k > 1;
      DigitsFit(n / 10, k - 1);
    }
  }

  lemma {:induction false} DigitIsNumeral(d: nat)
    requires d < 10
    ensures Numeral(Digit(d))
  {
  }

  /** Numbers of up to 63 digits, and strings that do not end in a backslash; all signs and keywords. */
  lemma {:induction false} NumbersAndStrings(n: nat, s: string)
    ensures n < Power10(63) ==> LexOk(Tok(IntT, Digits(n)))
    ensures s == "" || s[|s| - 1] != '\\' ==> LexOk(Tok(StringT, Escaped(s)))
  {
    hide Digits, Escaped, Power10;
    if n < Power10(63) {
      DigitsFit(n, 63);
    }
    if s == "" || s[|s| - 1] != '\\' {
      EscapedQuotable(s);
    }
  }

  lemma {:induction false} EscapedQuotable(s: string)
    requires s == "" || s[|s| - 1] != '\\'
    ensures Quotable(Escaped(s))
  {
    if s != "" {
      var rest, raw := s[1..], Escaped(s[1..]);
      EscapedQuotable(rest);
      EscapedFirst(rest);
      var w := Escaped(s);
      var first := if s[0] == '\n' then "\\n" else if s[0] == '\t' then "\\t" else if s[0] == '"' then "\\\""
        else [s[0]];
      assert w == first + raw;
      forall i | 0 <= i < |w| && w[i] == '"' ensures i > 0 && w[i - 1] == '\\' {
        if i >= |first| { assert raw[i - |first|] == '"'; }
      }
    }
  }
}
