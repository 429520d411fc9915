/**
 Scanning and parsing a printed expression gives the expression (src/parser.c:676-772, 910-1032,
 src/lexer.c:54-302).
 */
module RoundTrips {
  import opened Wrappers
  import opened Lexing
  import opened Parsing
  import opened PrattSoundness
  import opened PrattCompleteness
  import opened Printing
  import opened ParserMethods
  import Ast

  // ---- the tokens of a text ----

  /** The tokens from position i to the end of the input. */
  function Tokens(s: string, i: nat, prev: TokenType): seq<Tok>
    requires i <= |s|
    decreases |s| - i
  {
    var l := LexemeAt(s, SkipBlank(s, i), prev);
    if l.kind == Eof then []
    else if l.next > |s| then [TokOf(s, l)]
    else [TokOf(s, l)] + Tokens(s, l.next, l.kind)
  }

  /** For the parser, a string token holds its characters. */
  function TokOf(s: string, l: Lexeme): Tok {
    Tok(l.kind, if l.kind == StringT && l.start <= l.end <= |s| then s[l.start..l.end] else l.literal)
  }

  method Scanned(s: string, first: TokenType) returns (ts: seq<Tok>)
    ensures ts == Tokens(s, 0, first)
  {
    hide LexemeAt, SkipBlank, Tokens;
    var lexer := new Lexer(s);
    ts := [];
    var prev := first;
    assert [] + Tokens(s, 0, first) == Tokens(s, 0, first);
    while true
      invariant lexer.input == s && lexer.pos <= |s|
      invariant Tokens(s, 0, first) == ts + Tokens(s, lexer.pos, prev)
      decreases |s| - lexer.pos
    {
      ghost var l := LexemeAt(s, SkipBlank(s, lexer.pos), prev);
      TokensStep(s, lexer.pos, prev, l);
      var t := lexer.GetToken(prev);
      if t.kind == Eof {
        return ts;
      }
      var tok := Tok(t.kind, if t.kind == StringT && t.start <= t.end <= |s| then s[t.start..t.end] else t.literal);
      if lexer.pos > |s| {
        return ts + [tok];
      }
      Regroup(ts, [tok], Tokens(s, lexer.pos, t.kind));
      ts, prev := ts + [tok], t.kind;
    }
  }

  lemma {:induction false} TokensStep(s: string, i: nat, prev: TokenType, l: Lexeme)
    requires i <= |s| && l == LexemeAt(s, SkipBlank(s, i), prev)
    ensures SkipBlank(s, i) <= |s|
    ensures if l.kind == Eof then Tokens(s, i, prev) == []
            else i < l.next && Tokens(s, i, prev) == if l.next > |s| then [TokOf(s, l)]
              else [TokOf(s, l)] + Tokens(s, l.next, l.kind)
  {
    hide SkipBlank;
    Further(s, SkipBlank(s, i), prev);
  }

  lemma {:induction false} Further(s: string, i: nat, prev: TokenType)
    requires i <= |s|
    ensures var l := LexemeAt(s, i, prev); l.kind == Eof || i < l.next <= |s| + 1
  {
  }

  // ---- pieces of the input ----

  predicate At(s: string, i: nat, w: string) { i + |w| <= |s| && s[i..i + |w|] == w }

  lemma {:induction false} AtCat(s: string, i: nat, a: string, b: string)
    requires At(s, i, a + b)
    ensures At(s, i, a) && At(s, i + |a|, b)
  {
    var w := s[i..i + |a + b|];
    assert w[..|a|] == a && w[|a|..] == b;
    assert s[i..i + |a|] == w[..|a|] && s[i + |a|..i + |a| + |b|] == w[|a|..];
  }

  lemma {:induction false} AtChar(s: string, i: nat, w: string, k: nat)
    requires At(s, i, w) && k < |w|
    ensures s[i + k] == w[k]
  {
    assert s[i..i + |w|][k] == w[k];
  }

  /** The input from i to j is these tokens, whatever came before. */
  predicate Lexes(s: string, i: nat, j: nat, ts: seq<Tok>)
    decreases |ts|
  {
    if ts == [] then i == j <= |s|
    else i <= j <= |s| && exists k | i < k <= j :: LexesOne(s, i, k, ts[0]) && Lexes(s, k, j, ts[1..])
  }

  predicate LexesOne(s: string, i: nat, k: nat, tok: Tok) {
    i <= |s| && forall prev :: LexemeAt(s, SkipBlank(s, i), prev) == Lexeme(tok.kind, tok.text, 0, 0, k)
  }

  lemma {:induction false} LexesCat(s: string, i: nat, j: nat, k: nat, a: seq<Tok>, b: seq<Tok>)
    requires Lexes(s, i, j, a) && Lexes(s, j, k, b)
    ensures Lexes(s, i, k, a + b) && i <= j <= k
    decreases |a|
  {
    hide LexesOne;
    if a == [] {
      assert a + b == b;
      Forward(s, j, k, b);
    } else {
      var m :| i < m <= j && LexesOne(s, i, m, a[0]) && Lexes(s, m, j, a[1..]);
      LexesCat(s, m, j, k, a[1..], b);
      assert (a + b)[0] == a[0] && (a + b)[1..] == a[1..] + b;
    }
  }

  lemma {:induction false} Forward(s: string, i: nat, j: nat, ts: seq<Tok>)
    requires Lexes(s, i, j, ts)
    ensures i <= j <= |s|
  {
  }

  lemma {:induction false} LexesTok(s: string, i: nat, k: nat, tok: Tok)
    requires i < k <= |s| && LexesOne(s, i, k, tok)
    ensures Lexes(s, i, k, [tok])
  {
    hide LexesOne;
    var ts := [tok];
    assert ts[1..] == [] && Lexes(s, k, k, ts[1..]) && ts[0] == tok;
  }

  lemma {:induction false} LexesHead(s: string, i: nat, j: nat, ts: seq<Tok>) returns (k: nat)
    requires Lexes(s, i, j, ts) && ts != []
    ensures i < k <= j <= |s| && LexesOne(s, i, k, ts[0]) && Lexes(s, k, j, ts[1..])
  {
    hide LexesOne;
    k :| i < k <= j && LexesOne(s, i, k, ts[0]) && Lexes(s, k, j, ts[1..]);
  }

  /** Blanks before a token do not matter. */
  lemma {:induction false} LexesBlank(s: string, i: nat, j: nat, ts: seq<Tok>)
    requires i < |s| && s[i] == ' ' && Lexes(s, i + 1, j, ts) && ts != []
    ensures Lexes(s, i, j, ts)
  {
    var k := LexesHead(s, i + 1, j, ts);
    assert SkipBlank(s, i) == SkipBlank(s, i + 1);
    assert LexesOne(s, i, k, ts[0]);
  }

  lemma {:induction false} TokensLexed(s: string, i: nat, j: nat, ts: seq<Tok>, prev: TokenType)
    requires Lexes(s, i, j, ts) && j == |s| && (forall t | t in ts :: t.kind != Eof && t.kind != StringT)
    ensures i <= |s| && Tokens(s, i, prev) == ts
    decreases |ts|
  {
    if ts != [] {
      var k := LexesHead(s, i, j, ts);
      assert forall t | t in ts[1..] :: t in ts;
      TokensLexed(s, k, j, ts[1..], ts[0].kind);
      assert LexemeAt(s, SkipBlank(s, i), prev) == Lexeme(ts[0].kind, ts[0].text, 0, 0, k);
      assert ts == [ts[0]] + ts[1..];
    }
  }

  // ---- single tokens ----

  predicate Sign(kind: TokenType) {
    IsInfix(kind) || kind == Bang || kind == LParen || kind == RParen || kind == LBracket || kind == RBracket
            || kind == Comma
  }

  /** The next character does not make another sign of this one, nor a comment. */
  predicate Apart(kind: TokenType, next: char) {
    (kind == Bang || kind == Lt || kind == Gt ==> next != '=') && (kind == Slash ==> next != '/')
  }

  lemma {:induction false} LexesSign(s: string, i: nat, kind: TokenType)
    requires Sign(kind) && At(s, i, Spelling(kind))
    requires Apart(kind, CharAt(s, i + |Spelling(kind)|))
    ensures Lexes(s, i, i + |Spelling(kind)|, [Fixed(kind)])
  {
    var w := Spelling(kind);
    var k := i + |w|;
    AtChar(s, i, w, 0);
    if |w| == 2 {
      AtChar(s, i, w, 1);
    }
    SignSymbol(kind, s[i], CharAt(s, i + 1));
    SignLexed(s, i, kind, s[i], CharAt(s, i + 1));
    LexesTok(s, i, k, Fixed(kind));
  }

  /** What the switch of the scanner makes of a sign's characters. */
  lemma {:induction false} SignSymbol(kind: TokenType, c: char, d: char)
    requires Sign(kind) && c == Spelling(kind)[0]
    requires if |Spelling(kind)| == 2 then d == Spelling(kind)[1] else Apart(kind, d)
    ensures !IsSpace(c) && (c == '/' ==> d != '/') && SymbolSize(c, d) == |Spelling(kind)|
    ensures forall prev :: Symbol(c, d, prev) == Some((kind, Spelling(kind)))
  {
    hide Symbol;
    forall prev ensures Symbol(c, d, prev) == Some((kind, Spelling(kind))) { SignKind(kind, c, d, prev); }
  }

  lemma {:induction false} SignKind(kind: TokenType, c: char, d: char, prev: TokenType)
    requires Sign(kind) && c == Spelling(kind)[0]
    requires if |Spelling(kind)| == 2 then d == Spelling(kind)[1] else Apart(kind, d)
    ensures Symbol(c, d, prev) == Some((kind, Spelling(kind)))
  {
  }

  lemma {:induction false} SignLexed(s: string, i: nat, kind: TokenType, c: char, d: char)
    requires i < |s| && c == s[i] && d == CharAt(s, i + 1) && !IsSpace(c) && (c == '/' ==> d != '/')
    requires SymbolSize(c, d) == |Spelling(kind)|
    requires forall prev :: Symbol(c, d, prev) == Some((kind, Spelling(kind)))
    ensures LexesOne(s, i, i + |Spelling(kind)|, Fixed(kind))
  {
    hide Symbol, SymbolSize, Spelling;
    assert SkipBlank(s, i) == i;
  }

  lemma {:induction false} WordRuns(s: string, i: nat, j: nat, n: nat)
    requires i <= j <= |s| && j - i <= n && (forall k | i <= k < j :: IsWord(s[k])) && !IsWord(CharAt(s, j))
    ensures WordEnd(s, i, n) == j
    decreases j - i
  {
    if i < j {
      WordRuns(s, i + 1, j, n - 1);
    }
  }

  lemma {:induction false} DigitsRun(s: string, i: nat, j: nat, n: nat)
    requires i <= j <= |s| && j - i <= n && (forall k | i <= k < j :: IsDigit(s[k])) && !IsDigit(CharAt(s, j))
    ensures DigitsEnd(s, i, n) == j
    decreases j - i
  {
    if i < j {
      DigitsRun(s, i + 1, j, n - 1);
    }
  }

  /** A word that ends where no letter or digit follows. */
  lemma {:induction false} LexesWord(s: string, i: nat, w: string)
    requires At(s, i, w) && 0 < |w| < MAX_IDENT_LENGTH && IsLetter(w[0]) && (forall k | 0 <= k < |w| :: IsWord(w[k]))
    requires !IsWord(CharAt(s, i + |w|))
    ensures Lexes(s, i, i + |w|, [Tok(Keyword(w), w)])
  {
    hide Keyword;
    forall k | i <= k < i + |w| ensures IsWord(s[k]) {
      AtChar(s, i, w, k - i);
    }
    AtChar(s, i, w, 0);
    WordRuns(s, i, i + |w|, MAX_IDENT_LENGTH - 1);
    assert SkipBlank(s, i) == i;
    forall prev ensures LexemeAt(s, i, prev) == Lexeme(Keyword(w), w, 0, 0, i + |w|) {
      assert Symbol(s[i], CharAt(s, i + 1), prev) == None;
    }
    LexesTok(s, i, i + |w|, Tok(Keyword(w), w));
  }

  lemma {:induction false} LexesNumber(s: string, i: nat, w: string)
    requires At(s, i, w) && Number(w) && Ends(s, i + |w|)
    ensures Lexes(s, i, i + |w|, [Tok(IntT, w)])
  {
    forall k | i <= k < i + |w| ensures IsDigit(s[k]) {
      AtChar(s, i, w, k - i);
    }
    AtChar(s, i, w, 0);
    DigitsRun(s, i, i + |w|, MAX_IDENT_LENGTH - 1);
    assert SkipBlank(s, i) == i;
    forall prev ensures LexemeAt(s, i, prev) == Lexeme(IntT, w, 0, 0, i + |w|) {
      assert Symbol(s[i], CharAt(s, i + 1), prev) == None;
    }
    LexesTok(s, i, i + |w|, Tok(IntT, w));
  }

  lemma {:induction false} LexesThen(s: string, i: nat, j: nat, ts: seq<Tok>, kind: TokenType)
    requires Lexes(s, i, j, ts) && Sign(kind) && At(s, j, Spelling(kind))
    requires Apart(kind, CharAt(s, j + |Spelling(kind)|))
    ensures Lexes(s, i, j + |Spelling(kind)|, ts + [Fixed(kind)])
  {
    hide Lexes, Sign, At, Apart, Spelling;
    LexesSign(s, j, kind);
    LexesCat(s, i, j, j + |Spelling(kind)|, ts, [Fixed(kind)]);
  }

  // ---- the tree that a printed text stands for ----

  /** The same expression, with a group where the printer sets brackets. */
  function Grouped(t: Tree): Tree
    decreases t, 0
  {
    match t
    case TGroup(x) => Grouped(x)
    case TPrefix(op, x) => TGroup(TPrefix(op, Grouped(x)))
    case TInfix(op, l, r) => TGroup(TInfix(op, Grouped(l), Grouped(r)))
    case TCall(f, args) => TCall(Grouped(f), AllGrouped(args))
    case TArray(es) => TArray(AllGrouped(es))
    case TIndex(l, x) => TGroup(TIndex(Grouped(l), Grouped(x)))
    case _ => t
  }

  function AllGrouped(ts: seq<Tree>): (gs: seq<Tree>)
    ensures |gs| == |ts|
    decreases ts, 0
  {
    if ts == [] then [] else [Grouped(ts[0])] + AllGrouped(ts[1..])
  }

  lemma {:induction false} GroupedIsSame(t: Tree)
    requires Printable(t)
    ensures Erase(Grouped(t)) == Erase(t)
    decreases t, 0
  {
    hide EraseAll, AllGrouped, AllPrintable, OperatorOf, IntValue, Unescape, Word, Number, IsInfix;
    match t
    case TGroup(x) => GroupedIsSame(x);
    case TPrefix(op, x) => GroupedIsSame(x);
    case TInfix(op, l, r) =>
      GroupedIsSame(l);
      GroupedIsSame(r);
    case TCall(f, args) =>
      GroupedIsSame(f);
      AllGroupedAreSame(args);
    case TArray(es) => AllGroupedAreSame(es);
    case TIndex(l, x) =>
      GroupedIsSame(l);
      GroupedIsSame(x);
    case _ =>
  }

  lemma {:induction false} AllGroupedAreSame(ts: seq<Tree>)
    requires AllPrintable(ts)
    ensures EraseAll(AllGrouped(ts)) == EraseAll(ts)
    decreases ts, 0
  {
    if ts != [] {
      GroupedIsSame(ts[0]);
      AllGroupedAreSame(ts[1..]);
      assert AllGrouped(ts)[1..] == AllGrouped(ts[1..]);
    }
  }

  /** Enough brackets for any operator around it. */
  lemma {:induction false} GroupedIsLevelled(t: Tree)
    requires Printable(t)
    ensures var g := Grouped(t);
            Plain(g) && Levelled(g) && Loosest(g) >= CALL && Tightness(g) == INDEX
            && !LeadsMinus(g)
    decreases t, 0
  {
    match t
    case TGroup(x) => GroupedIsLevelled(x);
    case TPrefix(op, x) => GroupedIsLevelled(x);
    case TInfix(op, l, r) =>
      GroupedIsLevelled(l);
      GroupedIsLevelled(r);
    case TCall(f, args) =>
      GroupedIsLevelled(f);
      AllGroupedAreLevelled(args);
    case TArray(es) => AllGroupedAreLevelled(es);
    case TIndex(l, x) =>
      GroupedIsLevelled(l);
      GroupedIsLevelled(x);
    case _ =>
  }

  lemma {:induction false} AllGroupedAreLevelled(ts: seq<Tree>)
    requires AllPrintable(ts)
    ensures AllPlain(AllGrouped(ts)) && AllLevelled(AllGrouped(ts))
    decreases ts, 0
  {
    if ts != [] {
      GroupedIsLevelled(ts[0]);
      AllGroupedAreLevelled(ts[1..]);
      assert AllGrouped(ts)[1..] == AllGrouped(ts[1..]);
    }
  }

  // ---- the text's tokens ----

  lemma {:induction false} TextStarts(t: Tree)
    requires Printable(t)
    ensures Text(t) != "" && var c := Text(t)[0]; c != '=' && c != '/'
    decreases t
  {
    match t
    case TGroup(x) => TextStarts(x);
    case TCall(f, _) => TextStarts(f);
    case _ =>
  }

  /** After a text, anything that is not part of a word. */
  predicate Ends(s: string, i: nat) { !IsWord(CharAt(s, i)) }

  lemma {:induction false} TextLexes(s: string, i: nat, t: Tree)
    requires Printable(t) && At(s, i, Text(t)) && Ends(s, i + |Text(t)|)
    ensures Lexes(s, i, i + |Text(t)|, Yield(Grouped(t)))
    decreases |Text(t)|, 1, t
  {
    hide At, Lexes, Ends, Word, Number, AllPrintable;
    match t
    case TIdent(name) => LexesName(s, i, name);
    case TInt(digits) => LexesNumber(s, i, digits);
    case TBool(b) => LexesTruth(s, i, b);
    case TGroup(x) => TextLexes(s, i, x);
    case TPrefix(op, x) => PrefixLexes(s, i, op, x);
    case TInfix(op, l, r) => InfixLexes(s, i, op, l, r);
    case TCall(f, args) => CallLexes(s, i, f, args);
    case TArray(es) => ArrayLexes(s, i, es);
    case TIndex(l, x) => IndexLexes(s, i, l, x);
  }

  lemma {:induction false} LexesName(s: string, i: nat, w: string)
    requires At(s, i, w) && Word(w) && Ends(s, i + |w|)
    ensures Lexes(s, i, i + |w|, [Tok(IdentT, w)])
  {
    hide At, Lexes, Keyword;
    LexesWord(s, i, w);
  }

  lemma {:induction false} LexesTruth(s: string, i: nat, b: bool)
    requires var w := Spelling(if b then TrueT else FalseT); At(s, i, w) && Ends(s, i + |w|)
    ensures var k := if b then TrueT else FalseT; Lexes(s, i, i + |Spelling(k)|, [Fixed(k)])
  {
    hide At, Lexes;
    if b {
      LexesWord(s, i, "true");
    } else {
      LexesWord(s, i, "false");
    }
  }

  /** The character after a piece. */
  lemma {:induction false} NextAfter(s: string, i: nat, w: string)
    requires At(s, i, w) && w != ""
    ensures CharAt(s, i) == w[0]
  {
    AtChar(s, i, w, 0);
  }

  lemma {:induction false} PrefixPieces(s: string, i: nat, op: TokenType, w: string)
    requires (op == Bang || op == Minus) && At(s, i, "(" + Spelling(op) + w + ")") && w != ""
    ensures |Spelling(op)| == 1
    ensures At(s, i, "(") && At(s, i + 1, Spelling(op)) && At(s, i + 2, w) && At(s, i + 2 + |w|, ")")
    ensures Apart(LParen, CharAt(s, i + 1)) && CharAt(s, i + 2) == w[0] && CharAt(s, i + 2 + |w|) == ')'
  {
    hide At;
    var sign := Spelling(op);
    AtCat(s, i, "(" + sign + w, ")");
    AtCat(s, i, "(" + sign, w);
    AtCat(s, i, "(", sign);
    NextAfter(s, i + 1, sign);
    NextAfter(s, i + 2, w);
    NextAfter(s, i + 2 + |w|, ")");
  }

  lemma {:induction false} PrefixLexes(s: string, i: nat, op: TokenType, x: Tree)
    requires Printable(x) && (op == Bang || op == Minus) && At(s, i, "(" + Spelling(op) + Text(x) + ")")
    ensures Lexes(s, i, i + |Text(x)| + 3, [Fixed(LParen)] + ([Fixed(op)] + Yield(Grouped(x))) + [Fixed(RParen)])
    decreases |Text(x)| + 3, 0
  {
    hide At, Lexes, Text, Yield, Grouped, Printable, Spelling, Fixed;
    var w, sign, ts := Text(x), Spelling(op), Yield(Grouped(x));
    BracketSpelled();
    TextStarts(x);
    PrefixPieces(s, i, op, w);
    TextLexes(s, i + 2, x);
    LexesSign(s, i, LParen);
    LexesThen(s, i, i + 1, [Fixed(LParen)], op);
    LexesCat(s, i, i + 2, i + 2 + |w|, [Fixed(LParen)] + [Fixed(op)], ts);
    LexesThen(s, i, i + 2 + |w|, [Fixed(LParen)] + [Fixed(op)] + ts, RParen);
    Regroup([Fixed(LParen)], [Fixed(op)], ts);
  }

  lemma {:induction false} InfixLexes(s: string, i: nat, op: TokenType, l: Tree, r: Tree)
    requires Printable(l) && Printable(r) && IsInfix(op)
    requires At(s, i, "(" + Text(l) + " " + Spelling(op) + " " + Text(r) + ")")
    ensures Lexes(s, i, i + |Text(l)| + |Spelling(op)| + |Text(r)| + 4,
                  [Fixed(LParen)] + (Yield(Grouped(l)) + [Fixed(op)] + Yield(Grouped(r))) + [Fixed(RParen)])
    decreases |Text(l)| + |Spelling(op)| + |Text(r)| + 4, 0
  {
    hide At, Lexes, Text, Yield, Grouped, Printable, Spelling;
    var a, b, sign := Text(l), Text(r), Spelling(op);
    var j := i + 1 + |a|;
    var k := j + 1 + |sign|;
    InfixPieces(s, i, a, sign, b);
    TextLexes(s, i + 1, l);
    TextLexes(s, k + 1, r);
    BracketSpelled();
    LexesSign(s, i, LParen);
    LexesCat(s, i, i + 1, j, [Fixed(LParen)], Yield(Grouped(l)));
    LexesSign(s, j + 1, op);
    Inner(s, j);
    LexesBlank(s, j, k, [Fixed(op)]);
    LexesCat(s, i, j, k, [Fixed(LParen)] + Yield(Grouped(l)), [Fixed(op)]);
    GroupedYields(r);
    Inner(s, k);
    LexesBlank(s, k, k + 1 + |b|, Yield(Grouped(r)));
    LexesCat(s, i, k, k + 1 + |b|, [Fixed(LParen)] + Yield(Grouped(l)) + [Fixed(op)], Yield(Grouped(r)));
    LexesThen(s, i, k + 1 + |b|, [Fixed(LParen)] + Yield(Grouped(l)) + [Fixed(op)] + Yield(Grouped(r)), RParen);
    Regroup([Fixed(LParen)], Yield(Grouped(l)), [Fixed(op)]);
    Regroup([Fixed(LParen)], Yield(Grouped(l)) + [Fixed(op)], Yield(Grouped(r)));
  }

  lemma {:induction false} InfixPieces(s: string, i: nat, a: string, sign: string, b: string)
    requires At(s, i, "(" + a + " " + sign + " " + b + ")")
    ensures var j := i + 1 + |a|;
            var k := j + 1 + |sign|;
            && At(s, i, "(") && At(s, i + 1, a) && At(s, j + 1, sign) && At(s, k + 1, b) && At(s, k + 1 + |b|, ")")
            && CharAt(s, j) == ' ' && CharAt(s, k) == ' ' && CharAt(s, k + 1 + |b|) == ')'
  {
    hide At;
    var j := i + 1 + |a|;
    var k := j + 1 + |sign|;
    AtCat(s, i, "(" + a + " " + sign + " " + b, ")");
    AtCat(s, i, "(" + a + " " + sign + " ", b);
    AtCat(s, i, "(" + a + " " + sign, " ");
    AtCat(s, i, "(" + a + " ", sign);
    AtCat(s, i, "(" + a, " ");
    AtCat(s, i, "(", a);
    NextAfter(s, j, " ");
    NextAfter(s, k, " ");
    NextAfter(s, k + 1 + |b|, ")");
  }

  lemma {:induction false} BracketSpelled()
    ensures Spelling(LParen) == "(" && Spelling(RParen) == ")" && Spelling(LBracket) == "[" && Spelling(RBracket) == "]"
    ensures Spelling(Comma) == ","
  {
  }

  /** A character before the end. */
  lemma {:induction false} Inner(s: string, i: nat)
    requires CharAt(s, i) == ' '
    ensures i < |s| && s[i] == ' '
  {
  }

  lemma {:induction false} GroupedYields(t: Tree)
    requires Printable(t)
    ensures Yield(Grouped(t)) != []
  {
    GroupedIsLevelled(t);
    FirstToken(Grouped(t));
  }

  lemma {:induction false} CallLexes(s: string, i: nat, f: Tree, args: seq<Tree>)
    requires Printable(f) && AllPrintable(args) && At(s, i, Text(f) + "(" + TextAll(args) + ")")
    ensures Lexes(s, i, i + |Text(f)| + |TextAll(args)| + 2,
                  Yield(Grouped(f)) + [Fixed(LParen)] + YieldAll(AllGrouped(args)) + [Fixed(RParen)])
    decreases |Text(f)| + |TextAll(args)| + 2, 0
  {
    hide At, Lexes, Text, TextAll, Yield, YieldAll, Grouped, AllGrouped, Printable, AllPrintable, Spelling;
    var a, b := Text(f), TextAll(args);
    AtCat(s, i, a + "(" + b, ")");
    AtCat(s, i, a + "(", b);
    AtCat(s, i, a, "(");
    NextAfter(s, i + |a|, "(");
    NextAfter(s, i + |a| + 1 + |b|, ")");
    TextLexes(s, i, f);
    AllLexes(s, i + |a| + 1, args);
    BracketSpelled();
    LexesThen(s, i, i + |a|, Yield(Grouped(f)), LParen);
    LexesCat(s, i, i + |a| + 1, i + |a| + 1 + |b|, Yield(Grouped(f)) + [Fixed(LParen)], YieldAll(AllGrouped(args)));
    LexesThen(s, i, i + |a| + 1 + |b|, Yield(Grouped(f)) + [Fixed(LParen)] + YieldAll(AllGrouped(args)), RParen);
  }

  lemma {:induction false} ArrayLexes(s: string, i: nat, es: seq<Tree>)
    requires AllPrintable(es) && At(s, i, "[" + TextAll(es) + "]")
    ensures Lexes(s, i, i + |TextAll(es)| + 2, [Fixed(LBracket)] + YieldAll(AllGrouped(es)) + [Fixed(RBracket)])
    decreases |TextAll(es)| + 2, 0
  {
    hide At, Lexes, TextAll, YieldAll, AllGrouped, AllPrintable, Spelling;
    var b := TextAll(es);
    AtCat(s, i, "[" + b, "]");
    AtCat(s, i, "[", b);
    NextAfter(s, i + 1 + |b|, "]");
    AllLexes(s, i + 1, es);
    BracketSpelled();
    LexesSign(s, i, LBracket);
    LexesCat(s, i, i + 1, i + 1 + |b|, [Fixed(LBracket)], YieldAll(AllGrouped(es)));
    LexesThen(s, i, i + 1 + |b|, [Fixed(LBracket)] + YieldAll(AllGrouped(es)), RBracket);
  }

  lemma {:induction false} IndexLexes(s: string, i: nat, l: Tree, x: Tree)
    requires Printable(l) && Printable(x) && At(s, i, "(" + Text(l) + "[" + Text(x) + "])")
    ensures Lexes(s, i, i + |Text(l)| + |Text(x)| + 4,
                  [Fixed(LParen)] + (Yield(Grouped(l)) + [Fixed(LBracket)] + Yield(Grouped(x)) + [Fixed(RBracket)])
                    + [Fixed(RParen)])
    decreases |Text(l)| + |Text(x)| + 4, 0
  {
    hide At, Lexes, Text, Yield, Grouped, Printable, Spelling;
    var a, b := Text(l), Text(x);
    var j := i + 1 + |a|;
    var k := j + 1 + |b|;
    IndexPieces(s, i, a, b);
    TextLexes(s, i + 1, l);
    TextLexes(s, j + 1, x);
    BracketSpelled();
    LexesSign(s, i, LParen);
    LexesCat(s, i, i + 1, j, [Fixed(LParen)], Yield(Grouped(l)));
    LexesThen(s, i, j, [Fixed(LParen)] + Yield(Grouped(l)), LBracket);
    LexesCat(s, i, j + 1, k, [Fixed(LParen)] + Yield(Grouped(l)) + [Fixed(LBracket)], Yield(Grouped(x)));
    LexesThen(s, i, k, [Fixed(LParen)] + Yield(Grouped(l)) + [Fixed(LBracket)] + Yield(Grouped(x)), RBracket);
    LexesThen(s, i, k + 1, [Fixed(LParen)] + Yield(Grouped(l)) + [Fixed(LBracket)] + Yield(Grouped(x))
              + [Fixed(RBracket)], RParen);
    Regroup([Fixed(LParen)], Yield(Grouped(l)), [Fixed(LBracket)]);
    Regroup([Fixed(LParen)], Yield(Grouped(l)) + [Fixed(LBracket)], Yield(Grouped(x)));
    Regroup([Fixed(LParen)], Yield(Grouped(l)) + [Fixed(LBracket)] + Yield(Grouped(x)), [Fixed(RBracket)]);
  }

  lemma {:induction false} IndexPieces(s: string, i: nat, a: string, b: string)
    requires At(s, i, "(" + a + "[" + b + "])")
    ensures var j := i + 1 + |a|; var k := j + 1 + |b|;
            At(s, i, "(") && At(s, i + 1, a) && At(s, j, "[") && At(s, j + 1, b) && At(s, k, "]") && At(s, k + 1, ")")
            && CharAt(s, j) == '[' && CharAt(s, k) == ']'
  {
    hide At;
    var j := i + 1 + |a|;
    var k := j + 1 + |b|;
    assert "])" == "]" + ")";
    AtCat(s, i, "(" + a + "[" + b, "]" + ")");
    AtCat(s, k, "]", ")");
    AtCat(s, i, "(" + a + "[", b);
    AtCat(s, i, "(" + a, "[");
    AtCat(s, i, "(", a);
    NextAfter(s, j, "[");
    NextAfter(s, k, "]");
  }

  lemma {:induction false} AllLexes(s: string, i: nat, es: seq<Tree>)
    requires AllPrintable(es) && At(s, i, TextAll(es)) && Ends(s, i + |TextAll(es)|)
    ensures Lexes(s, i, i + |TextAll(es)|, YieldAll(AllGrouped(es)))
    decreases |TextAll(es)|, 2
  {
    hide At, Lexes, Text, Yield, Grouped, Printable, Spelling;
    if es == [] {
      Nothing(s, i, TextAll(es));
    } else if |es| == 1 {
      TextLexes(s, i, es[0]);
      assert AllGrouped(es) == [Grouped(es[0])];
    } else {
      MoreLexes(s, i, es[0], es[1..]);
      assert AllGrouped(es)[1..] == AllGrouped(es[1..]);
    }
  }

  lemma {:induction false} Nothing(s: string, i: nat, w: string)
    requires At(s, i, w) && w == ""
    ensures Lexes(s, i, i, [])
  {
  }

  lemma {:induction false} MoreLexes(s: string, i: nat, e: Tree, es: seq<Tree>)
    requires Printable(e) && AllPrintable(es) && es != []
    requires At(s, i, Text(e) + ", " + TextAll(es)) && Ends(s, i + |Text(e)| + 2 + |TextAll(es)|)
    ensures Lexes(s, i, i + |Text(e)| + 2 + |TextAll(es)|, Yield(Grouped(e)) + [Fixed(Comma)]
            + YieldAll(AllGrouped(es)))
    decreases |Text(e)| + |TextAll(es)| + 2, 0
  {
    hide At, Lexes, Text, TextAll, Yield, YieldAll, Grouped, AllGrouped, Printable, AllPrintable, Spelling;
    var a, b := Text(e), TextAll(es);
    var j := i + |a|;
    CommaPieces(s, i, a, b);
    TextLexes(s, i, e);
    AllLexes(s, j + 2, es);
    BracketSpelled();
    LexesThen(s, i, j, Yield(Grouped(e)), Comma);
    Inner(s, j + 1);
    AllYields(es);
    LexesBlank(s, j + 1, j + 2 + |b|, YieldAll(AllGrouped(es)));
    LexesCat(s, i, j + 1, j + 2 + |b|, Yield(Grouped(e)) + [Fixed(Comma)], YieldAll(AllGrouped(es)));
  }

  lemma {:induction false} CommaPieces(s: string, i: nat, a: string, b: string)
    requires At(s, i, a + ", " + b)
    ensures var j := i + |a|;
            At(s, i, a) && At(s, j, ",") && At(s, j + 2, b)
            && CharAt(s, j) == ',' && CharAt(s, j + 1) == ' '
  {
    hide At;
    var j := i + |a|;
    assert ", " == "," + " ";
    AtCat(s, i, a + ("," + " "), b);
    AtCat(s, i, a, "," + " ");
    AtCat(s, j, ",", " ");
    NextAfter(s, j, ",");
    NextAfter(s, j + 1, " ");
  }

  lemma {:induction false} AllYields(es: seq<Tree>)
    requires AllPrintable(es) && es != []
    ensures YieldAll(AllGrouped(es)) != []
  {
    AllGroupedAreLevelled(es);
    FirstOfAll(AllGrouped(es));
  }

  // ---- the round trip ----

  /** Tokens that end neither the input nor a statement, and hold no string. */
  predicate Ordinary(kind: TokenType) { kind != Eof && kind != StringT && kind != Semicolon && kind != LetT
                     && kind != ReturnT && kind != BreakT && kind != ContinueT }

  predicate AllOrdinary(ts: seq<Tok>) { forall t | t in ts :: Ordinary(t.kind) }

  lemma {:induction false} OrdinaryCat(a: seq<Tok>, b: seq<Tok>)
    requires AllOrdinary(a) && AllOrdinary(b)
    ensures AllOrdinary(a + b)
  {
  }

  lemma {:induction false} OrdinaryOne(kind: TokenType)
    requires Sign(kind)
    ensures AllOrdinary([Fixed(kind)])
  {
  }

  lemma {:induction false} OrdinaryBetween(open: TokenType, ts: seq<Tok>, close: TokenType)
    requires AllOrdinary(ts) && Sign(open) && Sign(close)
    ensures AllOrdinary([Fixed(open)] + ts + [Fixed(close)])
  {
    hide AllOrdinary, Sign;
    OrdinaryOne(open);
    OrdinaryOne(close);
    OrdinaryCat([Fixed(open)], ts);
    OrdinaryCat([Fixed(open)] + ts, [Fixed(close)]);
  }

  lemma {:induction false} YieldOrdinary(t: Tree)
    requires Printable(t)
    ensures AllOrdinary(Yield(Grouped(t)))
    decreases t, 0
  {
    hide AllOrdinary, YieldAll, AllGrouped, AllPrintable, IsInfix;
    match t
    case TGroup(x) => YieldOrdinary(x);
    case TPrefix(op, x) =>
      YieldOrdinary(x);
      OrdinaryPrefix(op, Yield(Grouped(x)));
    case TInfix(op, l, r) =>
      YieldOrdinary(l);
      YieldOrdinary(r);
      OrdinaryInfix(op, Yield(Grouped(l)), Yield(Grouped(r)));
    case TCall(f, args) =>
      YieldOrdinary(f);
      YieldAllOrdinary(args);
      OrdinaryCall(Yield(Grouped(f)), LParen, YieldAll(AllGrouped(args)), RParen);
    case TArray(es) =>
      YieldAllOrdinary(es);
      OrdinaryBetween(LBracket, YieldAll(AllGrouped(es)), RBracket);
    case TIndex(l, x) =>
      YieldOrdinary(l);
      YieldOrdinary(x);
      OrdinaryCall(Yield(Grouped(l)), LBracket, Yield(Grouped(x)), RBracket);
      OrdinaryBetween(LParen, Yield(Grouped(l)) + [Fixed(LBracket)] + Yield(Grouped(x)) + [Fixed(RBracket)], RParen);
    case _ => OrdinaryToken(t);
  }

  lemma {:induction false} OrdinaryToken(t: Tree)
    requires t.TIdent? || t.TInt? || t.TBool?
    ensures AllOrdinary(Yield(Grouped(t)))
  {
  }

  lemma {:induction false} OrdinaryPrefix(op: TokenType, ts: seq<Tok>)
    requires AllOrdinary(ts) && (op == Bang || op == Minus)
    ensures AllOrdinary([Fixed(LParen)] + ([Fixed(op)] + ts) + [Fixed(RParen)])
  {
    hide AllOrdinary;
    OrdinaryOne(op);
    OrdinaryCat([Fixed(op)], ts);
    OrdinaryBetween(LParen, [Fixed(op)] + ts, RParen);
  }

  lemma {:induction false} OrdinaryInfix(op: TokenType, a: seq<Tok>, b: seq<Tok>)
    requires AllOrdinary(a) && AllOrdinary(b) && IsInfix(op)
    ensures AllOrdinary([Fixed(LParen)] + (a + [Fixed(op)] + b) + [Fixed(RParen)])
  {
    hide AllOrdinary;
    OrdinaryOne(op);
    OrdinaryCat(a, [Fixed(op)]);
    OrdinaryCat(a + [Fixed(op)], b);
    OrdinaryBetween(LParen, a + [Fixed(op)] + b, RParen);
  }

  lemma {:induction false} OrdinaryCall(a: seq<Tok>, open: TokenType, b: seq<Tok>, close: TokenType)
    requires AllOrdinary(a) && AllOrdinary(b) && Sign(open) && Sign(close)
    ensures AllOrdinary(a + [Fixed(open)] + b + [Fixed(close)])
  {
    hide AllOrdinary, Sign;
    OrdinaryOne(open);
    OrdinaryOne(close);
    OrdinaryCat(a, [Fixed(open)]);
    OrdinaryCat(a + [Fixed(open)], b);
    OrdinaryCat(a + [Fixed(open)] + b, [Fixed(close)]);
  }

  lemma {:induction false} YieldAllOrdinary(ts: seq<Tree>)
    requires AllPrintable(ts)
    ensures AllOrdinary(YieldAll(AllGrouped(ts)))
    decreases ts, 0
  {
    hide AllOrdinary, Yield, Grouped, Printable;
    if ts == [] {
      OrdinaryNone();
    } else {
      YieldOrdinary(ts[0]);
      YieldAllOrdinary(ts[1..]);
      assert AllGrouped(ts)[1..] == AllGrouped(ts[1..]);
      OrdinaryOne(Comma);
      OrdinaryCat(Yield(Grouped(ts[0])), [Fixed(Comma)]);
      OrdinaryCat(Yield(Grouped(ts[0])) + [Fixed(Comma)], YieldAll(AllGrouped(ts[1..])));
    }
  }

  lemma {:induction false} OrdinaryNone()
    ensures AllOrdinary([])
  {
  }

  /**
   Print, scan, parse: whatever type the scanner's token held before, the tokens
   of the printed text are those of the bracketed tree, the parser reads them all,
   and the program it returns is the one expression that was printed.
   */
  lemma {:induction false} PrintedTextReparses(t: Tree, first: TokenType)
    requires Printable(t)
    ensures var ts := Tokens(Text(t), 0, first);
            && ts == Yield(Grouped(t)) && ts != []
            && ParseExpression(ts, 0, LOWEST) == Done(Grouped(t), |ts| - 1)
            && Erase(Grouped(t)) == Erase(t)
            && ProgramLoop(ts, [], 0, true) == Done([Ast.ExprStmt(Erase(t))], |ts|)
  {
    hide ParseExpression, Plain, Levelled, Loosest, Lexes, Printable, Text, Yield, Grouped, Erase, Tokens, Ordinary,
         AllOrdinary;
    var s, g := Text(t), Grouped(t);
    var ts := Yield(g);
    Whole(s);
    TextLexes(s, 0, t);
    YieldOrdinary(t);
    OrdinaryTokens(ts);
    TokensLexed(s, 0, |s|, ts, first);
    GroupedIsSame(t);
    GroupedIsLevelled(t);
    GroupedYields(t);
    assert Reads(ts, 0, |ts| - 1, ts) by { assert ts[0..|ts|] == ts; }
    Closed(ts, 0, g, |ts| - 1, LOWEST);
    OneStatement(ts, g);
  }

  lemma {:induction false} OrdinaryTokens(ts: seq<Tok>)
    requires AllOrdinary(ts)
    ensures forall t | t in ts :: t.kind != Eof && t.kind != StringT
    ensures ts != [] ==> Ordinary(ts[0].kind)
  {
  }

  lemma {:induction false} Whole(s: string)
    ensures At(s, 0, s) && Ends(s, |s|)
  {
  }

  /** A program that is one expression. */
  lemma {:induction false} OneStatement(ts: seq<Tok>, t: Tree)
    requires ts != [] && Ordinary(ts[0].kind) && ParseExpression(ts, 0, LOWEST) == Done(t, |ts| - 1)
    ensures ProgramLoop(ts, [], 0, true) == Done([Ast.ExprStmt(Erase(t))], |ts|)
  {
    hide ParseExpression, Erase;
    assert Statement(ts, 0) == Done(Ast.ExprStmt(Erase(t)), |ts| - 1);
    var done := [] + [Ast.ExprStmt(Erase(t))];
    assert done == [Ast.ExprStmt(Erase(t))];
    assert ProgramLoop(ts, [], 0, true) == ProgramLoop(ts, done, |ts|, true);
  }

  /** The printer, the scanner and the parser, one after the other. */
  method Reread(t: Tree, first: TokenType) returns (b: Option<seq<Ast.Stmt>>)
    requires Printable(t)
    ensures b == Some([Ast.ExprStmt(Erase(t))])
  {
    hide ProgramLoop, ParseExpression, Yield, Grouped, Erase, Tokens, Text, Printable;
    var printer := new Printer();
    printer.ExpressionToStr(t);
    assert "" + Text(t) == Text(t);
    var ts := Scanned(printer.str, first);
    var parser := new Parser(ts);
    PrintedTextReparses(t, first);
    b := parser.ParseProgram();
  }
}
