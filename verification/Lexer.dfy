/** The scanner (src/lexer.c, src/lexer.h). */
module Lexing {
  import opened Wrappers

  datatype TokenType =
    | Illegal | Eof | IdentT | IntT | FunctionT | LetT | TrueT | FalseT | IfT | ElseT | ForT | InT | WhileT | ReturnT
    | AssignT | Plus | Minus | Bang | Asterisk | Slash | Percent | Lt | Lte | Gt | Gte | EqT | NotEqT
    | Comma | Semicolon | LParen | RParen | LBrace | RBrace | StringT | LBracket | RBracket | AndT | OrT
    | BreakT | ContinueT | Colon

  /** A string's characters are those of the input from `start` to `end`, its closing quote. */
  datatype Token = Token(kind: TokenType, literal: string, start: nat, end: nat, line: nat, pos: nat)

  const MAX_IDENT_LENGTH: nat := 64

  /** The input is a text without zero characters, and zero after its end. */
  function CharAt(s: string, i: nat): char { if i < |s| then s[i] else '\0' }

  predicate IsSpace(c: char) { c == ' ' || ('\t' <= c <= '\r') }

  predicate IsLetter(c: char) { 'a' <= c <= 'z' || 'A' <= c <= 'Z' || c == '_' }

  predicate IsDigit(c: char) { '0' <= c <= '9' }

  predicate IsWord(c: char) { IsLetter(c) || IsDigit(c) }

  function Keyword(word: string): TokenType {
    if word == "let" then LetT else if word == "fn" then FunctionT
    else if word == "true" then TrueT else if word == "false" then FalseT
    else if word == "if" then IfT else if word == "else" then ElseT
    else if word == "return" then ReturnT else if word == "while" then WhileT
    else if word == "for" then ForT else if word == "in" then InT
    else if word == "break" then BreakT else if word == "continue" then ContinueT
    else IdentT
  }

  /** The end of the line that i is in. */
  function LineEnd(s: string, i: nat): (j: nat)
    requires i <= |s|
    ensures i <= j <= |s| && (j < |s| ==> s[j] == '\n') && forall k | i <= k < j :: s[k] != '\n'
    decreases |s| - i
  {
    if i == |s| || s[i] == '\n' then i else LineEnd(s, i + 1)
  }

  /** Past white space and comments. */
  function SkipBlank(s: string, i: nat): (j: nat)
    requires i <= |s|
    ensures i <= j <= |s|
    decreases |s| - i
  {
    if i == |s| then i
    else if IsSpace(s[i]) then SkipBlank(s, i + 1)
    else if s[i] == '/' && CharAt(s, i + 1) == '/' then SkipBlank(s, LineEnd(s, i + 1))
    else i
  }

  /** The end of a run of at most n characters of a word, or of digits. */
  function WordEnd(s: string, i: nat, n: nat): (j: nat)
    requires i <= |s|
    ensures i <= j <= |s| && j <= i + n
    decreases n
  {
    if n > 0 && i < |s| && IsWord(s[i]) then WordEnd(s, i + 1, n - 1) else i
  }

  function DigitsEnd(s: string, i: nat, n: nat): (j: nat)
    requires i <= |s|
    ensures i <= j <= |s| && j <= i + n
    decreases n
  {
    if n > 0 && i < |s| && IsDigit(s[i]) then DigitsEnd(s, i + 1, n - 1) else i
  }

  /** The closing quote of a string whose characters start at k: the first quote not behind a backslash. */
  function QuoteEnd(s: string, k: nat): (j: nat)
    requires 1 <= k <= |s|
    ensures k <= j <= |s|
    ensures j < |s| ==> s[j] == '"' && s[j - 1] != '\\'
    ensures forall i | k <= i < j :: s[i] != '"' || s[i - 1] == '\\'
    decreases |s| - k
  {
    if k == |s| || (s[k] == '"' && s[k - 1] != '\\') then k else QuoteEnd(s, k + 1)
  }

  /** Type, literal and length of a token of one or two characters. */
  function Symbol(c: char, d: char, prev: TokenType): Option<(TokenType, string)> {
    if c == '=' then Some(if d == '=' then (EqT, "==") else (AssignT, "="))
    else if c == ';' then Some((Semicolon, ";")) else if c == ':' then Some((Colon, ":"))
    else if c == '(' then Some((LParen, "(")) else if c == ')' then Some((RParen, ")"))
    else if c == ',' then Some((Comma, ",")) else if c == '+' then Some((Plus, "+"))
      else if c == '-' then Some((Minus, "-"))
    else if c == '!' then Some(if d == '=' then (NotEqT, "!=") else (Bang, "!"))
    else if c == '/' then Some((Slash, "/")) else if c == '*' then Some((Asterisk, "*"))
    else if c == '<' then Some(if d == '=' then (Lte, "<=") else (Lt, "<"))
    else if c == '>' then Some(if d == '=' then (Gte, ">=") else (Gt, ">"))
    else if c == '{' then Some((LBrace, "{")) else if c == '}' then Some((RBrace, "}"))
    else if c == '[' then Some((LBracket, "[")) else if c == ']' then Some((RBracket, "]"))
    else if c == '%' then Some((Percent, "%"))
    else if c == '|' then Some(if d == '|' then (OrT, "||") else (prev, ""))
    else if c == '&' then Some(if d == '&' then (AndT, "&&") else (prev, ""))
    else None
  }

  /** The characters that a symbol takes up. */
  function SymbolSize(c: char, d: char): (n: nat)
    ensures 1 <= n <= 2
  {
    if ((c == '=' || c == '!' || c == '<' || c == '>') && d == '=') || (c == '|' && d == '|')
      || (c == '&' && d == '&') then 2 else 1
  }

  /** A token without its line and column, and where the next one may start. */
  datatype Lexeme = Lexeme(kind: TokenType, literal: string, start: nat, end: nat, next: nat)

  /** The token at i, which is not blank. A lone `|` or `&` leaves the type of the token before. */
  function LexemeAt(s: string, i: nat, prev: TokenType): (t: Lexeme)
    requires i <= |s|
    ensures i <= t.next && (i < |s| ==> i < t.next) && t.next <= |s| + 1
  {
    if i == |s| then Lexeme(Eof, "", 0, 0, i + 1) else
    match Symbol(s[i], CharAt(s, i + 1), prev)
    case Some((kind, literal)) =>
      var n := SymbolSize(s[i], CharAt(s, i + 1));
      Lexeme(kind, literal, 0, 0, i + n)
    case None =>
      if s[i] == '"' then
        var j := QuoteEnd(s, i + 1);
        Lexeme(StringT, "", i + 1, j, j + 1)
      else if IsLetter(s[i]) then
        var j := WordEnd(s, i, MAX_IDENT_LENGTH - 1);
        assert WordEnd(s, i, MAX_IDENT_LENGTH - 1) == WordEnd(s, i + 1, MAX_IDENT_LENGTH - 2);
        Lexeme(Keyword(s[i..j]), s[i..j], 0, 0, j)
      else if IsDigit(s[i]) then
        var j := DigitsEnd(s, i, MAX_IDENT_LENGTH - 1);
        assert DigitsEnd(s, i, MAX_IDENT_LENGTH - 1) == DigitsEnd(s, i + 1, MAX_IDENT_LENGTH - 2);
        Lexeme(IntT, s[i..j], 0, 0, j)
      else Lexeme(Illegal, [s[i]], 0, 0, i + 1)
  }

  // ---- lines and columns ----

  /** Where the line of byte i starts. */
  function LineStart(s: string, i: nat): (j: nat)
    requires i <= |s|
    ensures j <= i
  {
    if i == 0 then 0 else if s[i - 1] == '\n' then i else LineStart(s, i - 1)
  }

  function NewLines(s: string, i: nat): nat
    requires i <= |s|
  {
    if i == 0 then 0 else NewLines(s, i - 1) + (if s[i - 1] == '\n' then 1 else 0)
  }

  class Lexer {
    const input: string
    var pos: nat
    var lineNo: nat
    var linePos: nat

    constructor (text: string)
      ensures input == text && pos == 0 && Placed()
    {
      input, pos, lineNo, linePos := text, 0, 1, 0;
    }

    /** Line and column count what was read so far. */
    predicate Placed()
      reads this
    {
      pos <= |input| && lineNo == 1 + NewLines(input, pos) && linePos == pos - LineStart(input, pos)
    }

    /** The next character, counted. */
    method Read() returns (c: char)
      requires pos <= |input|
      modifies `pos, `linePos
      ensures pos == old(pos) + 1 && linePos == old(linePos) + 1 && c == CharAt(input, old(pos))
    {
      c := CharAt(input, pos);
      pos := pos + 1;
      linePos := linePos + 1;
    }

    /** White space and comments; the token starts at `pos`. */
    method Skip()
      requires pos <= |input|
      modifies this
      ensures pos == SkipBlank(input, old(pos)) <= |input|
      ensures old(Placed()) ==> Placed()
    {
      while pos < |input| && (IsSpace(input[pos]) || (input[pos] == '/' && CharAt(input, pos + 1) == '/'))
        invariant pos <= |input| && SkipBlank(input, pos) == SkipBlank(input, old(pos))
        invariant old(Placed()) ==> Placed()
        decreases |input| - pos
      {
        if IsSpace(input[pos]) {
          var c := Read();
          if c == '\n' {
            lineNo := lineNo + 1;
            linePos := 0;
          }
        } else {
          ghost var from := pos;
          var _ := Read();
          while pos < |input| && input[pos] != '\n'
            invariant from < pos <= |input| && LineEnd(input, pos) == LineEnd(input, from + 1)
            invariant old(Placed()) ==> Placed()
          {
            var _ := Read();
          }
        }
      }
    }

    /** gettoken: `prev` is the type left in the token that is overwritten. */
    method GetToken(prev: TokenType) returns (t: Token)
      requires pos <= |input|
      modifies this
      ensures var i := SkipBlank(input, old(pos));
              && var l := LexemeAt(input, i, prev);
              && t.kind == l.kind && t.literal == l.literal && t.start == l.start && t.end == l.end && pos == l.next
              && (old(Placed()) ==> t.line == 1 + NewLines(input, i) && t.pos == 1 + i - LineStart(input, i))
              && (old(Placed()) && pos <= |input| && (forall k | i <= k < pos :: input[k] != '\n') ==> Placed())
    {
      hide Symbol, LexemeAt, SkipBlank;
      Skip();
      ghost var i := pos;
      t := Scan(prev);
      SameLine(input, i, pos);
    }

    /** The token that starts at `pos`. */
    method Scan(prev: TokenType) returns (t: Token)
      requires pos <= |input|
      modifies `pos, `linePos
      ensures var l := LexemeAt(input, old(pos), prev);
              t.kind == l.kind && t.literal == l.literal && t.start == l.start && t.end == l.end && pos == l.next
      ensures t.line == lineNo && t.pos == old(linePos) + 1 && linePos - old(linePos) == pos - old(pos)
    {
      hide Symbol, WordEnd, DigitsEnd, QuoteEnd;
      var i, line, column := pos, lineNo, linePos + 1;
      if pos == |input| {
        var _ := Read();
        return Token(Eof, "", 0, 0, line, column);
      }
      var c := Read();
      var d := CharAt(input, pos);
      var symbol := Symbol(c, d, prev);
      if symbol.Some? {
        if SymbolSize(c, d) == 2 {
          var _ := Read();
        }
        t := Token(symbol.value.0, symbol.value.1, 0, 0, line, column);
      } else if c == '"' {
        var end := ReadString();
        t := Token(StringT, "", i + 1, end, line, column);
      } else if IsLetter(c) {
        var word := ReadWord(i, true);
        t := Token(Keyword(word), word, 0, 0, line, column);
      } else if IsDigit(c) {
        var digits := ReadWord(i, false);
        t := Token(IntT, digits, 0, 0, line, column);
      } else {
        t := Token(Illegal, [c], 0, 0, line, column);
      }
    }

    method ReadString() returns (end: nat)
      requires 1 <= pos <= |input|
      modifies `pos, `linePos
      ensures end == QuoteEnd(input, old(pos)) && pos == end + 1 && linePos - old(linePos) == pos - old(pos)
    {
      var c := Read();
      while pos <= |input| && !(c == '"' && input[pos - 2] != '\\')
        invariant old(pos) < pos <= |input| + 1 && c == CharAt(input, pos - 1)
        invariant QuoteEnd(input, pos - 1) == QuoteEnd(input, old(pos))
        invariant linePos - old(linePos) == pos - old(pos)
        decreases |input| + 1 - pos
      {
        c := Read();
      }
      end := pos - 1;
    }

    /** Letters and digits, or digits; one character too many is read and returned to the input. */
    method ReadWord(from: nat, letters: bool) returns (word: string)
      requires from + 1 == pos <= |input| && (if letters then IsLetter(input[from]) else IsDigit(input[from]))
      modifies `pos, `linePos
      ensures pos == (if letters then WordEnd(input, from, MAX_IDENT_LENGTH - 1)
              else DigitsEnd(input, from, MAX_IDENT_LENGTH - 1))
      ensures from < pos <= |input| && word == input[from..pos] && linePos - old(linePos) == pos - old(pos)
    {
      var c := input[from];
      word := [];
      while (if letters then IsWord(c) else IsDigit(c)) && |word| < MAX_IDENT_LENGTH - 1
        invariant |word| <= MAX_IDENT_LENGTH - 1 && pos == from + |word| + 1 <= |input| + 1
        invariant c == CharAt(input, pos - 1) && word == input[from..pos - 1]
        invariant linePos - old(linePos) == pos - old(pos)
        invariant |word| == 0 ==> (if letters then IsWord(c) else IsDigit(c))
        invariant var most := MAX_IDENT_LENGTH - 1;
                  if letters then WordEnd(input, from, most) == WordEnd(input, pos - 1, most - |word|)
                  else DigitsEnd(input, from, most) == DigitsEnd(input, pos - 1, most - |word|)
      {
        word := word + [c];
        c := Read();
      }
      pos := pos - 1;
      linePos := linePos - 1;
    }
  }

  /** Reading on within a line. */
  lemma {:induction false} SameLine(s: string, i: nat, j: nat)
    requires i <= |s| && i <= j
    ensures j <= |s| && (forall k | i <= k < j :: s[k] != '\n') ==>
            NewLines(s, j) == NewLines(s, i)
            && LineStart(s, j) == LineStart(s, i)
    decreases j - i
  {
    if i < j <= |s| {
      SameLine(s, i, j - 1);
    }
  }

  // ---- all tokens of an input ----

  /** Where the tokens from position i on start. */
  function Positions(s: string, i: nat, prev: TokenType): seq<nat>
    requires i <= |s|
    decreases |s| - i
  {
    var j := SkipBlank(s, i);
    var l := LexemeAt(s, j, prev);
    if j == |s| || l.kind == Eof then [] else if l.next > |s| then [j] else [j] + Positions(s, l.next, l.kind)
  }

  /** Every string token from position i on lies in one line. */
  predicate StringsOnOneLine(s: string, i: nat, prev: TokenType)
    requires i <= |s|
    decreases |s| - i
  {
    var j := SkipBlank(s, i);
    var l := LexemeAt(s, j, prev);
    j == |s| || l.kind == Eof || l.next > |s|
    || ((l.kind == StringT ==> OneLine(s, j, l.next)) && StringsOnOneLine(s, l.next, l.kind))
  }

  predicate OneLine(s: string, i: nat, j: nat) { forall k | i <= k < j && k < |s| :: s[k] != '\n' }

  lemma {:induction false} BlanksEnd(s: string, i: nat)
    requires i <= |s|
    ensures var j := SkipBlank(s, i); j < |s| ==> !IsSpace(s[j])
    decreases |s| - i
  {
    if i < |s| && IsSpace(s[i]) {
      BlanksEnd(s, i + 1);
    } else if i < |s| && s[i] == '/' && CharAt(s, i + 1) == '/' {
      BlanksEnd(s, LineEnd(s, i + 1));
    }
  }

  lemma {:induction false} WordOneLine(s: string, i: nat, n: nat)
    requires i <= |s|
    ensures OneLine(s, i, WordEnd(s, i, n)) && OneLine(s, i, DigitsEnd(s, i, n))
    decreases n
  {
    if n > 0 && i < |s| {
      WordOneLine(s, i + 1, n - 1);
    }
  }

  /** Of all tokens, only a string can hold a line break. */
  lemma {:induction false} OnlyStringsBreak(s: string, j: nat, prev: TokenType)
    requires j < |s| && !IsSpace(s[j]) && s[j] != '"'
    ensures OneLine(s, j, LexemeAt(s, j, prev).next)
  {
    hide WordEnd, DigitsEnd, Keyword;
    WordOneLine(s, j, MAX_IDENT_LENGTH - 1);
  }

  lemma {:induction false} QuoteIsString(s: string, j: nat, prev: TokenType)
    requires j < |s| && s[j] == '"'
    ensures LexemeAt(s, j, prev).kind == StringT
  {
    hide QuoteEnd;
  }

  /** A token's line is one more than the line breaks before it; its column counts from one. */
  predicate LocatedAt(s: string, t: Token, j: nat) {
    j <= |s| && t.line == 1 + NewLines(s, j) && t.pos == 1 + j - LineStart(s, j)
  }

  /** Calls of gettoken up to the end of the input. */
  method AllTokens(s: string, first: TokenType) returns (ts: seq<Token>)
    ensures |ts| == |Positions(s, 0, first)|
    ensures StringsOnOneLine(s, 0, first) ==> forall k | 0 <= k < |ts| :: LocatedAt(s, ts[k], Positions(s, 0, first)[k])
  {
    hide LexemeAt, SkipBlank, Positions, StringsOnOneLine, OneLine;
    var lexer := new Lexer(s);
    ts := [];
    var prev := first;
    ghost var at: seq<nat>, sound := [], StringsOnOneLine(s, 0, first);
    assert at + Positions(s, 0, first) == Positions(s, 0, first);
    while true
      invariant lexer.input == s && lexer.pos <= |s| && |at| == |ts|
      invariant Positions(s, 0, first) == at + Positions(s, lexer.pos, prev)
      invariant sound ==> lexer.Placed() && StringsOnOneLine(s, lexer.pos, prev)
      invariant sound ==> forall k | 0 <= k < |ts| :: LocatedAt(s, ts[k], at[k])
      decreases |s| - lexer.pos
    {
      ghost var i, j := lexer.pos, SkipBlank(s, lexer.pos);
      ghost var l := LexemeAt(s, j, prev);
      NextPosition(s, i, prev, j, l);
      var t := lexer.GetToken(prev);
      if t.kind == Eof {
        assert at + [] == at;
        return;
      }
      ts := ts + [t];
      if lexer.pos > |s| {
        return;
      }
      Onward(at, j, Positions(s, l.next, l.kind));
      at := at + [j];
      prev := t.kind;
    }
  }

  lemma {:induction false} Onward(at: seq<nat>, j: nat, rest: seq<nat>)
    ensures at + ([j] + rest) == (at + [j]) + rest
  {
  }

  lemma {:induction false} NextPosition(s: string, i: nat, prev: TokenType, j: nat, l: Lexeme)
    requires i <= |s| && j == SkipBlank(s, i) && l == LexemeAt(s, j, prev)
    ensures j <= |s|
    ensures if l.kind == Eof then Positions(s, i, prev) == []
            else i <= j < l.next && j < |s|
                 && Positions(s, i, prev) == (if l.next > |s| then [j] else [j] + Positions(s, l.next, l.kind))
    ensures StringsOnOneLine(s, i, prev) && l.kind != Eof && l.next <= |s| ==>
              StringsOnOneLine(s, l.next, l.kind) && forall k | j <= k < l.next :: s[k] != '\n'
  {
    hide SkipBlank;
    BlanksEnd(s, i);
    if j < |s| {
      if s[j] == '"' {
        QuoteIsString(s, j, prev);
      } else {
        OnlyStringsBreak(s, j, prev);
      }
    }
  }

  // ---- string literals ----

  predicate Escapes(c: char) { c == 'n' || c == 't' || c == '"' }

  function EscapeValue(c: char): char
    requires Escapes(c)
  {
    if c == 'n' then '\n' else if c == 't' then '\t' else '"'
  }

  /** The value of a string literal: some escape sequences are replaced. */
  function Unescape(s: string): (r: string)
    ensures |r| <= |s|
  {
    if s == "" then ""
    else if s[0] == '\\' && |s| > 1 && Escapes(s[1]) then [EscapeValue(s[1])] + Unescape(s[2..])
    else [s[0]] + Unescape(s[1..])
  }

  /**
   The escape loop on a string that the scanner delimited: it stops exactly at
   the closing quote, which no escape sequence can take in, and writes no more
   than it reads.
   */
  method ParseStringLiteral(input: string, start: nat, end: nat) returns (dest: string)
    requires 1 <= start <= end < |input| && end == QuoteEnd(input, start)
    ensures dest == Unescape(input[start..end]) && |dest| <= end - start
  {
    hide Unescape, QuoteEnd;
    ghost var goal := Unescape(input[start..end]);
    var source := start;
    dest := "";
    while source != end
      invariant start <= source <= end && |dest| <= source - start
      invariant goal == dest + Unescape(input[source..end])
      decreases end - source
    {
      UnescapeStep(input, source, end);
      if input[source] == '\\' && Escapes(input[source + 1]) {
        Longer(dest, EscapeValue(input[source + 1]), Unescape(input[source + 2..end]));
        dest := dest + [EscapeValue(input[source + 1])];
        source := source + 2;
      } else {
        Longer(dest, input[source], Unescape(input[source + 1..end]));
        dest := dest + [input[source]];
        source := source + 1;
      }
    }
    assert input[end..end] == "";
    UnescapeNothing();
  }

  lemma {:induction false} Longer(dest: string, c: char, rest: string)
    ensures dest + ([c] + rest) == (dest + [c]) + rest
  {
  }

  lemma {:induction false} UnescapeNothing()
    ensures Unescape("") == ""
  {
  }

  /** The closing quote is not behind a backslash, so an escape sequence ends before it. */
  lemma {:induction false} UnescapeStep(input: string, source: nat, end: nat)
    requires 1 <= source < end < |input| && input[end] == '"' && input[end - 1] != '\\'
    ensures var c := input[source];
            if c == '\\' && Escapes(input[source + 1])
            then source + 2 <= end && Unescape(input[source..end]) == [EscapeValue(input[source + 1])]
              + Unescape(input[source + 2..end])
            else Unescape(input[source..end]) == [c] + Unescape(input[source + 1..end])
  {
    var rest := input[source..end];
    assert rest[1..] == input[source + 1..end];
    if |rest| > 1 {
      assert rest[1] == input[source + 1] && rest[2..] == input[source + 2..end];
    }
  }
}
