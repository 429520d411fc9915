/**
 Programs as they are written: the tokens of every syntax tree, from the tree
 alone, and that the parser reads them back as that tree
 (src/parser.c:136-318, 435-863).
 */
module SourceTokens {
  import opened Wrappers
  import opened Lexing
  import opened Parsing
  import opened PrattSoundness
  import opened PrattCompleteness
  import Ast

  // ---- single tokens ----

  /** The sign an operator is written with. */
  function SignOf(op: Ast.Operator): TokenType {
    match op
    case Add => Plus case Subtract => Minus case Multiply => Asterisk case Divide => Slash case Modulo => Percent
    case Lt => Lt case Lte => Lte case Gt => Gt case Gte => Gte case Eq => EqT case NotEq => NotEqT
    case And => AndT case Or => OrT case Negate => Bang
    case Unknown => Illegal
  }

  /** Operators between two operands. */
  predicate Joins(op: Ast.Operator) { op != Ast.Unknown && op != Ast.Negate }

  function Name(s: string): Tok { Tok(IdentT, s) }

  function Digit(d: nat): char
    requires d < 10
  {
    "0123456789"[d]
  }

  function Digits(n: nat): (s: string)
    ensures s != ""
  {
    if n < 10 then [Digit(n)] else Digits(n / 10) + [Digit(n % 10)]
  }

  lemma {:induction false} DigitsRead(n: nat)
    ensures IntValue(Digits(n)) == n
  {
    if n < 10 {
      assert Digits(n)[..0] == "";
    } else {
      var s, front := Digits(n), Digits(n / 10);
      DigitsRead(n / 10);
      assert s[..|s| - 1] == front && s[|s| - 1] == Digit(n % 10);
    }
  }

  /** How the characters of a string are written between quotes. */
  function Escaped(s: string): string {
    if s == "" then ""
    else (if s[0] == '\n' then "\\n" else if s[0] == '\t' then "\\t" else if s[0] == '"' then "\\\"" else [s[0]])
         + Escaped(s[1..])
  }

  /** No way to write a backslash in front of an n or a t: the two would be an escape sequence. */
  predicate Writable(s: string) {
    s == "" || ((s[0] == '\\' && |s| > 1 ==> s[1] != 'n' && s[1] != 't') && Writable(s[1..]))
  }

  /** What the strings of a program can be is exactly that. */
  lemma {:induction false} EscapedReads(s: string)
    requires Writable(s)
    ensures Unescape(Escaped(s)) == s
  {
    hide Unescape, Escaped;
    if s == "" {
      EscapedFirst(s);
      UnescapeNothing();
    } else {
      var rest := s[1..];
      EscapedReads(rest);
      EscapedStep(s[0], rest, Escaped(rest));
      assert [s[0]] + rest == s;
    }
  }

  lemma {:induction false} UnescapedIsWritable(raw: string)
    ensures Writable(Unescape(raw))
    ensures raw != "" ==> Unescape(raw) != "" && (Unescape(raw)[0] == raw[0] || raw[0] == '\\')
    decreases |raw|
  {
    if raw != "" {
      UnescapedIsWritable(raw[1..]);
      if |raw| > 1 {
        UnescapedIsWritable(raw[2..]);
      }
      var s := Unescape(raw);
      if raw[0] == '\\' && |raw| > 1 && Escapes(raw[1]) {
        assert s[1..] == Unescape(raw[2..]);
      } else {
        assert s[1..] == Unescape(raw[1..]);
      }
    }
  }

  lemma {:induction false} EscapedStep(c: char, rest: string, raw: string)
    requires raw == Escaped(rest) && (c == '\\' && rest != "" ==> rest[0] != 'n' && rest[0] != 't')
    ensures Unescape(Escaped([c] + rest)) == [c] + Unescape(raw)
  {
    var s := [c] + rest;
    assert s[1..] == rest;
    if c == '\n' {
      assert Escaped(s) == "\\n" + raw && ("\\n" + raw)[2..] == raw;
    } else if c == '\t' {
      assert Escaped(s) == "\\t" + raw && ("\\t" + raw)[2..] == raw;
    } else if c == '"' {
      assert Escaped(s) == "\\\"" + raw && ("\\\"" + raw)[2..] == raw;
    } else {
      assert Escaped(s) == [c] + raw && ([c] + raw)[1..] == raw;
      EscapedFirst(rest);
    }
  }

  lemma {:induction false} EscapedFirst(s: string)
    ensures s == "" ==> Escaped(s) == ""
    ensures s != "" ==> Escaped(s) != "" && (Escaped(s)[0] == s[0] || Escaped(s)[0] == '\\') && Escaped(s)[0] != '"'
  {
  }

  // ---- the tokens of a syntax tree ----

  function Key(kind: TokenType): seq<Tok> { [Fixed(kind)] }

  function Bracketed(part: seq<Tok>): seq<Tok> { Key(LParen) + (part + Key(RParen)) }

  /** Whatever has operands is in brackets. */
  function TokE(e: Ast.Expr): seq<Tok>
    decreases e, 1
  {
    match e
    case Ident(name) => [Name(name)]
    case IntLit(n) => [Tok(IntT, Digits(if n < 0 then 0 else n))]
    case BoolLit(b) => Key(if b then TrueT else FalseT)
    case StringLit(s) => [Tok(StringT, Escaped(s))]
    case Infix(op, l, r) => Bracketed(TokE(l) + (Key(SignOf(op)) + TokE(r)))
    case Prefix(op, r) => Bracketed(Key(SignOf(op)) + TokE(r))
    case Postfix(op, name) => Bracketed([Name(name)] + (Key(SignOf(op)) + Key(SignOf(op))))
    case Assign(name, v) => Bracketed([Name(name)] + (Key(AssignT) + TokE(v)))
    case Call(f, args) => Bracketed(TokE(f) + (Key(LParen) + (TokEs(args) + Key(RParen))))
    case ArrayLit(es) => Key(LBracket) + (TokEs(es) + Key(RBracket))
    case Index(l, i) => Bracketed(TokE(l) + (Key(LBracket) + (TokE(i) + Key(RBracket))))
    case AssignIndex(l, i, v) =>
      Bracketed(TokE(l) + (Key(LBracket) + (TokE(i) + (Key(RBracket) + (Key(AssignT) + TokE(v))))))
    case Slice(l, x, y) => Bracketed(TokE(l) + (Key(LBracket) + (TokO(x) + (Key(Colon) + (TokO(y) + Key(RBracket))))))
    case If(c, x, alt) =>
      Key(IfT) + (Key(LParen) + (TokE(c) + (Key(RParen) + (Key(LBrace) + (TokB(x) + (Key(RBrace) + TokAlt(alt)))))))
    case While(c, b) => Key(WhileT) + (Key(LParen) + (TokE(c)
      + (Key(RParen) + (Key(LBrace) + (TokB(b) + Key(RBrace))))))
    case For(_, _, _, _) => TokFor(e)
    case Function(names, b) =>
      Key(FunctionT) + (Key(LParen) + (TokNames(names) + (Key(RParen) + (Key(LBrace) + (TokB(b) + Key(RBrace))))))
  }

  /** `for (` init `;` test `;` inc `) {` body `}`, each clause absent or not. */
  function TokFor(e: Ast.Expr): seq<Tok>
    requires e.For?
    decreases e, 0
  {
    Key(ForT) + (Key(LParen) + (TokS(e.init) + (Key(Semicolon) + (TokO(e.test) + (Key(Semicolon) + (TokS(e.inc)
    + (Key(RParen) + (Key(LBrace) + (TokB(e.body) + Key(RBrace))))))))))
  }

  function TokAlt(alt: Ast.Alternative): seq<Tok>
    decreases alt, 0
  {
    match alt
    case NoElse => []
    case Else(y) => Key(ElseT) + (Key(LBrace) + (TokB(y) + Key(RBrace)))
  }

  function TokO(e: Option<Ast.Expr>): seq<Tok>
    decreases e, 0
  {
    match e case None => [] case Some(x) => TokE(x)
  }

  /** With commas between them. */
  function TokEs(es: seq<Ast.Expr>): seq<Tok>
    decreases es, 0
  {
    if es == [] then [] else TokE(es[0]) + TokRest(es[1..])
  }

  function TokRest(es: seq<Ast.Expr>): seq<Tok>
    decreases es, 0
  {
    if es == [] then [] else Key(Comma) + (TokE(es[0]) + TokRest(es[1..]))
  }

  function TokNames(names: seq<string>): seq<Tok> {
    if names == [] then [] else [Name(names[0])] + MoreNames(names[1..])
  }

  function MoreNames(names: seq<string>): seq<Tok> {
    if names == [] then [] else Key(Comma) + ([Name(names[0])] + MoreNames(names[1..]))
  }

  function TokS(x: Ast.Stmt): seq<Tok>
    decreases x, 0
  {
    match x
    case Let(name, None) => Key(LetT) + [Name(name)]
    case Let(name, Some(e)) => Key(LetT) + ([Name(name)] + (Key(AssignT) + TokE(e)))
    case Return(None) => Key(ReturnT)
    case Return(Some(e)) => Key(ReturnT) + TokE(e)
    case ExprStmt(e) => TokE(e)
    case Break => Key(BreakT)
    case Continue => Key(ContinueT)
    case Empty => []
  }

  /** Each statement ends in a semicolon. */
  function TokB(b: seq<Ast.Stmt>): seq<Tok>
    decreases b, 0
  {
    if b == [] then [] else TokS(b[0]) + (Key(Semicolon) + TokB(b[1..]))
  }

  // ---- the trees that can be written ----

  /**
   Numbers are not negative, operators take the operands they have in the language, and
   strings are ones that can be written. Only the clauses of a `for` may be empty, and a
   `return` there has a value.
   */
  predicate OkE(e: Ast.Expr)
    decreases e, 1
  {
    match e
    case Ident(_) => true
    case IntLit(n) => n >= 0
    case BoolLit(_) => true
    case StringLit(s) => Writable(s)
    case Infix(op, l, r) => Joins(op) && OkE(l) && OkE(r)
    case Prefix(op, r) => (op == Ast.Negate || op == Ast.Subtract) && OkE(r)
    case Postfix(op, _) => op == Ast.Add || op == Ast.Subtract
    case Assign(_, v) => OkE(v)
    case Call(f, args) => OkE(f) && OkEs(args)
    case ArrayLit(es) => OkEs(es)
    case Index(l, i) => OkE(l) && OkE(i)
    case AssignIndex(l, i, v) => OkE(l) && OkE(i) && OkE(v)
    case Slice(l, x, y) => OkE(l) && OkO(x) && OkO(y)
    case If(c, x, alt) => OkE(c) && OkB(x) && OkAlt(alt)
    case While(c, b) => OkE(c) && OkB(b)
    case For(i, t, n, b) => OkClause(i) && OkO(t) && OkClause(n) && OkB(b)
    case Function(_, b) => OkB(b)
  }

  predicate OkAlt(alt: Ast.Alternative)
    decreases alt, 0
  {
    match alt case NoElse => true case Else(y) => OkB(y)
  }

  predicate OkO(e: Option<Ast.Expr>)
    decreases e, 0
  {
    match e case None => true case Some(x) => OkE(x)
  }

  predicate OkEs(es: seq<Ast.Expr>)
    decreases es, 0
  {
    es == [] || (OkE(es[0]) && OkEs(es[1..]))
  }

  predicate OkClause(x: Ast.Stmt)
    decreases x, 1
  {
    x == Ast.Empty || (OkS(x) && x != Ast.Return(None))
  }

  predicate OkS(x: Ast.Stmt)
    decreases x, 0
  {
    match x
    case Let(_, None) => true
    case Let(_, Some(e)) => OkE(e)
    case Return(None) => true
    case Return(Some(e)) => OkE(e)
    case ExprStmt(e) => OkE(e)
    case Break => true
    case Continue => true
    case Empty => false
  }

  predicate OkB(b: seq<Ast.Stmt>)
    decreases b, 0
  {
    b == [] || (OkS(b[0]) && OkB(b[1..]))
  }

  // ---- pieces of the input ----

  /** From position i on the input is this. */
  predicate Has(ts: seq<Tok>, i: nat, part: seq<Tok>) { i + |part| <= |ts| && ts[i..i + |part|] == part }

  lemma {:induction false} HasCat(ts: seq<Tok>, i: nat, a: seq<Tok>, b: seq<Tok>)
    ensures Has(ts, i, a + b) <==> Has(ts, i, a) && Has(ts, i + |a|, b)
  {
    if i + |a| + |b| <= |ts| {
      var s := ts[i..i + |a| + |b|];
      assert s == ts[i..i + |a|] + ts[i + |a|..i + |a| + |b|];
      assert (a + b)[..|a|] == a && (a + b)[|a|..] == b;
      assert s[..|a|] == ts[i..i + |a|] && s[|a|..] == ts[i + |a|..i + |a| + |b|];
    }
  }

  /** One token, and the rest. */
  lemma {:induction false} HasKey(ts: seq<Tok>, i: nat, kind: TokenType, rest: seq<Tok>)
    requires Has(ts, i, Key(kind) + rest)
    ensures i < |ts| && ts[i].kind == kind && Has(ts, i + 1, rest) && Kind(ts, i) == kind
  {
    HasCat(ts, i, Key(kind), rest);
    assert ts[i..i + 1][0] == Fixed(kind);
  }

  lemma {:induction false} HasTok(ts: seq<Tok>, i: nat, tok: Tok, rest: seq<Tok>)
    requires Has(ts, i, [tok] + rest)
    ensures i < |ts| && ts[i] == tok && Has(ts, i + 1, rest) && Kind(ts, i) == tok.kind
  {
    HasCat(ts, i, [tok], rest);
    assert ts[i..i + 1][0] == tok;
  }

  lemma {:induction false} HasFirst(ts: seq<Tok>, i: nat, part: seq<Tok>)
    requires Has(ts, i, part) && part != []
    ensures i < |ts| && ts[i] == part[0] && Kind(ts, i) == part[0].kind && i + |part| <= |ts|
  {
    assert ts[i..i + |part|][0] == part[0];
  }

  /** A part and the key behind it. */
  lemma {:induction false} HasThen(ts: seq<Tok>, i: nat, a: seq<Tok>, kind: TokenType, rest: seq<Tok>)
    requires Has(ts, i, a + (Key(kind) + rest))
    ensures var j := i + |a|;
            && Has(ts, i, a) && j < |ts| && ts[j].kind == kind && Kind(ts, j) == kind && Has(ts, j + 1, rest)
  {
    hide Has;
    HasCat(ts, i, a, Key(kind) + rest);
    HasKey(ts, i + |a|, kind, rest);
  }

  lemma {:induction false} HasLast(ts: seq<Tok>, i: nat, a: seq<Tok>, kind: TokenType)
    requires Has(ts, i, a + Key(kind))
    ensures var j := i + |a|; Has(ts, i, a) && j < |ts| && ts[j].kind == kind && Kind(ts, j) == kind
  {
    hide Has;
    assert a + Key(kind) == a + (Key(kind) + []);
    HasThen(ts, i, a, kind, []);
  }

  // ---- how pieces start ----

  /** The tokens that an expression starts with. */
  predicate Opens(kind: TokenType) {
    match kind
    case IdentT => true case IntT => true case TrueT => true case FalseT => true case StringT => true
    case LParen => true case LBracket => true case IfT => true case WhileT => true case ForT => true
    case FunctionT => true
    case _ => false
  }

  lemma {:induction false} StartE(e: Ast.Expr)
    requires OkE(e)
    ensures TokE(e) != [] && Opens(TokE(e)[0].kind)
  {
    hide TokEs, TokO, TokB, TokAlt, TokS, TokNames, Digits, Escaped, OkEs, OkO, OkB, OkAlt, OkClause, Writable;
  }

  lemma {:induction false} StartS(x: Ast.Stmt)
    requires OkS(x)
    ensures TokS(x) != []
    ensures var k := TokS(x)[0].kind;
            Opens(k) || (k == LetT && x.Let?) || (k == ReturnT && x.Return?) || (k == BreakT && x == Ast.Break)
            || (k == ContinueT && x == Ast.Continue)
    ensures x.ExprStmt? ==> Opens(TokS(x)[0].kind)
  {
    hide TokE, OkE, Opens;
    if x.ExprStmt? {
      StartE(x.e);
    }
  }

  // ---- steps of the parser ----

  /** The loop ends in front of a token that binds no tighter. */
  lemma {:induction false} LoopEnds(ts: seq<Tok>, t: Tree, j: nat, prec: nat)
    requires j < |ts| && Prec(Kind(ts, j + 1)) <= prec
    ensures InfixLoop(ts, t, j, prec) == Done(t, j)
  {
  }

  lemma {:induction false} FromPrimary(ts: seq<Tok>, i: nat, t: Tree, j: nat, prec: nat)
    requires i <= |ts| && j <= |ts| && Primary(ts, i) == Done(t, j)
    ensures ParseExpression(ts, i, prec) == InfixLoop(ts, t, j, prec)
  {
    hide Primary, InfixLoop;
  }

  /** What is in brackets is read to their end. */
  lemma {:induction false} GroupRead(ts: seq<Tok>, i: nat, t: Tree, j: nat)
    requires i < |ts| && ts[i].kind == LParen && ParseExpression(ts, i + 1, LOWEST) == Done(t, j)
    requires NextIs(ts, j, RParen)
    requires j <= |ts|
    ensures Primary(ts, i) == Done(TGroup(t), j + 1)
  {
    hide ParseExpression;
  }

  /** The loop has come to t at j, and the closing bracket is next. */
  lemma {:induction false} GroupClosed(ts: seq<Tok>, i: nat, t: Tree, j: nat)
    requires i < |ts| && ts[i].kind == LParen && j + 1 < |ts| && ts[j + 1].kind == RParen
    requires ParseExpression(ts, i + 1, LOWEST) == InfixLoop(ts, t, j, LOWEST)
    ensures Primary(ts, i) == Done(TGroup(t), j + 1)
  {
    hide ParseExpression, InfixLoop, Primary;
    LoopEnds(ts, t, j, LOWEST);
    GroupRead(ts, i, t, j);
  }

  lemma {:induction false} SignBinds(op: Ast.Operator)
    requires Joins(op)
    ensures var k := SignOf(op);
            IsInfix(k) && LOWEST < Prec(k) && OperatorOf(k) == op && k != ElseT && (op == Ast.Add <==> k == Plus)
                  && (op == Ast.Subtract <==> k == Minus)
  {
  }

  // ---- expressions ----

  /** t is read from i on, is e, and takes all of the tokens of e. */
  predicate ReadsE(e: Ast.Expr, ts: seq<Tok>, i: nat, t: Tree) {
    && TokE(e) != [] && i + |TokE(e)| <= |ts|
    && Primary(ts, i) == Done(t, i + |TokE(e)| - 1) && Erase(t) == e
  }

  /** Every expression's tokens are a primary expression: that expression. */
  lemma {:induction false} PrimaryOf(e: Ast.Expr, ts: seq<Tok>, i: nat) returns (t: Tree)
    requires OkE(e) && Has(ts, i, TokE(e)) && Kind(ts, i + |TokE(e)|) != ElseT
    ensures ReadsE(e, ts, i, t)
    decreases e, 2
  {
    hide Has, TokE, OkE, ReadsE;
    match e
    case Ident(_) => t := AtomOf(e, ts, i);
    case IntLit(_) => t := AtomOf(e, ts, i);
    case BoolLit(_) => t := AtomOf(e, ts, i);
    case StringLit(_) => t := AtomOf(e, ts, i);
    case Infix(_, _, _) => t := InfixOf(e, ts, i);
    case Prefix(_, _) => t := PrefixOf(e, ts, i);
    case Postfix(_, _) => t := PostfixOf(e, ts, i);
    case Assign(_, _) => t := AssignOf(e, ts, i);
    case Call(_, _) => t := CallOf(e, ts, i);
    case ArrayLit(_) => t := ArrayOf(e, ts, i);
    case Index(_, _) => t := IndexOf(e, ts, i);
    case AssignIndex(_, _, _) => t := AssignIndexOf(e, ts, i);
    case Slice(_, _, _) => t := SliceOf(e, ts, i);
    case If(_, _, _) => t := IfOf(e, ts, i);
    case While(_, _) => t := WhileOf(e, ts, i);
    case For(_, _, _, _) => t := ForOf(e, ts, i);
    case Function(_, _) => t := FunctionOf(e, ts, i);
  }

  /** In front of a token that binds no tighter, it is all that is read. */
  lemma {:induction false} ExpressionOf(e: Ast.Expr, ts: seq<Tok>, i: nat, prec: nat) returns (t: Tree)
    requires OkE(e) && Has(ts, i, TokE(e))
    requires var k := Kind(ts, i + |TokE(e)|); k != ElseT && Prec(k) <= prec
    ensures ReadsE(e, ts, i, t) && ParseExpression(ts, i, prec) == Done(t, i + |TokE(e)| - 1)
    decreases e, 3
  {
    hide Has, TokE, OkE, Primary, ParseExpression, InfixLoop, Prec;
    t := PrimaryOf(e, ts, i);
    var j := i + |TokE(e)| - 1;
    FromPrimary(ts, i, t, j, prec);
    LoopEnds(ts, t, j, prec);
  }

  /** What may come behind an expression that is not an operand. */
  predicate Closes(kind: TokenType) {
    match kind
    case RParen => true case RBracket => true case Comma => true case Colon => true case Semicolon => true
    case _ => false
  }

  lemma {:induction false} ClosesLoosely(kind: TokenType)
    requires Closes(kind)
    ensures Prec(kind) == LOWEST && kind != ElseT
  {
  }

  lemma {:induction false} OpensList(ts: seq<Tok>, i: nat)
    requires Opens(Kind(ts, i))
    ensures Kind(ts, i) != RParen && Kind(ts, i) != RBracket && Kind(ts, i) != Colon
  {
    hide Kind;
  }

  lemma {:induction false} Closing()
    ensures Closes(RParen) && Closes(RBracket) && Closes(Comma) && Closes(Colon) && Closes(Semicolon)
  {
  }

  /** An expression in front of such a token. */
  lemma {:induction false} WholeOf(e: Ast.Expr, ts: seq<Tok>, i: nat) returns (t: Tree)
    requires OkE(e) && Has(ts, i, TokE(e)) && Closes(Kind(ts, i + |TokE(e)|))
    ensures TokE(e) != [] && i + |TokE(e)| <= |ts| && Opens(Kind(ts, i)) && Erase(t) == e
    ensures ParseExpression(ts, i, LOWEST) == Done(t, i + |TokE(e)| - 1)
    decreases e, 4
  {
    hide Has, TokE, OkE, Primary, ParseExpression, Prec, Opens, Closes, Kind, Erase, ReadsE;
    StartE(e);
    HasFirst(ts, i, TokE(e));
    ClosesLoosely(Kind(ts, i + |TokE(e)|));
    t := ExpressionOf(e, ts, i, LOWEST);
    ReadsParts(e, ts, i, t);
  }

  lemma {:induction false} AtomOf(e: Ast.Expr, ts: seq<Tok>, i: nat) returns (t: Tree)
    requires e.Ident? || e.IntLit? || e.BoolLit? || e.StringLit?
    requires OkE(e) && Has(ts, i, TokE(e))
    ensures ReadsE(e, ts, i, t)
  {
    hide Digits, Escaped, IntValue, Unescape, Writable;
    HasFirst(ts, i, TokE(e));
    match e
    case Ident(name) => t := TIdent(name);
    case IntLit(n) =>
      t := TInt(Digits(n));
      DigitsRead(n);
    case BoolLit(b) => t := TBool(b);
    case StringLit(s) =>
      t := TString(Escaped(s));
      EscapedReads(s);
  }

  lemma {:induction false} BracketsAt(ts: seq<Tok>, i: nat, part: seq<Tok>)
    requires Has(ts, i, Bracketed(part))
    ensures i < |ts| && ts[i].kind == LParen && Has(ts, i + 1, part)
    ensures var j := i + 1 + |part|;
            j < |ts| && ts[j].kind == RParen && Kind(ts, j) == RParen && |Bracketed(part)| == |part| + 2
  {
    hide Has;
    HasKey(ts, i, LParen, part + Key(RParen));
    HasLast(ts, i + 1, part, RParen);
  }

  /** A tree whose tokens and form are known: what is read at i is e. */
  lemma {:induction false} ReadAs(e: Ast.Expr, ts: seq<Tok>, i: nat, part: seq<Tok>, t: Tree, j: nat)
    requires TokE(e) == part && part != [] && i + |part| == j + 1 <= |ts| && Primary(ts, i) == Done(t, j)
    requires Erase(t) == e
    ensures ReadsE(e, ts, i, t)
  {
    hide Primary, TokE, Erase;
  }

  lemma {:induction false} InfixOf(e: Ast.Expr, ts: seq<Tok>, i: nat) returns (t: Tree)
    requires e.Infix? && OkE(e) && Has(ts, i, TokE(e))
    ensures ReadsE(e, ts, i, t)
    decreases e, 0
  {
    hide Has, TokE, OkE, Primary, ParseExpression, InfixLoop, SignOf, OperatorOf, Prec, IsInfix, ReadsE;
    var Infix(op, l, r) := e;
    var kind, a, b := SignOf(op), TokE(l), TokE(r);
    var part := a + (Key(kind) + b);
    InfixTokens(op, l, r);
    BracketsAt(ts, i, part);
    HasThen(ts, i + 1, a, kind, b);
    SignBinds(op);
    StartE(r);
    LooseEnds();
    var x := PrimaryOf(l, ts, i + 1);
    var y := ExpressionOf(r, ts, i + |a| + 2, Prec(kind));
    ReadsParts(l, ts, i + 1, x);
    ReadsParts(r, ts, i + |a| + 2, y);
    InfixRead(ts, i, kind, a, b, x, y);
    t := TGroup(TInfix(kind, x, y));
    InfixErases(op, x, y);
    ReadAs(e, ts, i, Bracketed(part), t, i + |part| + 1);
  }

  lemma {:induction false} ReadsParts(e: Ast.Expr, ts: seq<Tok>, i: nat, t: Tree)
    requires ReadsE(e, ts, i, t)
    ensures TokE(e) != [] && i + |TokE(e)| <= |ts| && Primary(ts, i) == Done(t, i + |TokE(e)| - 1) && Erase(t) == e
  {
  }

  lemma {:induction false} InfixTokens(op: Ast.Operator, l: Ast.Expr, r: Ast.Expr)
    ensures TokE(Ast.Infix(op, l, r)) == Bracketed(TokE(l) + (Key(SignOf(op)) + TokE(r)))
    ensures OkE(Ast.Infix(op, l, r)) == (Joins(op) && OkE(l) && OkE(r))
  {
  }

  lemma {:induction false} InfixErases(op: Ast.Operator, x: Tree, y: Tree)
    requires OperatorOf(SignOf(op)) == op
    ensures Erase(TGroup(TInfix(SignOf(op), x, y))) == Ast.Infix(op, Erase(x), Erase(y))
  {
    hide OperatorOf, SignOf;
    var t := TInfix(SignOf(op), x, y);
    assert Erase(TGroup(t)) == Erase(t);
  }

  lemma {:induction false} InfixRead(ts: seq<Tok>, i: nat, kind: TokenType, a: seq<Tok>, b: seq<Tok>, x: Tree, y: Tree)
    requires Has(ts, i, Bracketed(a + (Key(kind) + b))) && a != [] && b != [] && Opens(b[0].kind)
    requires IsInfix(kind) && Primary(ts, i + 1) == Done(x, i + |a|)
    requires i + |a| + 2 <= |ts| && ParseExpression(ts, i + |a| + 2, Prec(kind)) == Done(y, i + |a| + 1 + |b|)
    ensures Primary(ts, i) == Done(TGroup(TInfix(kind, x, y)), i + |a| + |b| + 2)
  {
    hide Has, Primary, ParseExpression, InfixLoop, Prec, Opens, IsInfix, Erase, Kind;
    var part := a + (Key(kind) + b);
    BracketsAt(ts, i, part);
    HasThen(ts, i + 1, a, kind, b);
    HasFirst(ts, i + |a| + 2, b);
    NotSigns(b[0].kind);
    var j := i + |a|;
    var k := j + 1 + |b|;
    InfixPower(kind);
    FromPrimary(ts, i + 1, x, j, LOWEST);
    LoopInfix(ts, x, j, kind, y, k, LOWEST);
    GroupClosed(ts, i, TInfix(kind, x, y), k);
  }

  lemma {:induction false} InfixPower(kind: TokenType)
    requires IsInfix(kind)
    ensures LOWEST < Prec(kind)
  {
  }

  lemma {:induction false} NotSigns(kind: TokenType)
    requires Opens(kind)
    ensures kind != Plus && kind != Minus
  {
  }

  lemma {:induction false} NotPlus(kind: TokenType)
    requires Opens(kind)
    ensures kind != Plus && kind != Minus && kind != RParen && kind != RBracket && kind != Colon && kind != Semicolon
    ensures kind != LetT && kind != ReturnT && kind != BreakT && kind != ContinueT && kind != RBrace && kind != Eof
  {
  }

  /** Tokens that end an operand bind nothing. */
  lemma {:induction false} LooseEnds()
    ensures Prec(RParen) == LOWEST && Prec(RBracket) == LOWEST && Prec(Comma) == LOWEST && Prec(Colon) == LOWEST
    ensures Prec(Semicolon) == LOWEST && Prec(ElseT) == LOWEST
  {
  }

  lemma {:induction false} PrefixOf(e: Ast.Expr, ts: seq<Tok>, i: nat) returns (t: Tree)
    requires e.Prefix? && OkE(e) && Has(ts, i, TokE(e))
    ensures ReadsE(e, ts, i, t)
    decreases e, 0
  {
    hide Has, TokE, OkE, Primary, ParseExpression, ReadsE, SignOf;
    var Prefix(op, r) := e;
    var kind, b := SignOf(op), TokE(r);
    PrefixTokens(op, r);
    BracketsAt(ts, i, Key(kind) + b);
    HasKey(ts, i + 1, kind, b);
    LooseEnds();
    var y := ExpressionOf(r, ts, i + 2, PREFIX);
    ReadsParts(r, ts, i + 2, y);
    PrefixRead(ts, i, kind, b, y);
    t := TGroup(TPrefix(kind, y));
    ReadAs(e, ts, i, Bracketed(Key(kind) + b), t, i + |b| + 2);
  }

  lemma {:induction false} PrefixTokens(op: Ast.Operator, r: Ast.Expr)
    requires OkE(Ast.Prefix(op, r))
    ensures TokE(Ast.Prefix(op, r)) == Bracketed(Key(SignOf(op)) + TokE(r)) && OkE(r)
    ensures SignOf(op) == Bang || SignOf(op) == Minus
    ensures forall y :: Erase(y) == r ==> Erase(TGroup(TPrefix(SignOf(op), y))) == Ast.Prefix(op, r)
  {
    hide TokE;
    assert TokE(Ast.Prefix(op, r)) == Bracketed(Key(SignOf(op)) + TokE(r)) by { PrefixToks(op, r); }
    forall y | Erase(y) == r ensures Erase(TGroup(TPrefix(SignOf(op), y))) == Ast.Prefix(op, r) {
      var p := TPrefix(SignOf(op), y);
      assert Erase(TGroup(p)) == Erase(p);
    }
  }

  lemma {:induction false} PrefixToks(op: Ast.Operator, r: Ast.Expr)
    ensures TokE(Ast.Prefix(op, r)) == Bracketed(Key(SignOf(op)) + TokE(r))
  {
  }

  lemma {:induction false} PrefixRead(ts: seq<Tok>, i: nat, kind: TokenType, b: seq<Tok>, y: Tree)
    requires Has(ts, i, Bracketed(Key(kind) + b)) && (kind == Bang || kind == Minus)
    requires i + 2 <= |ts| && ParseExpression(ts, i + 2, PREFIX) == Done(y, i + 1 + |b|)
    ensures Primary(ts, i) == Done(TGroup(TPrefix(kind, y)), i + |b| + 2)
  {
    hide Has, ParseExpression, InfixLoop;
    BracketsAt(ts, i, Key(kind) + b);
    HasKey(ts, i + 1, kind, b);
    var k := i + 1 + |b|;
    assert Primary(ts, i + 1) == Done(TPrefix(kind, y), k);
    FromPrimary(ts, i + 1, TPrefix(kind, y), k, LOWEST);
    GroupClosed(ts, i, TPrefix(kind, y), k);
  }

  lemma {:induction false} PostfixOf(e: Ast.Expr, ts: seq<Tok>, i: nat) returns (t: Tree)
    requires e.Postfix? && OkE(e) && Has(ts, i, TokE(e))
    ensures ReadsE(e, ts, i, t)
    decreases e, 0
  {
    hide Has, Primary, ReadsE, Erase;
    var Postfix(op, name) := e;
    PostfixRead(ts, i, SignOf(op), name);
    t := TGroup(TPostfix(SignOf(op), TIdent(name)));
    PostfixErases(op, name);
    HasSize(ts, i, TokE(e));
    ReadAs(e, ts, i, TokE(e), t, i + 4);
  }

  lemma {:induction false} HasSize(ts: seq<Tok>, i: nat, part: seq<Tok>)
    requires Has(ts, i, part)
    ensures i + |part| <= |ts|
  {
  }

  lemma {:induction false} PostfixRead(ts: seq<Tok>, i: nat, kind: TokenType, name: string)
    requires Has(ts, i, Bracketed([Name(name)] + (Key(kind) + Key(kind)))) && (kind == Plus || kind == Minus)
    ensures Primary(ts, i) == Done(TGroup(TPostfix(kind, TIdent(name))), i + 4)
  {
    hide Has, Primary, ParseExpression, InfixLoop, Erase;
    BracketsAt(ts, i, [Name(name)] + (Key(kind) + Key(kind)));
    HasTok(ts, i + 1, Name(name), Key(kind) + Key(kind));
    HasKey(ts, i + 2, kind, Key(kind));
    HasFirst(ts, i + 3, Key(kind));
    var x := TIdent(name);
    NameRead(ts, i + 1, name);
    FromPrimary(ts, i + 1, x, i + 1, LOWEST);
    LoopPostfix(ts, x, i + 1, kind, LOWEST);
    GroupClosed(ts, i, TPostfix(kind, x), i + 3);
  }

  lemma {:induction false} NameRead(ts: seq<Tok>, i: nat, name: string)
    requires i < |ts| && ts[i] == Name(name)
    ensures Primary(ts, i) == Done(TIdent(name), i) && Erase(TIdent(name)) == Ast.Ident(name)
  {
  }

  lemma {:induction false} PostfixErases(op: Ast.Operator, name: string)
    requires op == Ast.Add || op == Ast.Subtract
    ensures Erase(TGroup(TPostfix(SignOf(op), TIdent(name)))) == Ast.Postfix(op, name)
  {
    var x := TIdent(name);
    var p := TPostfix(SignOf(op), x);
    assert Erase(x) == Ast.Ident(name) && Erase(TGroup(p)) == Erase(p);
  }

  lemma {:induction false} AssignOf(e: Ast.Expr, ts: seq<Tok>, i: nat) returns (t: Tree)
    requires e.Assign? && OkE(e) && Has(ts, i, TokE(e))
    ensures ReadsE(e, ts, i, t)
    decreases e, 0
  {
    hide Has, TokE, OkE, Primary, ParseExpression, InfixLoop, ReadsE, Erase;
    var Assign(name, v) := e;
    var b, x := TokE(v), TIdent(name);
    var part := [Name(name)] + (Key(AssignT) + b);
    AssignTokens(name, v);
    BracketsAt(ts, i, part);
    HasTok(ts, i + 1, Name(name), Key(AssignT) + b);
    HasKey(ts, i + 2, AssignT, b);
    NameRead(ts, i + 1, name);
    LooseEnds();
    var y := ExpressionOf(v, ts, i + 3, ASSIGN);
    ReadsParts(v, ts, i + 3, y);
    var k := i + 2 + |b|;
    FromPrimary(ts, i + 1, x, i + 1, LOWEST);
    LoopAssign(ts, x, i + 1, y, k, LOWEST);
    GroupClosed(ts, i, TAssign(x, y), k);
    t := TGroup(TAssign(x, y));
    AssignErases(name, y);
    ReadAs(e, ts, i, Bracketed(part), t, k + 1);
  }

  lemma {:induction false} AssignTokens(name: string, v: Ast.Expr)
    ensures TokE(Ast.Assign(name, v)) == Bracketed([Name(name)] + (Key(AssignT) + TokE(v)))
    ensures OkE(Ast.Assign(name, v)) == OkE(v)
  {
  }

  lemma {:induction false} AssignErases(name: string, y: Tree)
    ensures Erase(TGroup(TAssign(TIdent(name), y))) == Ast.Assign(name, Erase(y))
  {
    var x := TIdent(name);
    var p := TAssign(x, y);
    assert Erase(x) == Ast.Ident(name) && Erase(TGroup(p)) == Erase(p);
  }

  // ---- lists, calls and indices ----

  lemma {:induction false} NextInList(ts: seq<Tok>, i: nat, es: seq<Ast.Expr>, end: TokenType)
    requires Has(ts, i, TokRest(es)) && Kind(ts, i + |TokRest(es)|) == end
    ensures Kind(ts, i) == if es == [] then end else Comma
  {
    hide Has, TokE;
    if es != [] {
      HasKey(ts, i, Comma, TokE(es[0]) + TokRest(es[1..]));
    }
  }

  lemma {:induction false} RestRead(ts: seq<Tok>, done: seq<Tree>, j: nat, x: Tree, k: nat, end: TokenType)
    requires j <= |ts| && Kind(ts, j + 1) == Comma && ParseExpression(ts, j + 2, LOWEST) == Done(x, k)
    ensures ListLoop(ts, done, j, end) == ListLoop(ts, done + [x], k, end)
  {
    hide ParseExpression;
  }

  lemma {:induction false} RestEnds(ts: seq<Tok>, done: seq<Tree>, j: nat, end: TokenType)
    requires j <= |ts| && Kind(ts, j + 1) == end && (end == RParen || end == RBracket)
    ensures ListLoop(ts, done, j, end) == Done(done, j + 1)
  {
  }

  lemma {:induction false} ListRead(ts: seq<Tok>, j: nat, x: Tree, k: nat, end: TokenType)
    requires j < |ts| && Kind(ts, j + 1) != end && ParseExpression(ts, j + 1, LOWEST) == Done(x, k)
    ensures List(ts, j, end) == ListLoop(ts, [x], k, end)
  {
    hide ParseExpression, ListLoop;
  }

  lemma {:induction false} NoList(ts: seq<Tok>, j: nat, end: TokenType)
    requires j < |ts| && Kind(ts, j + 1) == end && (end == RParen || end == RBracket)
    ensures List(ts, j, end) == Done([], j + 1)
  {
  }

  lemma {:induction false} AllErased(x: Tree, more: seq<Tree>)
    ensures EraseAll([x] + more) == [Erase(x)] + EraseAll(more)
  {
    hide Erase;
    assert ([x] + more)[1..] == more;
  }

  lemma {:induction false} RestOf(es: seq<Ast.Expr>, done: seq<Tree>, ts: seq<Tok>, j: nat, end: TokenType)
                                  returns (xs: seq<Tree>)
    requires OkEs(es) && Has(ts, j + 1, TokRest(es)) && (end == RParen || end == RBracket)
    requires Kind(ts, j + 1 + |TokRest(es)|) == end && j <= |ts|
    ensures ListLoop(ts, done, j, end) == Done(done + xs, j + 1 + |TokRest(es)|) && EraseAll(xs) == es
    decreases es, 0
  {
    hide Has, TokE, OkE, ParseExpression, ListLoop, Erase, Kind, Opens, Closes;
    Closing();
    NextInList(ts, j + 1, es, end);
    if es == [] {
      xs := [];
      assert done + [] == done;
      RestEnds(ts, done, j, end);
    } else {
      var a, rest := TokE(es[0]), TokRest(es[1..]);
      HasKey(ts, j + 1, Comma, a + rest);
      HasCat(ts, j + 2, a, rest);
      NextInList(ts, j + 2 + |a|, es[1..], end);
      var x := WholeOf(es[0], ts, j + 2);
      RestRead(ts, done, j, x, j + 1 + |a|, end);
      var more := RestOf(es[1..], done + [x], ts, j + 1 + |a|, end);
      xs := [x] + more;
      assert (done + [x]) + more == done + xs;
      AllErased(x, more);
    }
  }

  lemma {:induction false} ListOf(es: seq<Ast.Expr>, ts: seq<Tok>, j: nat, end: TokenType) returns (xs: seq<Tree>)
    requires OkEs(es) && Has(ts, j + 1, TokEs(es)) && (end == RParen || end == RBracket)
    requires Kind(ts, j + 1 + |TokEs(es)|) == end && j < |ts|
    ensures List(ts, j, end) == Done(xs, j + 1 + |TokEs(es)|) && EraseAll(xs) == es
    decreases es, 1
  {
    hide Has, TokE, OkE, ParseExpression, List, ListLoop, Erase, Kind, Opens, Closes;
    Closing();
    if es == [] {
      xs := [];
      NoList(ts, j, end);
    } else {
      var a, rest := TokE(es[0]), TokRest(es[1..]);
      HasCat(ts, j + 1, a, rest);
      NextInList(ts, j + 1 + |a|, es[1..], end);
      var x := WholeOf(es[0], ts, j + 1);
      OpensList(ts, j + 1);
      ListRead(ts, j, x, j + |a|, end);
      var more := RestOf(es[1..], [x], ts, j + |a|, end);
      xs := [x] + more;
      AllErased(x, more);
    }
  }

  lemma {:induction false} ArrayOf(e: Ast.Expr, ts: seq<Tok>, i: nat) returns (t: Tree)
    requires e.ArrayLit? && OkE(e) && Has(ts, i, TokE(e))
    ensures ReadsE(e, ts, i, t)
    decreases e, 0
  {
    hide Has, TokEs, OkEs, List, ReadsE, EraseAll;
    var a := TokEs(e.elems);
    HasKey(ts, i, LBracket, a + Key(RBracket));
    HasLast(ts, i + 1, a, RBracket);
    var xs := ListOf(e.elems, ts, i, RBracket);
    t := TArray(xs);
    ReadAs(e, ts, i, Key(LBracket) + (a + Key(RBracket)), t, i + 1 + |a|);
  }

  lemma {:induction false} CallOf(e: Ast.Expr, ts: seq<Tok>, i: nat) returns (t: Tree)
    requires e.Call? && OkE(e) && Has(ts, i, TokE(e))
    ensures ReadsE(e, ts, i, t)
    decreases e, 0
  {
    hide Has, TokE, OkE, TokEs, OkEs, List, Primary, ParseExpression, InfixLoop, ReadsE, Erase, EraseAll;
    var Call(f, args) := e;
    var a, b := TokE(f), TokEs(args);
    var part := a + (Key(LParen) + (b + Key(RParen)));
    CallTokens(f, args);
    BracketsAt(ts, i, part);
    HasThen(ts, i + 1, a, LParen, b + Key(RParen));
    HasLast(ts, i + |a| + 2, b, RParen);
    var x := PrimaryOf(f, ts, i + 1);
    ReadsParts(f, ts, i + 1, x);
    var j := i + |a|;
    var xs := ListOf(args, ts, j + 1, RParen);
    var k := j + 2 + |b|;
    FromPrimary(ts, i + 1, x, j, LOWEST);
    LoopCall(ts, x, j, xs, k, LOWEST);
    GroupClosed(ts, i, TCall(x, xs), k);
    t := TGroup(TCall(x, xs));
    CallErases(x, xs);
    ReadAs(e, ts, i, Bracketed(part), t, k + 1);
  }

  lemma {:induction false} CallTokens(f: Ast.Expr, args: seq<Ast.Expr>)
    ensures TokE(Ast.Call(f, args)) == Bracketed(TokE(f) + (Key(LParen) + (TokEs(args) + Key(RParen))))
    ensures OkE(Ast.Call(f, args)) == (OkE(f) && OkEs(args))
  {
    hide TokEs, OkEs;
  }

  lemma {:induction false} CallErases(x: Tree, xs: seq<Tree>)
    ensures Erase(TGroup(TCall(x, xs))) == Ast.Call(Erase(x), EraseAll(xs))
  {
    hide EraseAll;
    var p := TCall(x, xs);
    assert Erase(TGroup(p)) == Erase(p);
  }

  lemma {:induction false} IndexRead(ts: seq<Tok>, x: Tree, j: nat, b: seq<Tok>, y: Tree)
    requires j < |ts| && b != [] && Has(ts, j + 1, b) && Opens(b[0].kind) && j + 1 + |b| < |ts|
    requires ts[j + 1 + |b|].kind == RBracket
    requires ParseExpression(ts, j + 1, LOWEST) == Done(y, j + |b|)
    ensures IndexTail(ts, x, j) == Done(TIndex(x, y), j + 1 + |b|)
  {
    hide Has, ParseExpression;
    HasFirst(ts, j + 1, b);
  }

  /** `l[r]` at i, in front of anything. */
  lemma {:induction false} IndexedAt(e: Ast.Expr, l: Ast.Expr, r: Ast.Expr, ts: seq<Tok>, i: nat, rest: seq<Tok>)
                                     returns (x: Tree, y: Tree)
    requires OkE(l) && OkE(r) && (e.Index? || e.AssignIndex?) && e.left == l && e.index == r
    requires Has(ts, i, TokE(l) + (Key(LBracket) + (TokE(r) + (Key(RBracket) + rest))))
    ensures var k := i + |TokE(l)| + |TokE(r)| + 1;
            && k < |ts| && Has(ts, k + 1, rest) && Erase(x) == l && Erase(y) == r
            && ParseExpression(ts, i, LOWEST) == InfixLoop(ts, TIndex(x, y), k, LOWEST)
    decreases e, 0
  {
    hide Has, TokE, OkE, Primary, ParseExpression, InfixLoop, IndexTail, ReadsE, Erase, Opens, Kind;
    var a, b := TokE(l), TokE(r);
    HasThen(ts, i, a, LBracket, b + (Key(RBracket) + rest));
    HasThen(ts, i + |a| + 1, b, RBracket, rest);
    StartE(r);
    LooseEnds();
    x := PrimaryOf(l, ts, i);
    ReadsParts(l, ts, i, x);
    var j := i + |a| - 1;
    y := ExpressionOf(r, ts, j + 2, LOWEST);
    ReadsParts(r, ts, j + 2, y);
    var k := j + 2 + |b|;
    IndexRead(ts, x, j + 1, b, y);
    FromPrimary(ts, i, x, j, LOWEST);
    LoopIndex(ts, x, j, TIndex(x, y), k, LOWEST);
  }

  lemma {:induction false} IndexOf(e: Ast.Expr, ts: seq<Tok>, i: nat) returns (t: Tree)
    requires e.Index? && OkE(e) && Has(ts, i, TokE(e))
    ensures ReadsE(e, ts, i, t)
    decreases e, 1
  {
    hide Has, TokE, OkE, Primary, ParseExpression, InfixLoop, ReadsE, Erase;
    var Index(l, r) := e;
    var a, b := TokE(l), TokE(r);
    var part := a + (Key(LBracket) + (b + Key(RBracket)));
    IndexTokens(l, r);
    BracketsAt(ts, i, part);
    assert Key(RBracket) == Key(RBracket) + [];
    var x, y := IndexedAt(e, l, r, ts, i + 1, []);
    var k := i + |a| + |b| + 2;
    GroupClosed(ts, i, TIndex(x, y), k);
    t := TGroup(TIndex(x, y));
    IndexErases(x, y);
    ReadAs(e, ts, i, Bracketed(part), t, k + 1);
  }

  lemma {:induction false} IndexTokens(l: Ast.Expr, r: Ast.Expr)
    ensures TokE(Ast.Index(l, r)) == Bracketed(TokE(l) + (Key(LBracket) + (TokE(r) + Key(RBracket))))
    ensures OkE(Ast.Index(l, r)) == (OkE(l) && OkE(r))
  {
  }

  lemma {:induction false} IndexErases(x: Tree, y: Tree)
    ensures Erase(TIndex(x, y)) == Erase(TGroup(TIndex(x, y))) == Ast.Index(Erase(x), Erase(y))
  {
    var p := TIndex(x, y);
    assert Erase(TGroup(p)) == Erase(p);
  }

  lemma {:induction false} AssignIndexOf(e: Ast.Expr, ts: seq<Tok>, i: nat) returns (t: Tree)
    requires e.AssignIndex? && OkE(e) && Has(ts, i, TokE(e))
    ensures ReadsE(e, ts, i, t)
    decreases e, 1
  {
    hide Has, TokE, OkE, Primary, ParseExpression, InfixLoop, ReadsE, Erase, Kind;
    var AssignIndex(l, r, v) := e;
    var a, b, c := TokE(l), TokE(r), TokE(v);
    var part := a + (Key(LBracket) + (b + (Key(RBracket) + (Key(AssignT) + c))));
    AssignIndexTokens(l, r, v);
    BracketsAt(ts, i, part);
    var x, y := IndexedAt(e, l, r, ts, i + 1, Key(AssignT) + c);
    var k := i + |a| + |b| + 2;
    HasKey(ts, k + 1, AssignT, c);
    LooseEnds();
    var z := ExpressionOf(v, ts, k + 2, ASSIGN);
    ReadsParts(v, ts, k + 2, z);
    IndexErases(x, y);
    LoopAssign(ts, TIndex(x, y), k, z, k + 1 + |c|, LOWEST);
    GroupClosed(ts, i, TAssign(TIndex(x, y), z), k + 1 + |c|);
    t := TGroup(TAssign(TIndex(x, y), z));
    AssignIndexErases(x, y, z);
    ReadAs(e, ts, i, Bracketed(part), t, k + 2 + |c|);
  }

  lemma {:induction false} AssignIndexTokens(l: Ast.Expr, r: Ast.Expr, v: Ast.Expr)
    ensures TokE(Ast.AssignIndex(l, r, v))
         == Bracketed(TokE(l) + (Key(LBracket) + (TokE(r) + (Key(RBracket) + (Key(AssignT) + TokE(v))))))
    ensures OkE(Ast.AssignIndex(l, r, v)) == (OkE(l) && OkE(r) && OkE(v))
  {
  }

  lemma {:induction false} AssignIndexErases(x: Tree, y: Tree, z: Tree)
    ensures Erase(TGroup(TAssign(TIndex(x, y), z))) == Ast.AssignIndex(Erase(x), Erase(y), Erase(z))
  {
    IndexErases(x, y);
    var l := TIndex(x, y);
    var p := TAssign(l, z);
    assert Erase(TGroup(p)) == Erase(p);
  }

  // ---- slices ----

  function EraseO(t: Option<Tree>): Option<Ast.Expr> {
    match t case None => None case Some(x) => Some(Erase(x))
  }

  /** The second bound, or none, and the bracket. */
  lemma {:induction false} LastBoundOf(y: Option<Ast.Expr>, ts: seq<Tok>, x: Tree, start: Option<Tree>, m: nat)
                                       returns (end: Option<Tree>)
    requires OkO(y) && m + 1 < |ts| && Has(ts, m + 2, TokO(y) + Key(RBracket))
    ensures SliceTail(ts, x, start, m) == Done(TSlice(x, start, end), m + 2 + |TokO(y)|) && EraseO(end) == y
    decreases y, 5
  {
    hide Has, TokE, OkE, ParseExpression, SliceTail, Erase, Opens, Starts, Closes;
    Closing();
    var b := TokO(y);
    HasLast(ts, m + 2, b, RBracket);
    match y
    case None =>
      NoLastBound(ts, x, start, m);
      end := None;
    case Some(e) =>
      var t := WholeOf(e, ts, m + 2);
      OpensStarts(Kind(ts, m + 2));
      LastBound(ts, x, start, t, m, m + 2 + |b|);
      end := Some(t);
  }

  lemma {:induction false} OpensStarts(kind: TokenType)
    requires Opens(kind)
    ensures Starts(kind)
  {
  }

  lemma {:induction false} NoFirstBound(ts: seq<Tok>, x: Tree, j: nat)
    requires j < |ts| && Kind(ts, j + 1) == Colon
    ensures IndexTail(ts, x, j) == SliceTail(ts, x, None, j)
  {
    hide SliceTail;
  }

  lemma {:induction false} FirstBound(ts: seq<Tok>, x: Tree, j: nat, t: Tree, k: nat)
    requires j < |ts| && Kind(ts, j + 1) != Colon && ParseExpression(ts, j + 1, LOWEST) == Done(t, k)
    requires Kind(ts, k + 1) == Colon
    ensures IndexTail(ts, x, j) == SliceTail(ts, x, Some(t), k)
  {
    hide SliceTail, ParseExpression;
  }

  /** The first bound, or none, in front of the colon. */
  lemma {:induction false} FirstBoundOf(y: Option<Ast.Expr>, ts: seq<Tok>, x: Tree, j: nat, rest: seq<Tok>)
                                        returns (start: Option<Tree>)
    requires OkO(y) && j < |ts| && Has(ts, j + 1, TokO(y) + (Key(Colon) + rest))
    ensures var m := j + |TokO(y)|;
            && m + 1 < |ts| && ts[m + 1].kind == Colon && Has(ts, m + 2, rest)
            && IndexTail(ts, x, j) == SliceTail(ts, x, start, m) && EraseO(start) == y
    decreases y, 5
  {
    hide Has, TokE, OkE, ParseExpression, SliceTail, IndexTail, Erase, Kind, Opens, Closes;
    Closing();
    var a := TokO(y);
    HasThen(ts, j + 1, a, Colon, rest);
    match y
    case None =>
      NoFirstBound(ts, x, j);
      start := None;
    case Some(e) =>
      var t := WholeOf(e, ts, j + 1);
      OpensList(ts, j + 1);
      FirstBound(ts, x, j, t, j + |a|);
      start := Some(t);
  }

  lemma {:induction false} SliceOf(e: Ast.Expr, ts: seq<Tok>, i: nat) returns (t: Tree)
    requires e.Slice? && OkE(e) && Has(ts, i, TokE(e))
    ensures ReadsE(e, ts, i, t)
    decreases e, 1
  {
    hide Has, TokE, OkE, TokO, OkO, Primary, ParseExpression, InfixLoop, IndexTail, SliceTail, ReadsE, Erase, EraseO,
         Kind;
    var Slice(l, p, q) := e;
    var a, b, c := TokE(l), TokO(p), TokO(q);
    var part := a + (Key(LBracket) + (b + (Key(Colon) + (c + Key(RBracket)))));
    SliceTokens(l, p, q);
    BracketsAt(ts, i, part);
    HasThen(ts, i + 1, a, LBracket, b + (Key(Colon) + (c + Key(RBracket))));
    LooseEnds();
    var x := PrimaryOf(l, ts, i + 1);
    ReadsParts(l, ts, i + 1, x);
    var j := i + |a|;
    var start := FirstBoundOf(p, ts, x, j + 1, c + Key(RBracket));
    var end := LastBoundOf(q, ts, x, start, j + 1 + |b|);
    var s, k := TSlice(x, start, end), j + 3 + |b| + |c|;
    FromPrimary(ts, i + 1, x, j, LOWEST);
    LoopIndex(ts, x, j, s, k, LOWEST);
    GroupClosed(ts, i, s, k);
    t := TGroup(s);
    SliceErases(x, start, end);
    ReadAs(e, ts, i, Bracketed(part), t, k + 1);
  }

  lemma {:induction false} SliceTokens(l: Ast.Expr, p: Option<Ast.Expr>, q: Option<Ast.Expr>)
    ensures TokE(Ast.Slice(l, p, q))
         == Bracketed(TokE(l) + (Key(LBracket) + (TokO(p) + (Key(Colon) + (TokO(q) + Key(RBracket))))))
    ensures OkE(Ast.Slice(l, p, q)) == (OkE(l) && OkO(p) && OkO(q))
  {
    hide TokO, OkO;
  }

  lemma {:induction false} SliceErases(x: Tree, start: Option<Tree>, end: Option<Tree>)
    ensures Erase(TGroup(TSlice(x, start, end))) == Ast.Slice(Erase(x), EraseO(start), EraseO(end))
  {
    var p := TSlice(x, start, end);
    assert Erase(TGroup(p)) == Erase(p);
  }

  // ---- statements and blocks ----

  /** Where the statement's reading ends: a bare `return` takes its semicolon, others the last of their tokens. */
  function LastOf(x: Ast.Stmt, i: nat): nat
    requires OkS(x)
  {
    StartS(x);
    if x == Ast.Return(None) then i + 1 else i + |TokS(x)| - 1
  }

  lemma {:induction false} ValueRead(ts: seq<Tok>, i: nat, t: Tree, j: nat)
    requires i <= |ts| && Kind(ts, i) != Semicolon && ParseExpression(ts, i, LOWEST) == Done(t, j)
    ensures OptionalValue(ts, i) == Done(Some(Erase(t)), j)
  {
    hide ParseExpression, Erase;
  }

  lemma {:induction false} ExpressionStatement(ts: seq<Tok>, i: nat, t: Tree, j: nat)
    requires i <= |ts| && Opens(Kind(ts, i)) && ParseExpression(ts, i, LOWEST) == Done(t, j)
    ensures Statement(ts, i) == Done(Ast.ExprStmt(Erase(t)), j)
  {
    hide ParseExpression, Erase;
    NotPlus(Kind(ts, i));
  }

  lemma {:induction false} StatementOf(x: Ast.Stmt, ts: seq<Tok>, i: nat, end: TokenType)
    requires OkS(x) && Has(ts, i, TokS(x)) && Kind(ts, i + |TokS(x)|) == end
    requires end == Semicolon || (end == RParen && x != Ast.Return(None))
    ensures Statement(ts, i) == Done(x, LastOf(x, i)) && LastOf(x, i) < |ts|
    decreases x, 1
  {
    hide Has, TokE, OkE, Statement, Opens, Kind, Closes;
    Closing();
    match x
    case Let(name, None) => LetBare(ts, i, name, end);
    case Let(name, Some(e)) => LetOf(name, e, ts, i);
    case Return(None) => BareAt(ts, i, x, ReturnT, end);
    case Return(Some(e)) => ReturnOf(e, ts, i);
    case ExprStmt(e) =>
      var t := WholeOf(e, ts, i);
      hide ParseExpression, Erase;
      ExpressionStatement(ts, i, t, i + |TokE(e)| - 1);
    case Break => BareAt(ts, i, x, BreakT, end);
    case Continue => BareAt(ts, i, x, ContinueT, end);
  }

  lemma {:induction false} BareAt(ts: seq<Tok>, i: nat, x: Ast.Stmt, kind: TokenType, end: TokenType)
    requires (x == Ast.Return(None) && kind == ReturnT && end == Semicolon) || (x == Ast.Break && kind == BreakT)
             || (x == Ast.Continue && kind == ContinueT)
    requires Has(ts, i, Key(kind)) && Kind(ts, i + 1) == end && (end == Semicolon || end == RParen)
    ensures Statement(ts, i) == Done(x, if x == Ast.Return(None) then i + 1 else i) && i + 1 < |ts|
  {
    hide Has;
    HasFirst(ts, i, Key(kind));
  }

  lemma {:induction false} LetOf(name: string, e: Ast.Expr, ts: seq<Tok>, i: nat)
    requires OkE(e) && Has(ts, i, Key(LetT) + ([Name(name)] + (Key(AssignT) + TokE(e))))
    requires Closes(Kind(ts, i + 3 + |TokE(e)|))
    ensures Statement(ts, i) == Done(Ast.Let(name, Some(e)), i + 2 + |TokE(e)|) && i + 3 + |TokE(e)| <= |ts|
    decreases e, 6
  {
    hide Has, TokE, OkE, Statement, OptionalValue, Closes, Kind;
    HasKey(ts, i, LetT, [Name(name)] + (Key(AssignT) + TokE(e)));
    HasTok(ts, i + 1, Name(name), Key(AssignT) + TokE(e));
    HasKey(ts, i + 2, AssignT, TokE(e));
    ValueOf(e, ts, i + 3);
    LetRead(ts, i, name, Some(e), i + 2 + |TokE(e)|);
  }

  lemma {:induction false} ReturnOf(e: Ast.Expr, ts: seq<Tok>, i: nat)
    requires OkE(e) && Has(ts, i, Key(ReturnT) + TokE(e)) && Closes(Kind(ts, i + 1 + |TokE(e)|))
    ensures Statement(ts, i) == Done(Ast.Return(Some(e)), i + |TokE(e)|) && i + 1 + |TokE(e)| <= |ts|
    decreases e, 6
  {
    hide Has, TokE, OkE, OptionalValue, Closes;
    HasKey(ts, i, ReturnT, TokE(e));
    ValueOf(e, ts, i + 1);
  }

  /** The value of a `let` or a `return`. */
  lemma {:induction false} ValueOf(e: Ast.Expr, ts: seq<Tok>, i: nat)
    requires OkE(e) && Has(ts, i, TokE(e)) && Closes(Kind(ts, i + |TokE(e)|))
    ensures TokE(e) != [] && OptionalValue(ts, i) == Done(Some(e), i + |TokE(e)| - 1) && i + |TokE(e)| <= |ts|
    decreases e, 5
  {
    hide Has, TokE, OkE, ParseExpression, Erase, Opens, OptionalValue, Closes;
    var t := WholeOf(e, ts, i);
    NotPlus(Kind(ts, i));
    ValueRead(ts, i, t, i + |TokE(e)| - 1);
  }

  lemma {:induction false} LetBare(ts: seq<Tok>, i: nat, name: string, end: TokenType)
    requires Has(ts, i, Key(LetT) + [Name(name)]) && Kind(ts, i + 2) == end && (end == Semicolon || end == RParen)
    ensures Statement(ts, i) == Done(Ast.Let(name, None), i + 1) && i + 1 < |ts|
  {
    hide Has;
    HasKey(ts, i, LetT, [Name(name)]);
    HasFirst(ts, i + 1, [Name(name)]);
  }

  lemma {:induction false} LetRead(ts: seq<Tok>, i: nat, name: string, e: Option<Ast.Expr>, j: nat)
    requires i + 2 < |ts| && ts[i].kind == LetT && ts[i + 1] == Name(name) && ts[i + 2].kind == AssignT
    requires OptionalValue(ts, i + 3) == Done(e, j)
    ensures Statement(ts, i) == Done(Ast.Let(name, e), j)
  {
    hide OptionalValue;
  }

  /** No statement starts like the end of one, of a clause, or of a block. */
  lemma {:induction false} StatementStarts(x: Ast.Stmt, ts: seq<Tok>, i: nat)
    requires OkS(x) && Has(ts, i, TokS(x))
    ensures i < |ts| && Kind(ts, i) != Semicolon && Kind(ts, i) != RParen && Kind(ts, i) != RBrace && Kind(ts, i) != Eof
  {
    hide Has, TokS, OkS, Opens;
    StartS(x);
    HasFirst(ts, i, TokS(x));
    if Opens(TokS(x)[0].kind) {
      NotPlus(TokS(x)[0].kind);
    }
  }

  /** One statement and its semicolon, in a block or a program. */
  lemma {:induction false} BlockStep(ts: seq<Tok>, done: seq<Ast.Stmt>, j: nat, x: Ast.Stmt)
    requires OkS(x) && Has(ts, j, TokS(x) + Key(Semicolon)) && Statement(ts, j) == Done(x, LastOf(x, j))
    requires Kind(ts, j + |TokS(x)| + 1) != Semicolon
    ensures BlockLoop(ts, done, j, true) == BlockLoop(ts, done + [x], j + |TokS(x)| + 1, true)
    ensures ProgramLoop(ts, done, j, true) == ProgramLoop(ts, done + [x], j + |TokS(x)| + 1, true)
  {
    hide Has, Statement, TokS, BlockLoop, ProgramLoop;
    StartS(x);
    HasLast(ts, j, TokS(x), Semicolon);
    StatementStarts(x, ts, j);
    if x == Ast.Return(None) {
      BareReturn();
    }
    OneRead(ts, done, j, x, LastOf(x, j), j + |TokS(x)| + 1);
    OneInProgram(ts, done, j, x, LastOf(x, j), j + |TokS(x)| + 1);
  }

  /** The statement's reading ends in front of its semicolon, or on it. */
  predicate EndsAt(ts: seq<Tok>, r: nat, k: nat) {
    k <= |ts| && ((k == r + 2 && Kind(ts, r + 1) == Semicolon) || (k == r + 1 && Kind(ts, k) != Semicolon))
  }

  lemma {:induction false} OneRead(ts: seq<Tok>, done: seq<Ast.Stmt>, j: nat, x: Ast.Stmt, r: nat, k: nat)
    requires j < |ts| && Kind(ts, j) != RBrace && Kind(ts, j) != Eof && Statement(ts, j) == Done(x, r)
    requires EndsAt(ts, r, k)
    ensures BlockLoop(ts, done, j, true) == BlockLoop(ts, done + [x], k, true)
  {
    hide Statement;
  }

  lemma {:induction false} OneInProgram(ts: seq<Tok>, done: seq<Ast.Stmt>, j: nat, x: Ast.Stmt, r: nat, k: nat)
    requires j < |ts| && Kind(ts, j) != Eof && Statement(ts, j) == Done(x, r) && EndsAt(ts, r, k)
    ensures ProgramLoop(ts, done, j, true) == ProgramLoop(ts, done + [x], k, true)
  {
    hide Statement;
  }

  lemma {:induction false} BareReturn()
    ensures |TokS(Ast.Return(None))| == 1
  {
  }

  /** What follows a statement's semicolon is no semicolon. */
  lemma {:induction false} AfterStatement(ts: seq<Tok>, i: nat, b: seq<Ast.Stmt>)
    requires OkB(b) && Has(ts, i, TokB(b)) && Kind(ts, i + |TokB(b)|) != Semicolon
    ensures Kind(ts, i) != Semicolon
  {
    hide Has, TokS, OkS, Kind;
    if b != [] {
      HasCat(ts, i, TokS(b[0]), Key(Semicolon) + TokB(b[1..]));
      StatementStarts(b[0], ts, i);
    }
  }

  /** The first statement of a block or a program, and where the others are. */
  lemma {:induction false} StepOf(b: seq<Ast.Stmt>, done: seq<Ast.Stmt>, ts: seq<Tok>, j: nat)
    requires OkB(b) && b != [] && Has(ts, j, TokB(b)) && Kind(ts, j + |TokB(b)|) != Semicolon
    ensures var k := j + |TokS(b[0])| + 1;
            && j <= |ts| && k <= |ts| && Has(ts, k, TokB(b[1..])) && |TokB(b)| == |TokS(b[0])| + 1 + |TokB(b[1..])|
            && BlockLoop(ts, done, j, true) == BlockLoop(ts, done + [b[0]], k, true)
            && ProgramLoop(ts, done, j, true) == ProgramLoop(ts, done + [b[0]], k, true)
    decreases b, 0
  {
    hide Has, TokS, OkS, Statement, BlockLoop, ProgramLoop, Kind;
    var a, rest := TokS(b[0]), TokB(b[1..]);
    HasThen(ts, j, a, Semicolon, rest);
    assert a + (Key(Semicolon) + rest) == (a + Key(Semicolon)) + rest;
    HasCat(ts, j, a + Key(Semicolon), rest);
    StatementOf(b[0], ts, j, Semicolon);
    AfterStatement(ts, j + |a| + 1, b[1..]);
    BlockStep(ts, done, j, b[0]);
  }

  lemma {:induction false} StatementsOf(b: seq<Ast.Stmt>, done: seq<Ast.Stmt>, ts: seq<Tok>, j: nat)
    requires OkB(b) && Has(ts, j, TokB(b)) && Kind(ts, j + |TokB(b)|) == RBrace
    ensures BlockLoop(ts, done, j, true) == Done(done + b, j + |TokB(b)|)
    decreases b, 1
  {
    hide Has, TokB, OkS, BlockLoop, ProgramLoop;
    if b == [] {
      NoStatements(b);
      BlockEnds(ts, done, j);
      assert done + b == done;
    } else {
      StepOf(b, done, ts, j);
      StatementsOf(b[1..], done + [b[0]], ts, j + |TokS(b[0])| + 1);
      assert (done + [b[0]]) + b[1..] == done + b;
    }
  }

  lemma {:induction false} NoStatements(b: seq<Ast.Stmt>)
    requires b == []
    ensures TokB(b) == []
  {
  }

  lemma {:induction false} BlockEnds(ts: seq<Tok>, done: seq<Ast.Stmt>, j: nat)
    requires Kind(ts, j) == RBrace
    ensures BlockLoop(ts, done, j, true) == Done(done, j)
  {
  }

  /** From the opening brace at i to the closing one. */
  lemma {:induction false} BlockOf(b: seq<Ast.Stmt>, ts: seq<Tok>, i: nat, rest: seq<Tok>)
    requires OkB(b) && i < |ts| && Has(ts, i + 1, TokB(b) + (Key(RBrace) + rest))
    ensures var k := i + 1 + |TokB(b)|; Block(ts, i) == Done(b, k) && k < |ts| && Has(ts, k + 1, rest)
    decreases b, 2
  {
    hide Has, TokB, OkB, BlockLoop;
    HasThen(ts, i + 1, TokB(b), RBrace, rest);
    StatementsOf(b, [], ts, i + 1);
    assert [] + b == b;
  }

  // ---- control flow ----

  lemma {:induction false} ConditionRead(ts: seq<Tok>, i: nat, t: Tree, k: nat)
    requires i + 1 < |ts| && ts[i + 1].kind == LParen && ParseExpression(ts, i + 2, LOWEST) == Done(t, k)
    requires k + 2 < |ts| && ts[k + 1].kind == RParen && ts[k + 2].kind == LBrace
    ensures Condition(ts, i) == Done(Erase(t), k + 2)
  {
    hide ParseExpression, Erase;
  }

  /** `(` c `) {` behind the keyword at i. */
  lemma {:induction false} ConditionOf(c: Ast.Expr, ts: seq<Tok>, i: nat, rest: seq<Tok>)
    requires OkE(c) && i < |ts| && Has(ts, i + 1, Key(LParen) + (TokE(c) + (Key(RParen) + (Key(LBrace) + rest))))
    ensures var k := i + 3 + |TokE(c)|; k < |ts| && Condition(ts, i) == Done(c, k) && Has(ts, k + 1, rest)
    decreases c, 5
  {
    hide Has, TokE, OkE, ParseExpression, Erase, Opens, Closes, Condition, Kind;
    Closing();
    var a := TokE(c);
    HasKey(ts, i + 1, LParen, a + (Key(RParen) + (Key(LBrace) + rest)));
    HasThen(ts, i + 2, a, RParen, Key(LBrace) + rest);
    HasKey(ts, i + 3 + |a|, LBrace, rest);
    var t := WholeOf(c, ts, i + 2);
    ConditionRead(ts, i, t, i + 1 + |a|);
  }

  // ---- forms that start with their keyword ----

  lemma {:induction false} IfPrimary(ts: seq<Tok>, i: nat, e: Ast.Expr, j: nat)
    requires i < |ts| && ts[i].kind == IfT && IfTail(ts, i) == Done(e, j)
    ensures Primary(ts, i) == Done(TOther(e), j)
  {
    hide IfTail;
  }

  lemma {:induction false} WhilePrimary(ts: seq<Tok>, i: nat, e: Ast.Expr, j: nat)
    requires i < |ts| && ts[i].kind == WhileT && WhileTail(ts, i) == Done(e, j)
    ensures Primary(ts, i) == Done(TOther(e), j)
  {
    hide WhileTail;
  }

  lemma {:induction false} ForPrimary(ts: seq<Tok>, i: nat, e: Ast.Expr, j: nat)
    requires i < |ts| && ts[i].kind == ForT && ForTail(ts, i) == Done(e, j)
    ensures Primary(ts, i) == Done(TOther(e), j)
  {
    hide ForTail;
  }

  lemma {:induction false} FunctionPrimary(ts: seq<Tok>, i: nat, e: Ast.Expr, j: nat)
    requires i < |ts| && ts[i].kind == FunctionT && FunctionTail(ts, i) == Done(e, j)
    ensures Primary(ts, i) == Done(TOther(e), j)
  {
    hide FunctionTail;
  }

  /** What is read is the expression itself. */
  lemma {:induction false} FormRead(e: Ast.Expr, ts: seq<Tok>, i: nat, n: nat)
    requires n == |TokE(e)| > 0 && i + n <= |ts| && Primary(ts, i) == Done(TOther(e), i + n - 1)
    ensures ReadsE(e, ts, i, TOther(e))
  {
    hide TokE, Primary;
  }

  lemma {:induction false} WhileOf(e: Ast.Expr, ts: seq<Tok>, i: nat) returns (t: Tree)
    requires e.While? && OkE(e) && Has(ts, i, TokE(e))
    ensures ReadsE(e, ts, i, t)
    decreases e, 1
  {
    hide Has, Primary, TokE, OkE, TokB, OkB, Condition, Block, ReadsE;
    var While(c, b) := e;
    WhileTokens(c, b);
    var body := TokB(b) + Key(RBrace);
    var rest := Key(LParen) + (TokE(c) + (Key(RParen) + (Key(LBrace) + body)));
    HasKey(ts, i, WhileT, rest);
    ConditionOf(c, ts, i, body);
    var k := i + 3 + |TokE(c)|;
    LastBlock(b, ts, k);
    assert WhileTail(ts, i) == Done(e, k + 1 + |TokB(b)|);
    WhilePrimary(ts, i, e, k + 1 + |TokB(b)|);
    FormRead(e, ts, i, 5 + |TokE(c)| + |TokB(b)|);
    t := TOther(e);
  }

  lemma {:induction false} WhileTokens(c: Ast.Expr, b: seq<Ast.Stmt>)
    ensures TokE(Ast.While(c, b))
         == Key(WhileT) + (Key(LParen) + (TokE(c) + (Key(RParen) + (Key(LBrace) + (TokB(b) + Key(RBrace))))))
    ensures OkE(Ast.While(c, b)) == (OkE(c) && OkB(b))
    ensures |TokE(Ast.While(c, b))| == 5 + |TokE(c)| + |TokB(b)|
  {
    hide TokB, OkB;
  }

  /** `if (` c `) {` x `}`: where the block starts and ends. */
  lemma {:induction false} ThenOf(e: Ast.Expr, c: Ast.Expr, x: seq<Ast.Stmt>, ts: seq<Tok>, i: nat, rest: seq<Tok>)
    requires OkE(c) && OkB(x) && e.If? && e.cond == c && e.conseq == x
    requires Has(ts, i, Key(IfT) + (Key(LParen) + (TokE(c) + (Key(RParen) + (Key(LBrace) + (TokB(x) + (Key(RBrace)
                 + rest)))))))
    ensures var k := i + 3 + |TokE(c)|;
            var m := k + 1 + |TokB(x)|;
            && i < |ts| && ts[i].kind == IfT && Condition(ts, i) == Done(c, k) && k < |ts| && Block(ts, k) == Done(x, m)
            && m < |ts| && Has(ts, m + 1, rest)
    decreases e, 0
  {
    hide Has, TokE, OkE, TokB, OkB, Condition, Block;
    var body := TokB(x) + (Key(RBrace) + rest);
    HasKey(ts, i, IfT, Key(LParen) + (TokE(c) + (Key(RParen) + (Key(LBrace) + body))));
    ConditionOf(c, ts, i, body);
    BlockOf(x, ts, i + 3 + |TokE(c)|, rest);
  }

  lemma {:induction false} IfOf(e: Ast.Expr, ts: seq<Tok>, i: nat) returns (t: Tree)
    requires e.If? && OkE(e) && Has(ts, i, TokE(e)) && Kind(ts, i + |TokE(e)|) != ElseT
    ensures ReadsE(e, ts, i, t)
    decreases e, 1
  {
    hide Has, Primary, TokE, OkE, TokB, OkB, TokAlt, OkAlt, Condition, Block, ReadsE, IfTail, Kind;
    var If(c, x, alt) := e;
    IfTokens(c, x, alt);
    HasSize(ts, i, TokE(e));
    ThenOf(e, c, x, ts, i, TokAlt(alt));
    AltOf(alt, c, x, ts, i, i + 3 + |TokE(c)|);
    var n := 5 + |TokE(c)| + |TokB(x)| + |TokAlt(alt)|;
    IfPrimary(ts, i, e, i + n - 1);
    FormRead(e, ts, i, n);
    t := TOther(e);
  }

  lemma {:induction false} IfTokens(c: Ast.Expr, x: seq<Ast.Stmt>, alt: Ast.Alternative)
    ensures TokE(Ast.If(c, x, alt))
         == Key(IfT) + (Key(LParen) + (TokE(c) + (Key(RParen)
           + (Key(LBrace) + (TokB(x) + (Key(RBrace) + TokAlt(alt)))))))
    ensures OkE(Ast.If(c, x, alt)) == (OkE(c) && OkB(x) && OkAlt(alt))
    ensures |TokE(Ast.If(c, x, alt))| == 5 + |TokE(c)| + |TokB(x)| + |TokAlt(alt)|
  {
    hide TokB, OkB, TokAlt, OkAlt;
  }

  /** What follows the consequence, whose brace closes at k + 1 + |TokB(x)|. */
  lemma {:induction false} AltOf(alt: Ast.Alternative, c: Ast.Expr, x: seq<Ast.Stmt>, ts: seq<Tok>, i: nat, k: nat)
    requires OkAlt(alt) && i < |ts| && i <= k < |ts| && Condition(ts, i) == Done(c, k)
    requires var m := k + 1 + |TokB(x)|;
             && Block(ts, k) == Done(x, m) && m < |ts| && Has(ts, m + 1, TokAlt(alt))
             && Kind(ts, m + 1 + |TokAlt(alt)|) != ElseT
    ensures IfTail(ts, i) == Done(Ast.If(c, x, alt), k + 1 + |TokB(x)| + |TokAlt(alt)|)
    decreases alt, 1
  {
    hide Has, TokB, OkB, Condition, Block, IfTail, Kind;
    var m := k + 1 + |TokB(x)|;
    if alt.Else? {
      var y := alt.body;
      HasKey(ts, m + 1, ElseT, Key(LBrace) + (TokB(y) + Key(RBrace)));
      HasKey(ts, m + 2, LBrace, TokB(y) + Key(RBrace));
      LastBlock(y, ts, m + 2);
      ElseRead(ts, i, c, x, y, k, m, m + 3 + |TokB(y)|);
    } else {
      NoElseRead(ts, i, c, x, k, m);
    }
  }

  lemma {:induction false} NoElseRead(ts: seq<Tok>, i: nat, c: Ast.Expr, x: seq<Ast.Stmt>, k: nat, m: nat)
    requires i < |ts| && Condition(ts, i) == Done(c, k) && k < |ts| && Block(ts, k) == Done(x, m)
    requires Kind(ts, m + 1) != ElseT
    ensures IfTail(ts, i) == Done(Ast.If(c, x, Ast.NoElse), m)
  {
    hide Condition, Block;
  }

  lemma {:induction false} ElseRead(ts: seq<Tok>, i: nat, c: Ast.Expr, x: seq<Ast.Stmt>, y: seq<Ast.Stmt>, k: nat,
                                    m: nat,
                                    n: nat)
    requires i < |ts| && Condition(ts, i) == Done(c, k) && k < |ts| && Block(ts, k) == Done(x, m)
    requires m + 2 < |ts| && ts[m + 1].kind == ElseT && ts[m + 2].kind == LBrace && Block(ts, m + 2) == Done(y, n)
    ensures IfTail(ts, i) == Done(Ast.If(c, x, Ast.Else(y)), n)
  {
    hide Condition, Block;
  }

  /** `else if` is short for a block with that one statement. */
  lemma {:induction false} ElseIfOf(c: Ast.Expr, x: seq<Ast.Stmt>, e: Ast.Expr, ts: seq<Tok>, i: nat)
    requires OkE(c) && OkB(x) && e.If? && OkE(e)
    requires Has(ts, i, Key(IfT) + (Key(LParen) + (TokE(c) + (Key(RParen) + (Key(LBrace) + (TokB(x) + (Key(RBrace)
                 + (Key(ElseT) + TokE(e)))))))))
    requires Closes(Kind(ts, i + 6 + |TokE(c)| + |TokB(x)| + |TokE(e)|))
    ensures Primary(ts, i)
         == Done(TOther(Ast.If(c, x, Ast.Else([Ast.ExprStmt(e)]))), i + 5 + |TokE(c)| + |TokB(x)| + |TokE(e)|)
  {
    hide Has, TokE, OkE, TokB, OkB, Condition, Block, Statement, Opens, ParseExpression, Closes, Kind, Erase;
    ThenOf(Ast.If(c, x, Ast.NoElse), c, x, ts, i, Key(ElseT) + TokE(e));
    var k := i + 3 + |TokE(c)|;
    var m := k + 1 + |TokB(x)|;
    HasKey(ts, m + 1, ElseT, TokE(e));
    IfAt(e, ts, m + 2);
    ElseIfRead(ts, i, c, x, e, k, m, m + 1 + |TokE(e)|);
  }

  lemma {:induction false} ElseIfRead(ts: seq<Tok>, i: nat, c: Ast.Expr, x: seq<Ast.Stmt>, e: Ast.Expr, k: nat, m: nat,
                                      n: nat)
    requires i < |ts| && ts[i].kind == IfT && Condition(ts, i) == Done(c, k) && k < |ts| && Block(ts, k) == Done(x, m)
    requires m + 2 < |ts| && ts[m + 1].kind == ElseT && ts[m + 2].kind == IfT
    requires Statement(ts, m + 2) == Done(Ast.ExprStmt(e), n)
    ensures Primary(ts, i) == Done(TOther(Ast.If(c, x, Ast.Else([Ast.ExprStmt(e)]))), n)
  {
    hide Condition, Block, Statement;
  }

  lemma {:induction false} IfAt(e: Ast.Expr, ts: seq<Tok>, i: nat)
    requires e.If? && OkE(e) && Has(ts, i, TokE(e)) && Closes(Kind(ts, i + |TokE(e)|))
    ensures i < |ts| && ts[i].kind == IfT && Statement(ts, i) == Done(Ast.ExprStmt(e), i + |TokE(e)| - 1)
  {
    hide Has, TokE, OkE, Statement, Opens, ParseExpression, Closes, Kind, Erase;
    var t := WholeOf(e, ts, i);
    IfStarts(e);
    HasFirst(ts, i, TokE(e));
    ExpressionStatement(ts, i, t, i + |TokE(e)| - 1);
  }

  lemma {:induction false} IfStarts(e: Ast.Expr)
    requires e.If?
    ensures TokE(e) != [] && TokE(e)[0].kind == IfT
  {
  }

  lemma {:induction false} NoClause(ts: seq<Tok>, j: nat, end: TokenType)
    requires j < |ts| && Kind(ts, j + 1) == end && (end == Semicolon || end == RParen)
    ensures Clause(ts, j, end) == Done(Ast.Empty, j + 1)
  {
  }

  lemma {:induction false} ClauseRead(ts: seq<Tok>, j: nat, end: TokenType, x: Ast.Stmt, k: nat)
    requires j < |ts| && Kind(ts, j + 1) != end && Statement(ts, j + 1) == Done(x, k) && Kind(ts, k + 1) == end
    requires end == Semicolon || end == RParen
    ensures Clause(ts, j, end) == Done(x, k + 1)
  {
    hide Statement;
  }

  /** A clause of a `for`, or none, up to its end. */
  lemma {:induction false} ClauseOf(x: Ast.Stmt, ts: seq<Tok>, j: nat, end: TokenType, rest: seq<Tok>)
    requires OkClause(x) && j < |ts| && Has(ts, j + 1, TokS(x) + (Key(end) + rest))
    requires (end == Semicolon || end == RParen)
    ensures var k := j + 1 + |TokS(x)|; k < |ts| && Clause(ts, j, end) == Done(x, k) && Has(ts, k + 1, rest)
    decreases x, 2
  {
    hide Has, TokS, OkS, Statement, Clause, Kind;
    HasThen(ts, j + 1, TokS(x), end, rest);
    if x == Ast.Empty {
      NoTokens(x);
      NoClause(ts, j, end);
    } else {
      StartS(x);
      StatementOf(x, ts, j + 1, end);
      StatementStarts(x, ts, j + 1);
      ClauseRead(ts, j, end, x, j + |TokS(x)|);
    }
  }

  lemma {:induction false} NoTokens(x: Ast.Stmt)
    requires x == Ast.Empty
    ensures TokS(x) == []
  {
  }

  lemma {:induction false} NoTest(ts: seq<Tok>, j: nat)
    requires j < |ts| && Kind(ts, j + 1) == Semicolon
    ensures Test(ts, j) == Done(None, j + 1)
  {
  }

  lemma {:induction false} TestRead(ts: seq<Tok>, j: nat, t: Tree, k: nat)
    requires j < |ts| && Kind(ts, j + 1) != Semicolon && ParseExpression(ts, j + 1, LOWEST) == Done(t, k)
    requires Kind(ts, k + 1) == Semicolon
    ensures Test(ts, j) == Done(Some(Erase(t)), k + 1)
  {
    hide ParseExpression, Erase;
  }

  lemma {:induction false} TestOf(y: Option<Ast.Expr>, ts: seq<Tok>, j: nat, rest: seq<Tok>)
    requires OkO(y) && j < |ts| && Has(ts, j + 1, TokO(y) + (Key(Semicolon) + rest))
    ensures var k := j + 1 + |TokO(y)|; k < |ts| && Test(ts, j) == Done(y, k) && Has(ts, k + 1, rest)
    decreases y, 5
  {
    hide Has, TokE, OkE, ParseExpression, Test, Erase, Kind, Opens, Closes;
    Closing();
    HasThen(ts, j + 1, TokO(y), Semicolon, rest);
    match y
    case None => NoTest(ts, j);
    case Some(e) =>
      var t := WholeOf(e, ts, j + 1);
      NotSemicolon(ts, j + 1);
      TestRead(ts, j, t, j + |TokE(e)|);
  }

  lemma {:induction false} NotSemicolon(ts: seq<Tok>, i: nat)
    requires Opens(Kind(ts, i))
    ensures Kind(ts, i) != Semicolon
  {
    hide Kind;
  }

  lemma {:induction false} ForOf(e: Ast.Expr, ts: seq<Tok>, i: nat) returns (t: Tree)
    requires e.For? && OkE(e) && Has(ts, i, TokE(e))
    ensures ReadsE(e, ts, i, t)
    decreases e, 1
  {
    hide Has, Primary, TokE, OkE, TokS, OkClause, TokO, OkO, TokB, OkB, ReadsE, ForTail;
    var For(init, test, inc, b) := e;
    ForTokens(init, test, inc, b);
    var n := 7 + |TokS(init)| + |TokO(test)| + |TokS(inc)| + |TokB(b)|;
    HasSize(ts, i, TokE(e));
    ForAt(e, ts, i, TokS(e.inc) + (Key(RParen) + (Key(LBrace) + (TokB(e.body) + Key(RBrace)))));
    ForPrimary(ts, i, e, i + n - 1);
    FormRead(e, ts, i, n);
    t := TOther(e);
  }

  lemma {:induction false} ForAt(e: Ast.Expr, ts: seq<Tok>, i: nat, third: seq<Tok>)
    requires e.For? && OkClause(e.init) && OkO(e.test) && OkClause(e.inc) && OkB(e.body)
    requires third == TokS(e.inc) + (Key(RParen) + (Key(LBrace) + (TokB(e.body) + Key(RBrace))))
    requires Has(ts, i, Key(ForT) + (Key(LParen) + (TokS(e.init) + (Key(Semicolon) + (TokO(e.test) + (Key(Semicolon)
                 + third))))))
    ensures i < |ts| && ts[i].kind == ForT
    ensures ForTail(ts, i) == Done(e, i + 6 + |TokS(e.init)| + |TokO(e.test)| + |TokS(e.inc)| + |TokB(e.body)|)
    decreases e, 0
  {
    hide Has, TokS, OkClause, TokO, OkO, TokB, OkB, Clause, Test, Block, ForTail;
    var second := TokO(e.test) + (Key(Semicolon) + third);
    var first := TokS(e.init) + (Key(Semicolon) + second);
    HasKey(ts, i, ForT, Key(LParen) + first);
    HasKey(ts, i + 1, LParen, first);
    ClauseOf(e.init, ts, i + 1, Semicolon, second);
    var j := i + 2 + |TokS(e.init)|;
    TestOf(e.test, ts, j, third);
    var k := j + 1 + |TokO(e.test)|;
    ClauseOf(e.inc, ts, k, RParen, Key(LBrace) + (TokB(e.body) + Key(RBrace)));
    var m := k + 1 + |TokS(e.inc)|;
    HasKey(ts, m + 1, LBrace, TokB(e.body) + Key(RBrace));
    LastBlock(e.body, ts, m + 1);
    ForRead(ts, i, e, j, k, m, m + 2 + |TokB(e.body)|);
  }

  lemma {:induction false} LastBlock(b: seq<Ast.Stmt>, ts: seq<Tok>, i: nat)
    requires OkB(b) && i < |ts| && Has(ts, i + 1, TokB(b) + Key(RBrace))
    ensures Block(ts, i) == Done(b, i + 1 + |TokB(b)|)
    decreases b, 3
  {
    hide Has, TokB, OkB, Block;
    assert Key(RBrace) == Key(RBrace) + [];
    BlockOf(b, ts, i, []);
  }

  lemma {:induction false} ForRead(ts: seq<Tok>, i: nat, e: Ast.Expr, j: nat, k: nat, m: nat, n: nat)
    requires e.For? && i + 1 < |ts| && ts[i + 1].kind == LParen && Clause(ts, i + 1, Semicolon) == Done(e.init, j)
    requires j < |ts| && Test(ts, j) == Done(e.test, k) && k < |ts| && Clause(ts, k, RParen) == Done(e.inc, m)
    requires m + 1 < |ts| && ts[m + 1].kind == LBrace && Block(ts, m + 1) == Done(e.body, n)
    ensures ForTail(ts, i) == Done(e, n)
  {
    hide Clause, Test, Block;
  }

  lemma {:induction false} ForTokens(init: Ast.Stmt, test: Option<Ast.Expr>, inc: Ast.Stmt, b: seq<Ast.Stmt>)
    ensures TokE(Ast.For(init, test, inc, b))
         == Key(ForT) + (Key(LParen) + (TokS(init) + (Key(Semicolon) + (TokO(test) + (Key(Semicolon) + (TokS(inc)
                    + (Key(RParen) + (Key(LBrace) + (TokB(b) + Key(RBrace))))))))))
    ensures OkE(Ast.For(init, test, inc, b)) == (OkClause(init) && OkO(test) && OkClause(inc) && OkB(b))
    ensures |TokE(Ast.For(init, test, inc, b))| == 7 + |TokS(init)| + |TokO(test)| + |TokS(inc)| + |TokB(b)|
  {
    hide TokS, OkClause, TokO, OkO, TokB, OkB;
  }

  // ---- functions ----

  lemma {:induction false} FirstOfMore(names: seq<string>)
    ensures MoreNames(names) == if names == [] then [] else Key(Comma) + ([Name(names[0])] + MoreNames(names[1..]))
    ensures names != [] ==> |MoreNames(names)| == 2 + |MoreNames(names[1..])|
  {
  }

  lemma {:induction false} ParamsEnd(ts: seq<Tok>, done: seq<string>, j: nat)
    requires j < |ts| && Kind(ts, j + 1) == RParen
    ensures ParamLoop(ts, done, j) == Done(done, j + 1)
  {
  }

  lemma {:induction false} ParamRead(ts: seq<Tok>, done: seq<string>, j: nat, name: string)
    requires j + 2 < |ts| && ts[j + 1].kind == Comma && ts[j + 2] == Name(name)
    ensures ParamLoop(ts, done, j) == ParamLoop(ts, done + [name], j + 2)
  {
  }

  lemma {:induction false} NamesRegroup<T>(a: seq<T>, b: seq<T>, c: seq<T>, d: seq<T>)
    ensures (a + (b + c)) + d == a + (b + (c + d)) && (b + c) + d == b + (c + d)
  {
  }

  lemma {:induction false} MoreParams(names: seq<string>, done: seq<string>, ts: seq<Tok>, j: nat, rest: seq<Tok>)
    requires j < |ts| && Has(ts, j + 1, MoreNames(names) + (Key(RParen) + rest))
    ensures var k := j + 1 + |MoreNames(names)|;
            k < |ts| && ParamLoop(ts, done, j) == Done(done + names, k) && Has(ts, k + 1, rest)
    decreases |names|
  {
    hide Has, ParamLoop, MoreNames;
    FirstOfMore(names);
    HasThen(ts, j + 1, MoreNames(names), RParen, rest);
    if names == [] {
      ParamsEnd(ts, done, j);
      assert done + names == done;
    } else {
      var more, tail := MoreNames(names[1..]), Key(RParen) + rest;
      NamesRegroup(Key(Comma), [Name(names[0])], more, tail);
      HasKey(ts, j + 1, Comma, [Name(names[0])] + (more + tail));
      HasTok(ts, j + 2, Name(names[0]), more + tail);
      ParamRead(ts, done, j, names[0]);
      MoreParams(names[1..], done + [names[0]], ts, j + 2, rest);
      assert (done + [names[0]]) + names[1..] == done + names;
    }
  }

  lemma {:induction false} ParamsOf(names: seq<string>, ts: seq<Tok>, j: nat, rest: seq<Tok>)
    requires j < |ts| && Has(ts, j + 1, TokNames(names) + (Key(RParen) + rest))
    ensures var k := j + 1 + |TokNames(names)|; k < |ts| && Params(ts, j) == Done(names, k) && Has(ts, k + 1, rest)
  {
    hide Has, ParamLoop, MoreNames;
    HasThen(ts, j + 1, TokNames(names), RParen, rest);
    if names != [] {
      var more, tail := MoreNames(names[1..]), Key(RParen) + rest;
      NamesRegroup([], [Name(names[0])], more, tail);
      HasTok(ts, j + 1, Name(names[0]), more + tail);
      MoreParams(names[1..], [names[0]], ts, j + 1, rest);
      assert [names[0]] + names[1..] == names;
    }
  }

  lemma {:induction false} FunctionOf(e: Ast.Expr, ts: seq<Tok>, i: nat) returns (t: Tree)
    requires e.Function? && OkE(e) && Has(ts, i, TokE(e))
    ensures ReadsE(e, ts, i, t)
    decreases e, 1
  {
    hide Has, Primary, TokE, OkE, TokNames, TokB, OkB, Params, Block, ReadsE, FunctionTail;
    var Function(names, b) := e;
    FunctionTokens(names, b);
    var body := TokB(b) + Key(RBrace);
    var rest := TokNames(names) + (Key(RParen) + (Key(LBrace) + body));
    HasKey(ts, i, FunctionT, Key(LParen) + rest);
    HasKey(ts, i + 1, LParen, rest);
    ParamsOf(names, ts, i + 1, Key(LBrace) + body);
    var k := i + 2 + |TokNames(names)|;
    HasKey(ts, k + 1, LBrace, body);
    LastBlock(b, ts, k + 1);
    FunctionRead(ts, i, e, k, k + 2 + |TokB(b)|);
    FunctionPrimary(ts, i, e, k + 2 + |TokB(b)|);
    FormRead(e, ts, i, 5 + |TokNames(names)| + |TokB(b)|);
    t := TOther(e);
  }

  lemma {:induction false} FunctionRead(ts: seq<Tok>, i: nat, e: Ast.Expr, k: nat, n: nat)
    requires e.Function? && i + 1 < |ts| && ts[i + 1].kind == LParen && Params(ts, i + 1) == Done(e.params, k)
    requires k + 1 < |ts| && ts[k + 1].kind == LBrace && Block(ts, k + 1) == Done(e.body, n)
    ensures FunctionTail(ts, i) == Done(e, n)
  {
    hide Params, Block;
  }

  lemma {:induction false} FunctionTokens(names: seq<string>, b: seq<Ast.Stmt>)
    ensures TokE(Ast.Function(names, b))
         == Key(FunctionT) + (Key(LParen) + (TokNames(names) + (Key(RParen) + (Key(LBrace) + (TokB(b) + Key(RBrace))))))
    ensures OkE(Ast.Function(names, b)) == OkB(b)
    ensures |TokE(Ast.Function(names, b))| == 5 + |TokNames(names)| + |TokB(b)|
  {
    hide TokB, OkB, TokNames;
  }

  // ---- programs ----

  lemma {:induction false} ProgramOf(b: seq<Ast.Stmt>, done: seq<Ast.Stmt>, ts: seq<Tok>, j: nat)
    requires OkB(b) && Has(ts, j, TokB(b)) && j + |TokB(b)| == |ts|
    ensures ProgramLoop(ts, done, j, true) == Done(done + b, |ts|)
    decreases b, 2
  {
    hide Has, TokB, OkS, BlockLoop, ProgramLoop;
    if b == [] {
      NoStatements(b);
      ProgramEnds(ts, done);
      assert done + b == done;
    } else {
      StepOf(b, done, ts, j);
      ProgramOf(b[1..], done + [b[0]], ts, j + |TokS(b[0])| + 1);
      assert (done + [b[0]]) + b[1..] == done + b;
    }
  }

  lemma {:induction false} ProgramEnds(ts: seq<Tok>, done: seq<Ast.Stmt>)
    ensures ProgramLoop(ts, done, |ts|, true) == Done(done, |ts|)
  {
  }

  /**
   The round trip of whole programs: the parser makes of the tokens of any syntax
   tree that tree, in every part, and has then read all of them.
   */
  lemma {:induction false} ProgramReparses(b: seq<Ast.Stmt>)
    requires OkB(b)
    ensures ProgramLoop(TokB(b), [], 0, true) == Done(b, |TokB(b)|)
  {
    hide TokB, OkB, ProgramLoop;
    var ts := TokB(b);
    assert ts[0..|ts|] == ts;
    ProgramOf(b, [], ts, 0);
    assert [] + b == b;
  }
}
