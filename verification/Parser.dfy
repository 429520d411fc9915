/** The grammar that the Pratt parser reads (src/parser.c), as functions of the token sequence. */
module Parsing {
  import opened Wrappers
  import opened Lexing
  import Ast

  /** A token for the parser; a string token holds its characters as written. */
  datatype Tok = Tok(kind: TokenType, text: string)

  // ---- precedence ----

  const LOWEST: nat := 1
  const ASSIGN: nat := 2
  const LOGICAL_OR: nat := 3
  const LOGICAL_AND: nat := 4
  const EQUALS: nat := 5
  const LESSGREATER: nat := 6
  const SUM: nat := 7
  const PRODUCT: nat := 8
  const PREFIX: nat := 9
  const CALL: nat := 10
  const INDEX: nat := 11

  function Prec(t: TokenType): (p: nat)
    ensures LOWEST <= p <= INDEX
  {
    match t
    case AssignT => ASSIGN
    case OrT => LOGICAL_OR
    case AndT => LOGICAL_AND
    case EqT => EQUALS case NotEqT => EQUALS
    case Lte => LESSGREATER case Lt => LESSGREATER case Gt => LESSGREATER case Gte => LESSGREATER
    case Plus => SUM case Minus => SUM
    case Percent => PRODUCT case Slash => PRODUCT case Asterisk => PRODUCT
    case LParen => CALL
    case LBracket => INDEX
    case _ => LOWEST
  }

  /** Tokens that join two operands. */
  predicate IsInfix(t: TokenType) { LOGICAL_OR <= Prec(t) <= PRODUCT }

  function OperatorOf(t: TokenType): Ast.Operator {
    match t
    case Plus => Ast.Add case Minus => Ast.Subtract case Asterisk => Ast.Multiply case Slash => Ast.Divide
      case Percent => Ast.Modulo
    case Lt => Ast.Lt case Lte => Ast.Lte case Gt => Ast.Gt case Gte => Ast.Gte
    case EqT => Ast.Eq case NotEqT => Ast.NotEq case AndT => Ast.And case OrT => Ast.Or
    case Bang => Ast.Negate
    case _ => Ast.Unknown
  }

  // ---- trees ----

  /** What was read, groups included; statements inside are already in their final form. */
  datatype Tree =
    | TIdent(name: string)
    | TInt(digits: string)
    | TBool(b: bool)
    | TString(raw: string)
    | TGroup(inner: Tree)
    | TPrefix(op: TokenType, right: Tree)
    | TInfix(op: TokenType, left: Tree, right: Tree)
    | TPostfix(op: TokenType, left: Tree)
    | TAssign(left: Tree, right: Tree)
    | TCall(left: Tree, args: seq<Tree>)
    | TArray(elems: seq<Tree>)
    | TIndex(left: Tree, index: Tree)
    | TSlice(left: Tree, start: Option<Tree>, end: Option<Tree>)
    | TOther(e: Ast.Expr)

  function IntValue(digits: string): nat {
    if digits == "" then 0
    else IntValue(digits[..|digits| - 1]) * 10 + (if '0' <= digits[|digits| - 1] <= '9' then
      digits[|digits| - 1] as int - '0' as int else 0)
  }

  /** Groups leave no trace; an assignment takes the form of its left-hand side. */
  function Erase(t: Tree): Ast.Expr
    decreases t, 0
  {
    match t
    case TIdent(name) => Ast.Ident(name)
    case TInt(digits) => Ast.IntLit(IntValue(digits))
    case TBool(b) => Ast.BoolLit(b)
    case TString(raw) => Ast.StringLit(Unescape(raw))
    case TGroup(inner) => Erase(inner)
    case TPrefix(op, r) => Ast.Prefix(OperatorOf(op), Erase(r))
    case TInfix(op, l, r) => Ast.Infix(OperatorOf(op), Erase(l), Erase(r))
    case TPostfix(op, l) => (match Erase(l) case Ident(name) => Ast.Postfix(OperatorOf(op), name) case e => e)
    case TAssign(l, r) =>
      (match Erase(l)
       case Ident(name) => Ast.Assign(name, Erase(r))
       case Index(x, i) => Ast.AssignIndex(x, i, Erase(r))
       case e => e)
    case TCall(f, args) => Ast.Call(Erase(f), EraseAll(args))
    case TArray(elems) => Ast.ArrayLit(EraseAll(elems))
    case TIndex(l, i) => Ast.Index(Erase(l), Erase(i))
    case TSlice(l, s, e) =>
      Ast.Slice(Erase(l), (match s case None => None case Some(x) => Some(Erase(x))),
        (match e case None => None case Some(x) => Some(Erase(x))))
    case TOther(e) => e
  }

  function EraseAll(ts: seq<Tree>): (es: seq<Ast.Expr>)
    ensures |es| == |ts|
    decreases ts, 0
  {
    if ts == [] then [] else [Erase(ts[0])] + EraseAll(ts[1..])
  }

  // ---- the parser ----

  /** The position is that of the current token; a failure has an error message in the C code. */
  datatype Parse<T> = Fail(at: nat) | Done(value: T, at: nat)

  /** Past the end there is only EOF. */
  function Kind(ts: seq<Tok>, i: nat): TokenType { if i < |ts| then ts[i].kind else Eof }

  function Advance(ts: seq<Tok>, i: nat): (j: nat)
    requires i <= |ts|
    ensures i <= j <= |ts| && (i < |ts| ==> j == i + 1)
  {
    if i < |ts| then i + 1 else i
  }

  /** skip_forward: to the next semicolon. */
  function SkipForward(ts: seq<Tok>, i: nat): (j: nat)
    requires i <= |ts|
    ensures i <= j <= |ts|
    decreases |ts| - i
  {
    if i == |ts| || ts[i].kind == Semicolon || ts[i].kind == Eof then i else SkipForward(ts, i + 1)
  }

  predicate NextIs(ts: seq<Tok>, i: nat, kind: TokenType) { i + 1 < |ts| && ts[i + 1].kind == kind }

  /** advance_to_next_token. */
  function Expect(ts: seq<Tok>, i: nat, kind: TokenType): (r: Parse<()>)
    requires i <= |ts|
    ensures i <= r.at <= |ts| && (r.Done? ==> r.at == i + 1)
  {
    if NextIs(ts, i, kind) then Done((), i + 1) else Fail(SkipForward(ts, i))
  }

  function ParseExpression(ts: seq<Tok>, i: nat, prec: nat): (r: Parse<Tree>)
    requires i <= |ts|
    ensures i <= r.at <= |ts|
    decreases |ts| - i, 9
  {
    match Primary(ts, i)
    case Fail(j) => Fail(j)
    case Done(left, j) => InfixLoop(ts, left, j, prec)
  }

  function Primary(ts: seq<Tok>, i: nat): (r: Parse<Tree>)
    requires i <= |ts|
    ensures i <= r.at <= |ts|
    decreases |ts| - i, 8
  {
    if i == |ts| then Fail(i) else
    match ts[i].kind
    case IdentT => Done(TIdent(ts[i].text), i)
    case IntT => Done(TInt(ts[i].text), i)
    case TrueT => Done(TBool(true), i)
    case FalseT => Done(TBool(false), i)
    case StringT => Done(TString(ts[i].text), i)
    case Bang => PrefixTail(ts, i)
    case Minus => PrefixTail(ts, i)
    case LParen => GroupTail(ts, i)
    case LBracket =>
      (match List(ts, i, RBracket)
       case Fail(j) => Fail(j)
       case Done(es, j) => Done(TArray(es), j))
    case IfT => Wrap(IfTail(ts, i))
    case WhileT => Wrap(WhileTail(ts, i))
    case ForT => Wrap(ForTail(ts, i))
    case FunctionT => Wrap(FunctionTail(ts, i))
    case Semicolon => Fail(i)
    case _ => Fail(SkipForward(ts, i))
  }

  function Wrap(r: Parse<Ast.Expr>): (w: Parse<Tree>)
    ensures w.at == r.at
  {
    match r case Fail(j) => Fail(j) case Done(e, j) => Done(TOther(e), j)
  }

  function PrefixTail(ts: seq<Tok>, i: nat): (r: Parse<Tree>)
    requires i < |ts|
    ensures i <= r.at <= |ts|
    decreases |ts| - i, 0
  {
    match ParseExpression(ts, i + 1, PREFIX)
    case Fail(j) => Fail(j)
    case Done(t, j) => Done(TPrefix(ts[i].kind, t), j)
  }

  function GroupTail(ts: seq<Tok>, i: nat): (r: Parse<Tree>)
    requires i < |ts|
    ensures i <= r.at <= |ts|
    decreases |ts| - i, 0
  {
    match ParseExpression(ts, i + 1, LOWEST)
    case Fail(j) => Fail(j)
    case Done(t, j) =>
      match Expect(ts, j, RParen)
      case Fail(k) => Fail(k)
      case Done(_, k) => Done(TGroup(t), k)
  }

  /** The loop over operators, calls and indices that bind tighter than `prec`. */
  function InfixLoop(ts: seq<Tok>, left: Tree, j: nat, prec: nat): (r: Parse<Tree>)
    requires j <= |ts|
    ensures j <= r.at <= |ts|
    decreases |ts| - j, 5
  {
    if Kind(ts, j + 1) == Semicolon || prec >= Prec(Kind(ts, j + 1)) || j + 1 >= |ts| then Done(left, j) else
    match Suffix(ts, left, j)
    case Fail(k) => Fail(k)
    case Done(t, k) => InfixLoop(ts, t, k, prec)
  }

  /** One operator, call or index after `left`; the token after j begins it. */
  function Suffix(ts: seq<Tok>, left: Tree, j: nat): (r: Parse<Tree>)
    requires j + 1 < |ts|
    ensures j < r.at <= |ts|
    decreases |ts| - j, 4
  {
    var next := ts[j + 1].kind;
    if next == AssignT then
      if !Erase(left).Ident? && !Erase(left).Index? then Fail(j + 1) else
      match ParseExpression(ts, j + 2, ASSIGN)
      case Fail(k) => Fail(k)
      case Done(t, k) => Done(TAssign(left, t), k)
    else if IsInfix(next) then
      if Erase(left).Ident? && NextIs(ts, j + 1, next) && (next == Plus || next == Minus)
        then Done(TPostfix(next, left), j + 2) else
      match ParseExpression(ts, j + 2, Prec(next))
      case Fail(k) => Fail(k)
      case Done(t, k) => Done(TInfix(next, left, t), k)
    else if next == LParen then
      match List(ts, j + 1, RParen)
      case Fail(k) => Fail(k)
      case Done(es, k) => Done(TCall(left, es), k)
    else if next == LBracket then IndexTail(ts, left, j + 1)
    else Fail(j + 1)
  }

  /** parse_expression_list, from the opening token. */
  function List(ts: seq<Tok>, j: nat, end: TokenType): (r: Parse<seq<Tree>>)
    requires j < |ts|
    ensures j <= r.at <= |ts|
    decreases |ts| - j, 7
  {
    if NextIs(ts, j, end) then Done([], j + 1) else
    match ParseExpression(ts, j + 1, LOWEST)
    case Fail(k) => Fail(k)
    case Done(t, k) => ListLoop(ts, [t], k, end)
  }

  function ListLoop(ts: seq<Tok>, done: seq<Tree>, j: nat, end: TokenType): (r: Parse<seq<Tree>>)
    requires j <= |ts|
    ensures j <= r.at <= |ts|
    decreases |ts| - j, 6
  {
    if NextIs(ts, j, Comma) then
      match ParseExpression(ts, j + 2, LOWEST)
      case Fail(k) => Fail(k)
      case Done(t, k) => ListLoop(ts, done + [t], k, end)
    else
      match Expect(ts, j, end)
      case Fail(k) => Fail(k)
      case Done(_, k) => Done(done, k)
  }

  /** An index or a slice, from its bracket. */
  function IndexTail(ts: seq<Tok>, left: Tree, j: nat): (r: Parse<Tree>)
    requires j < |ts|
    ensures j <= r.at <= |ts|
    decreases |ts| - j, 3
  {
    if NextIs(ts, j, Colon) then SliceTail(ts, left, None, j) else
    match ParseExpression(ts, j + 1, LOWEST)
    case Fail(k) => Fail(k)
    case Done(t, k) =>
      if NextIs(ts, k, Colon) then SliceTail(ts, left, Some(t), k) else
      match Expect(ts, k, RBracket)
      case Fail(l) => Fail(l)
      case Done(_, l) => Done(TIndex(left, t), l)
  }

  function SliceTail(ts: seq<Tok>, left: Tree, start: Option<Tree>, j: nat): (r: Parse<Tree>)
    requires j + 1 < |ts|
    ensures j <= r.at <= |ts|
    decreases |ts| - j, 2
  {
    if NextIs(ts, j + 1, RBracket) then Done(TSlice(left, start, None), j + 2) else
    match ParseExpression(ts, j + 2, LOWEST)
    case Fail(k) => Fail(k)
    case Done(t, k) =>
      match Expect(ts, k, RBracket)
      case Fail(l) => Fail(l)
      case Done(_, l) => Done(TSlice(left, start, Some(t)), l)
  }

  /** `(` condition `)` and the brace of a body. */
  function Condition(ts: seq<Tok>, i: nat): (r: Parse<Ast.Expr>)
    requires i < |ts|
    ensures i <= r.at <= |ts| && (r.Done? ==> i < r.at < |ts|)
    decreases |ts| - i, 1
  {
    match Expect(ts, i, LParen)
    case Fail(j) => Fail(j)
    case Done(_, j) =>
      match ParseExpression(ts, j + 1, LOWEST)
      case Fail(k) => Fail(k)
      case Done(c, k) =>
        match Expect(ts, k, RParen)
        case Fail(l) => Fail(l)
        case Done(_, l) =>
          match Expect(ts, l, LBrace)
          case Fail(m) => Fail(m)
          case Done(_, m) => Done(Erase(c), m)
  }

  function IfTail(ts: seq<Tok>, i: nat): (r: Parse<Ast.Expr>)
    requires i < |ts|
    ensures i <= r.at <= |ts|
    decreases |ts| - i, 2
  {
    match Condition(ts, i)
    case Fail(j) => Fail(j)
    case Done(c, j) =>
      match Block(ts, j)
      case Fail(k) => Fail(k)
      case Done(conseq, k) =>
        if !NextIs(ts, k, ElseT) then Done(Ast.If(c, conseq, Ast.NoElse), k)
        else if NextIs(ts, k + 1, IfT) then
          // "else if" is a block with that one statement
          (match Statement(ts, k + 2)
           case Fail(l) => Fail(l)
           case Done(x, l) => Done(Ast.If(c, conseq, Ast.Else([x])), l))
        else
          match Expect(ts, k + 1, LBrace)
          case Fail(l) => Fail(l)
          case Done(_, l) =>
            match Block(ts, l)
            case Fail(m) => Fail(m)
            case Done(alt, m) => Done(Ast.If(c, conseq, Ast.Else(alt)), m)
  }

  function WhileTail(ts: seq<Tok>, i: nat): (r: Parse<Ast.Expr>)
    requires i < |ts|
    ensures i <= r.at <= |ts|
    decreases |ts| - i, 2
  {
    match Condition(ts, i)
    case Fail(j) => Fail(j)
    case Done(c, j) =>
      match Block(ts, j)
      case Fail(k) => Fail(k)
      case Done(body, k) => Done(Ast.While(c, body), k)
  }

  /** A clause of a `for` loop is absent when its end follows at once. */
  function Clause(ts: seq<Tok>, j: nat, end: TokenType): (r: Parse<Ast.Stmt>)
    requires j < |ts|
    ensures j <= r.at <= |ts| && (r.Done? ==> j < r.at < |ts|)
    decreases |ts| - j, 1
  {
    if NextIs(ts, j, end) then Done(Ast.Empty, j + 1) else
    match Statement(ts, j + 1)
    case Fail(k) => Fail(k)
    case Done(x, k) =>
      match Expect(ts, k, end)
      case Fail(l) => Fail(l)
      case Done(_, l) => Done(x, l)
  }

  function Test(ts: seq<Tok>, j: nat): (r: Parse<Option<Ast.Expr>>)
    requires j < |ts|
    ensures j <= r.at <= |ts| && (r.Done? ==> j < r.at < |ts|)
    decreases |ts| - j, 1
  {
    if NextIs(ts, j, Semicolon) then Done(None, j + 1) else
    match ParseExpression(ts, j + 1, LOWEST)
    case Fail(k) => Fail(k)
    case Done(t, k) =>
      match Expect(ts, k, Semicolon)
      case Fail(l) => Fail(l)
      case Done(_, l) => Done(Some(Erase(t)), l)
  }

  function ForTail(ts: seq<Tok>, i: nat): (r: Parse<Ast.Expr>)
    requires i < |ts|
    ensures i <= r.at <= |ts|
    decreases |ts| - i, 2
  {
    match Expect(ts, i, LParen)
    case Fail(j) => Fail(j)
    case Done(_, j) =>
      match Clause(ts, j, Semicolon)
      case Fail(k) => Fail(k)
      case Done(init, k) =>
        match Test(ts, k)
        case Fail(l) => Fail(l)
        case Done(test, l) =>
          match Clause(ts, l, RParen)
          case Fail(m) => Fail(m)
          case Done(inc, m) =>
            match Expect(ts, m, LBrace)
            case Fail(n) => Fail(n)
            case Done(_, n) =>
              match Block(ts, n)
              case Fail(o) => Fail(o)
              case Done(body, o) => Done(Ast.For(init, test, inc, body), o)
  }

  function FunctionTail(ts: seq<Tok>, i: nat): (r: Parse<Ast.Expr>)
    requires i < |ts|
    ensures i <= r.at <= |ts|
    decreases |ts| - i, 2
  {
    match Expect(ts, i, LParen)
    case Fail(j) => Fail(j)
    case Done(_, j) =>
      match Params(ts, j)
      case Fail(k) => Fail(k)
      case Done(params, k) =>
        match Expect(ts, k, LBrace)
        case Fail(l) => Fail(l)
        case Done(_, l) =>
          match Block(ts, l)
          case Fail(m) => Fail(m)
          case Done(body, m) => Done(Ast.Function(params, body), m)
  }

  /** Any token is taken for a parameter name. */
  function Params(ts: seq<Tok>, j: nat): (r: Parse<seq<string>>)
    requires j < |ts|
    ensures j <= r.at <= |ts|
    decreases |ts| - j, 1
  {
    if NextIs(ts, j, RParen) then Done([], j + 1)
    else if j + 1 == |ts| then Fail(j + 1)
    else ParamLoop(ts, [ts[j + 1].text], j + 1)
  }

  function ParamLoop(ts: seq<Tok>, done: seq<string>, j: nat): (r: Parse<seq<string>>)
    requires j < |ts|
    ensures j <= r.at <= |ts|
    decreases |ts| - j, 0
  {
    if NextIs(ts, j, Comma) then
      if j + 2 == |ts| then Fail(j + 2) else ParamLoop(ts, done + [ts[j + 2].text], j + 2)
    else
      match Expect(ts, j, RParen)
      case Fail(k) => Fail(k)
      case Done(_, k) => Done(done, k)
  }

  /** From the opening brace to the closing one. */
  function Block(ts: seq<Tok>, i: nat): (r: Parse<seq<Ast.Stmt>>)
    requires i < |ts|
    ensures i <= r.at <= |ts|
    decreases |ts| - i, 1
  {
    BlockLoop(ts, [], i + 1, true)
  }

  /** A statement that fails is left out, and the next one is tried; `clean` says that none failed. */
  function BlockLoop(ts: seq<Tok>, done: seq<Ast.Stmt>, j: nat, clean: bool): (r: Parse<seq<Ast.Stmt>>)
    requires j <= |ts|
    ensures j <= r.at <= |ts|
    decreases |ts| - j, 12
  {
    if j == |ts| || ts[j].kind == RBrace || ts[j].kind == Eof then (if clean then Done(done, j) else Fail(j)) else
    var r := Statement(ts, j);
    var k := Advance(ts, if NextIs(ts, r.at, Semicolon) then r.at + 1 else r.at);
    BlockLoop(ts, if r.Done? then done + [r.value] else done, k, clean && (r.Done? || ts[j].kind == Semicolon))
  }

  function Statement(ts: seq<Tok>, i: nat): (r: Parse<Ast.Stmt>)
    requires i <= |ts|
    ensures i <= r.at <= |ts|
    decreases |ts| - i, 11
  {
    match Kind(ts, i)
    case LetT => LetTail(ts, i)
    case ReturnT =>
      (match OptionalValue(ts, i + 1)
       case Fail(j) => Fail(j)
       case Done(e, j) => Done(Ast.Return(e), j))
    case BreakT => Done(Ast.Break, i)
    case ContinueT => Done(Ast.Continue, i)
    case _ =>
      match ParseExpression(ts, i, LOWEST)
      case Fail(j) => Fail(j)
      case Done(t, j) => Done(Ast.ExprStmt(Erase(t)), j)
  }

  /** A semicolon is an empty value. */
  function OptionalValue(ts: seq<Tok>, i: nat): (r: Parse<Option<Ast.Expr>>)
    requires i <= |ts|
    ensures i <= r.at <= |ts|
    decreases |ts| - i, 10
  {
    if Kind(ts, i) == Semicolon then Done(None, i) else
    match ParseExpression(ts, i, LOWEST)
    case Fail(j) => Fail(j)
    case Done(t, j) => Done(Some(Erase(t)), j)
  }

  function LetTail(ts: seq<Tok>, i: nat): (r: Parse<Ast.Stmt>)
    requires i < |ts|
    ensures i <= r.at <= |ts|
    decreases |ts| - i, 10
  {
    match Expect(ts, i, IdentT)
    case Fail(j) => Fail(j)
    case Done(_, j) =>
      if !NextIs(ts, j, AssignT) then Done(Ast.Let(ts[j].text, None), j) else
      match OptionalValue(ts, j + 2)
      case Fail(k) => Fail(k)
      case Done(e, k) => Done(Ast.Let(ts[j].text, e), k)
  }

  /** A whole program. */
  function ProgramLoop(ts: seq<Tok>, done: seq<Ast.Stmt>, j: nat, clean: bool): (r: Parse<seq<Ast.Stmt>>)
    requires j <= |ts|
    decreases |ts| - j
  {
    if j == |ts| || ts[j].kind == Eof then (if clean then Done(done, j) else Fail(j)) else
    var r := Statement(ts, j);
    if r.Fail? then ProgramLoop(ts, done, Advance(ts, r.at), clean && ts[j].kind == Semicolon)
    else ProgramLoop(ts, done + [r.value], Advance(ts, if NextIs(ts, r.at, Semicolon) then r.at + 1 else r.at), clean)
  }
}

/** What the Pratt loop guarantees about the trees it builds. */
module PrattSoundness {
  import opened Wrappers
  import opened Lexing
  import opened Parsing

  // ---- the tokens of a tree ----

  function Spelling(kind: TokenType): string {
    match kind
    case TrueT => "true" case FalseT => "false"
    case AssignT => "=" case Plus => "+" case Minus => "-" case Bang => "!" case Asterisk => "*" case Slash => "/"
      case Percent => "%"
    case Lt => "<" case Lte => "<=" case Gt => ">" case Gte => ">=" case EqT => "==" case NotEqT => "!="
    case Comma => "," case LParen => "(" case RParen => ")" case LBracket => "[" case RBracket => "]"
    case AndT => "&&" case OrT => "||" case Colon => ":" case Semicolon => ";" case LBrace => "{" case RBrace => "}"
    case FunctionT => "fn" case LetT => "let" case IfT => "if" case ElseT => "else" case ForT => "for" case InT => "in"
    case WhileT => "while" case ReturnT => "return" case BreakT => "break" case ContinueT => "continue"
    case _ => ""
  }

  function Fixed(kind: TokenType): Tok { Tok(kind, Spelling(kind)) }

  /** Punctuation and operators are spelled as the scanner spells them. */
  predicate Spelled(ts: seq<Tok>) {
    forall i | 0 <= i < |ts| && Spelling(ts[i].kind) != "" :: ts[i].text == Spelling(ts[i].kind)
  }

  /** No statement inside. */
  predicate Plain(t: Tree)
    decreases t, 0
  {
    match t
    case TGroup(x) => Plain(x)
    case TPrefix(_, x) => Plain(x)
    case TInfix(_, l, r) => Plain(l) && Plain(r)
    case TPostfix(_, l) => Plain(l)
    case TAssign(l, r) => Plain(l) && Plain(r)
    case TCall(f, args) => Plain(f) && AllPlain(args)
    case TArray(es) => AllPlain(es)
    case TIndex(l, i) => Plain(l) && Plain(i)
    case TSlice(l, s, e) => Plain(l) && (s.Some? ==> Plain(s.value)) && (e.Some? ==> Plain(e.value))
    case TOther(_) => false
    case _ => true
  }

  predicate AllPlain(ts: seq<Tree>)
    decreases ts, 0
  {
    ts == [] || (Plain(ts[0]) && AllPlain(ts[1..]))
  }

  /** Every token of a tree without statements, in order. */
  function Yield(t: Tree): seq<Tok>
    decreases t, 0
  {
    match t
    case TIdent(name) => [Tok(IdentT, name)]
    case TInt(digits) => [Tok(IntT, digits)]
    case TBool(b) => [Fixed(if b then TrueT else FalseT)]
    case TString(raw) => [Tok(StringT, raw)]
    case TGroup(x) => [Fixed(LParen)] + Yield(x) + [Fixed(RParen)]
    case TPrefix(op, x) => [Fixed(op)] + Yield(x)
    case TInfix(op, l, r) => Yield(l) + [Fixed(op)] + Yield(r)
    case TPostfix(op, l) => Yield(l) + [Fixed(op), Fixed(op)]
    case TAssign(l, r) => Yield(l) + [Fixed(AssignT)] + Yield(r)
    case TCall(f, args) => Yield(f) + [Fixed(LParen)] + YieldAll(args) + [Fixed(RParen)]
    case TArray(es) => [Fixed(LBracket)] + YieldAll(es) + [Fixed(RBracket)]
    case TIndex(l, i) => Yield(l) + [Fixed(LBracket)] + Yield(i) + [Fixed(RBracket)]
    case TSlice(l, s, e) =>
      Yield(l) + [Fixed(LBracket)] + (match s case None => [] case Some(x) => Yield(x)) + [Fixed(Colon)]
      + (match e case None => [] case Some(x) => Yield(x)) + [Fixed(RBracket)]
    case TOther(_) => []
  }

  /** With commas between them. */
  function YieldAll(ts: seq<Tree>): seq<Tok>
    decreases ts, 0
  {
    if ts == [] then [] else if |ts| == 1 then Yield(ts[0]) else Yield(ts[0]) + [Fixed(Comma)] + YieldAll(ts[1..])
  }

  lemma {:induction false} YieldSnoc(ts: seq<Tree>, t: Tree)
    requires ts != []
    ensures YieldAll(ts + [t]) == YieldAll(ts) + [Fixed(Comma)] + Yield(t)
    ensures AllPlain(ts + [t]) == (AllPlain(ts) && Plain(t))
    decreases |ts|
  {
    hide Yield, Plain;
    assert (ts + [t])[1..] == ts[1..] + [t];
    if |ts| == 1 {
      assert ts[1..] == [] && (ts + [t])[1..] == [t] && [t][1..] == [];
    } else {
      YieldSnoc(ts[1..], t);
    }
  }

  /** The tokens from i to j, both included, are those of t. */
  predicate Reads(ts: seq<Tok>, i: nat, j: nat, part: seq<Tok>) {
    i <= j + 1 && j < |ts| && ts[i..j + 1] == part
  }

  // ---- how tightly a tree binds ----

  /** The binding power of a tree's outermost operator; what is closed in itself binds tightest. */
  function Tightness(t: Tree): nat {
    match t
    case TInfix(op, _, _) => Prec(op)
    case TAssign(_, _) => ASSIGN
    case TPrefix(_, _) => PREFIX
    case _ => INDEX
  }

  /**
   The loosest operator that a tree was built with, from its left edge to its
   outermost one: the loop takes all of them up, so it must accept the loosest.
   A postfix operator binds as a sum does; what starts with its own token binds anything.
   */
  function Loosest(t: Tree): (p: nat)
    ensures p <= INDEX + 1 && (p <= PREFIX || Tightness(t) >= PREFIX) && (p <= PREFIX ==> p <= Tightness(t))
  {
    match t
    case TInfix(op, l, _) => Min(Prec(op), Loosest(l))
    case TPostfix(op, l) => Min(Prec(op), Loosest(l))
    case TAssign(l, _) => Min(ASSIGN, Loosest(l))
    case TCall(f, _) => Min(CALL, Loosest(f))
    case TIndex(l, _) => Min(INDEX, Loosest(l))
    case TSlice(l, _, _) => Min(INDEX, Loosest(l))
    case _ => INDEX + 1
  }

  function Min(a: nat, b: nat): nat { if a <= b then a else b }

  /** The tree's first token is a minus sign. */
  predicate LeadsMinus(t: Tree) {
    match t
    case TPrefix(op, _) => op == Minus
    case TInfix(_, l, _) => LeadsMinus(l)
    case TPostfix(_, l) => LeadsMinus(l)
    case TAssign(l, _) => LeadsMinus(l)
    case TCall(f, _) => LeadsMinus(f)
    case TIndex(l, _) => LeadsMinus(l)
    case TSlice(l, _, _) => LeadsMinus(l)
    case _ => false
  }

  /** A name and two minus signs are a postfix expression. */
  predicate Mistakable(op: TokenType, l: Tree, r: Tree) { op == Minus && Erase(l).Ident? && LeadsMinus(r) }

  /**
   A left operand binds at least as tightly as its operator, a right one more
   tightly in all its parts; what is called or indexed is no operator's result.
   */
  predicate Levelled(t: Tree)
    decreases t, 0
  {
    match t
    case TGroup(x) => Levelled(x)
    case TPrefix(op, x) => (op == Bang || op == Minus) && Loosest(x) > PREFIX && Levelled(x)
    case TInfix(op, l, r) =>
      && IsInfix(op) && Tightness(l) >= Prec(op) && Loosest(r) > Prec(op) && !Mistakable(op, l, r) && Levelled(l)
         && Levelled(r)
    case TPostfix(op, l) => (op == Plus || op == Minus) && Erase(l).Ident? && Levelled(l)
    case TAssign(l, r) => (Erase(l).Ident? || Erase(l).Index?) && Tightness(l) >= ASSIGN && Loosest(r) > ASSIGN
      && Levelled(l) && Levelled(r)
    case TCall(f, args) => Tightness(f) >= CALL && Levelled(f) && AllLevelled(args)
    case TArray(es) => AllLevelled(es)
    case TIndex(l, i) => Tightness(l) >= CALL && Levelled(l) && Levelled(i)
    case TSlice(l, s, e) =>
      Tightness(l) >= CALL && Levelled(l) && (s.Some? ==> Levelled(s.value)) && (e.Some? ==> Levelled(e.value))
    case _ => true
  }

  predicate AllLevelled(ts: seq<Tree>)
    decreases ts, 0
  {
    ts == [] || (Levelled(ts[0]) && AllLevelled(ts[1..]))
  }

  lemma {:induction false} LevelledSnoc(ts: seq<Tree>, t: Tree)
    ensures AllLevelled(ts + [t]) == (AllLevelled(ts) && Levelled(t))
    decreases |ts|
  {
    if ts == [] {
      assert ts + [t] == [t] && [t][1..] == [];
    } else {
      assert (ts + [t])[1..] == ts[1..] + [t];
      LevelledSnoc(ts[1..], t);
    }
  }

  /** Powers at which operands are read. */
  predicate Power(prec: nat) { LOWEST <= prec <= PREFIX }

  /** What parse_expression promises. */
  predicate Bound(ts: seq<Tok>, i: nat, t: Tree, j: nat, prec: nat) {
    && Levelled(t) && Prec(Kind(ts, j + 1)) <= prec < Loosest(t)
    && Kind(ts, i) != Plus && (LeadsMinus(t) <==> Kind(ts, i) == Minus)
  }

  lemma {:induction false} BoundExpression(ts: seq<Tok>, i: nat, prec: nat)
    requires i <= |ts| && Power(prec)
    ensures var r := ParseExpression(ts, i, prec); r.Done? ==> Bound(ts, i, r.value, r.at, prec)
    decreases |ts| - i, 9
  {
    hide Primary, InfixLoop, Levelled, LeadsMinus, Loosest;
    BoundPrimary(ts, i);
    var r := Primary(ts, i);
    if r.Done? {
      BoundLoop(ts, i, r.value, r.at, prec);
    }
  }

  /** A primary is closed, or a prefix that has taken all it can. */
  lemma {:induction false} BoundPrimary(ts: seq<Tok>, i: nat)
    requires i <= |ts|
    ensures var r := Primary(ts, i);
            r.Done? ==>
              && Levelled(r.value) && Loosest(r.value) > PREFIX
              && Prec(Kind(ts, r.at + 1)) <= Tightness(r.value)
                        && Kind(ts, i) != Plus && (LeadsMinus(r.value) <==> Kind(ts, i) == Minus)
    decreases |ts| - i, 8
  {
    hide ParseExpression, InfixLoop, PrefixTail, GroupTail, List, IfTail, WhileTail, ForTail, FunctionTail, AllLevelled;
    if i < |ts| {
      match ts[i].kind
      case Bang => BoundPrefix(ts, i);
      case Minus => BoundPrefix(ts, i);
      case LParen => BoundGroup(ts, i);
      case LBracket => BoundList(ts, i, RBracket);
      case _ =>
    }
  }

  lemma {:induction false} BoundPrefix(ts: seq<Tok>, i: nat)
    requires i < |ts| && (ts[i].kind == Bang || ts[i].kind == Minus)
    ensures var r := PrefixTail(ts, i);
            r.Done? ==>
              r.value.TPrefix? && r.value.op == ts[i].kind && Levelled(r.value)
              && Prec(Kind(ts, r.at + 1)) <= PREFIX
    decreases |ts| - i, 0
  {
    hide ParseExpression, LeadsMinus, Loosest, Tightness;
    BoundExpression(ts, i + 1, PREFIX);
  }

  lemma {:induction false} BoundGroup(ts: seq<Tok>, i: nat)
    requires i < |ts|
    ensures var r := GroupTail(ts, i); r.Done? ==> r.value.TGroup? && Levelled(r.value)
    decreases |ts| - i, 0
  {
    hide ParseExpression, LeadsMinus, Loosest, Tightness;
    BoundExpression(ts, i + 1, LOWEST);
  }

  lemma {:induction false} BoundLoop(ts: seq<Tok>, i: nat, left: Tree, j: nat, prec: nat)
    requires j <= |ts| && Power(prec) && Levelled(left) && Prec(Kind(ts, j + 1)) <= Tightness(left)
    requires prec < Loosest(left)
    requires Kind(ts, i) != Plus && (LeadsMinus(left) <==> Kind(ts, i) == Minus)
    ensures var r := InfixLoop(ts, left, j, prec); r.Done? ==> Bound(ts, i, r.value, r.at, prec)
    decreases |ts| - j, 5
  {
    hide Suffix, Levelled, LeadsMinus, Loosest, Tightness;
    if !(Kind(ts, j + 1) == Semicolon || prec >= Prec(Kind(ts, j + 1)) || j + 1 >= |ts|) {
      BoundSuffix(ts, left, j, prec);
      var r := Suffix(ts, left, j);
      if r.Done? {
        BoundLoop(ts, i, r.value, r.at, prec);
      }
    }
  }

  lemma {:induction false} BoundSuffix(ts: seq<Tok>, left: Tree, j: nat, prec: nat)
    requires j + 1 < |ts| && Power(prec) && Levelled(left) && prec < Prec(ts[j + 1].kind) <= Tightness(left)
    requires prec < Loosest(left)
    ensures var r := Suffix(ts, left, j);
            r.Done? ==>
              && Levelled(r.value) && prec < Loosest(r.value)
              && Prec(Kind(ts, r.at + 1)) <= Tightness(r.value)
              && LeadsMinus(r.value) == LeadsMinus(left)
    decreases |ts| - j, 4
  {
    hide ParseExpression, List, IndexTail, Erase, LeadsMinus, Levelled, AllLevelled, Loosest, Tightness;
    var next := ts[j + 1].kind;
    if next == AssignT || IsInfix(next) {
      BoundBinary(ts, left, j, prec);
    } else if next == LParen {
      BoundList(ts, j + 1, RParen);
      var r := List(ts, j + 1, RParen);
      if r.Done? {
        BoundCall(left, r.value, prec);
      }
    } else if next == LBracket {
      BoundIndex(ts, left, j + 1);
    }
  }

  lemma {:induction false} BoundBinary(ts: seq<Tok>, left: Tree, j: nat, prec: nat)
    requires j + 1 < |ts| && Power(prec) && Levelled(left) && prec < Prec(ts[j + 1].kind) <= Tightness(left)
    requires prec < Loosest(left)
    requires ts[j + 1].kind == AssignT || IsInfix(ts[j + 1].kind)
    ensures var r := Suffix(ts, left, j);
            r.Done? ==>
              && Levelled(r.value) && prec < Loosest(r.value)
              && Prec(Kind(ts, r.at + 1)) <= Tightness(r.value)
              && LeadsMinus(r.value) == LeadsMinus(left)
    decreases |ts| - j, 3
  {
    hide ParseExpression, List, IndexTail, Erase, LeadsMinus, Levelled, AllLevelled, Loosest, Tightness, Suffix;
    var next := ts[j + 1].kind;
    OperatorSuffix(ts, left, j);
    if IsInfix(next) && Erase(left).Ident? && NextIs(ts, j + 1, next) && (next == Plus || next == Minus) {
      BoundPostfix(left, next, prec);
    } else {
      BoundExpression(ts, j + 2, Prec(next));
      var r := ParseExpression(ts, j + 2, Prec(next));
      if r.Done? && (next == AssignT ==> Erase(left).Ident? || Erase(left).Index?) {
        BoundOperator(ts, left, j, prec, r.value, r.at);
      }
    }
  }

  /** Assignment, postfix and infix operators. */
  lemma {:induction false} OperatorSuffix(ts: seq<Tok>, left: Tree, j: nat)
    requires j + 1 < |ts| && (ts[j + 1].kind == AssignT || IsInfix(ts[j + 1].kind))
    ensures var next := ts[j + 1].kind;
            Suffix(ts, left, j)
            == if IsInfix(next) && Erase(left).Ident? && NextIs(ts, j + 1, next) && (next == Plus || next == Minus)
               then Done(TPostfix(next, left), j + 2)
               else if next == AssignT && !Erase(left).Ident? && !Erase(left).Index? then Fail(j + 1)
               else match ParseExpression(ts, j + 2, Prec(next))
                    case Fail(k) => Fail(k)
                    case Done(t, k) => Done(if next == AssignT then TAssign(left, t) else TInfix(next, left, t), k)
  {
    hide ParseExpression, List, IndexTail, Erase;
  }

  lemma {:induction false} BoundOperator(ts: seq<Tok>, left: Tree, j: nat, prec: nat, right: Tree, k: nat)
    requires j + 1 < |ts| && Levelled(left) && prec < Prec(ts[j + 1].kind) <= Tightness(left) && prec < Loosest(left)
    requires Bound(ts, j + 2, right, k, Prec(ts[j + 1].kind))
    ensures var next := ts[j + 1].kind;
            && (next == AssignT && (Erase(left).Ident? || Erase(left).Index?) ==>
                  var t := TAssign(left, right);
                    Levelled(t) && prec < Loosest(t) && Tightness(t) == ASSIGN
                    && LeadsMinus(t) == LeadsMinus(left))
            && (IsInfix(next) && !(Erase(left).Ident? && NextIs(ts, j + 1, next) && (next == Plus || next == Minus)) ==>
                  var t := TInfix(next, left, right);
                  Levelled(t) && prec < Loosest(t) && Tightness(t) == Prec(next) && LeadsMinus(t) == LeadsMinus(left))
  {
  }

  lemma {:induction false} BoundPostfix(left: Tree, op: TokenType, prec: nat)
    requires Levelled(left) && Erase(left).Ident? && (op == Plus || op == Minus) && prec < SUM && prec < Loosest(left)
    ensures var t := TPostfix(op, left);
            Levelled(t) && prec < Loosest(t) && Tightness(t) == INDEX
            && LeadsMinus(t) == LeadsMinus(left)
  {
  }

  lemma {:induction false} BoundCall(left: Tree, args: seq<Tree>, prec: nat)
    requires Levelled(left) && AllLevelled(args) && CALL <= Tightness(left) && prec < CALL && prec < Loosest(left)
    ensures var t := TCall(left, args);
            Levelled(t) && prec < Loosest(t) && Tightness(t) == INDEX
            && LeadsMinus(t) == LeadsMinus(left)
  {
  }

  lemma {:induction false} BoundIndex(ts: seq<Tok>, left: Tree, j: nat)
    requires j < |ts| && Levelled(left) && Tightness(left) >= CALL
    ensures var r := IndexTail(ts, left, j);
            r.Done? ==>
              && Levelled(r.value) && Tightness(r.value) == INDEX
              && Loosest(r.value) == Min(INDEX, Loosest(left))
                        && LeadsMinus(r.value) == LeadsMinus(left)
    decreases |ts| - j, 3
  {
    hide ParseExpression, SliceTail, LeadsMinus, Levelled, Loosest, Tightness;
    if NextIs(ts, j, Colon) {
      BoundSlice(ts, left, None, j);
    } else {
      BoundExpression(ts, j + 1, LOWEST);
      var r := ParseExpression(ts, j + 1, LOWEST);
      if r.Done? {
        IndexedBound(left, r.value);
        if NextIs(ts, r.at, Colon) {
          BoundSlice(ts, left, Some(r.value), r.at);
        }
      }
    }
  }

  lemma {:induction false} IndexedBound(left: Tree, index: Tree)
    requires Levelled(left) && Tightness(left) >= CALL && Levelled(index)
    ensures var t := TIndex(left, index);
            Levelled(t) && Tightness(t) == INDEX && Loosest(t) == Min(INDEX, Loosest(left))
                     && LeadsMinus(t) == LeadsMinus(left)
  {
  }

  lemma {:induction false} SlicedBound(left: Tree, start: Option<Tree>, end: Option<Tree>)
    requires Levelled(left) && Tightness(left) >= CALL
    requires (start.Some? ==> Levelled(start.value)) && (end.Some? ==> Levelled(end.value))
    ensures var t := TSlice(left, start, end);
            Levelled(t) && Tightness(t) == INDEX && Loosest(t) == Min(INDEX, Loosest(left))
                     && LeadsMinus(t) == LeadsMinus(left)
  {
  }

  lemma {:induction false} BoundSlice(ts: seq<Tok>, left: Tree, start: Option<Tree>, j: nat)
    requires j + 1 < |ts| && Levelled(left) && Tightness(left) >= CALL && (start.Some? ==> Levelled(start.value))
    ensures var r := SliceTail(ts, left, start, j);
            r.Done? ==>
              && Levelled(r.value) && Tightness(r.value) == INDEX
              && Loosest(r.value) == Min(INDEX, Loosest(left))
                        && LeadsMinus(r.value) == LeadsMinus(left)
    decreases |ts| - j, 2
  {
    hide ParseExpression, LeadsMinus, Levelled, Loosest, Tightness;
    if NextIs(ts, j + 1, RBracket) {
      SlicedBound(left, start, None);
    } else {
      BoundExpression(ts, j + 2, LOWEST);
      var r := ParseExpression(ts, j + 2, LOWEST);
      if r.Done? {
        SlicedBound(left, start, Some(r.value));
      }
    }
  }

  lemma {:induction false} BoundList(ts: seq<Tok>, j: nat, end: TokenType)
    requires j < |ts|
    ensures var r := List(ts, j, end); r.Done? ==> AllLevelled(r.value)
    decreases |ts| - j, 7
  {
    hide ParseExpression, ListLoop;
    if !NextIs(ts, j, end) {
      BoundExpression(ts, j + 1, LOWEST);
      var r := ParseExpression(ts, j + 1, LOWEST);
      if r.Done? {
        LevelledSnoc([], r.value);
        assert [] + [r.value] == [r.value];
        BoundListLoop(ts, [r.value], r.at, end);
      }
    }
  }

  lemma {:induction false} BoundListLoop(ts: seq<Tok>, done: seq<Tree>, j: nat, end: TokenType)
    requires j <= |ts| && AllLevelled(done)
    ensures var r := ListLoop(ts, done, j, end); r.Done? ==> AllLevelled(r.value)
    decreases |ts| - j, 6
  {
    hide ParseExpression, AllLevelled;
    if NextIs(ts, j, Comma) {
      BoundExpression(ts, j + 2, LOWEST);
      var r := ParseExpression(ts, j + 2, LOWEST);
      if r.Done? {
        LevelledSnoc(done, r.value);
        BoundListLoop(ts, done + [r.value], r.at, end);
      }
    }
  }

  // ---- exactly the tokens of the tree are read ----

  lemma {:induction false} ReadsCat(ts: seq<Tok>, i: nat, j: nat, k: nat, a: seq<Tok>, b: seq<Tok>)
    requires Reads(ts, i, j, a) && Reads(ts, j + 1, k, b) && i <= j + 1
    ensures Reads(ts, i, k, a + b)
  {
    assert ts[i..k + 1] == ts[i..j + 1] + ts[j + 1..k + 1];
  }

  lemma {:induction false} ReadsFixed(ts: seq<Tok>, i: nat)
    requires Spelled(ts) && i < |ts| && Spelling(ts[i].kind) != ""
    ensures Reads(ts, i, i, [Fixed(ts[i].kind)])
  {
  }

  lemma {:induction false} YieldExpression(ts: seq<Tok>, i: nat, prec: nat)
    requires i <= |ts| && Spelled(ts)
    ensures var r := ParseExpression(ts, i, prec); r.Done? && Plain(r.value) ==> Reads(ts, i, r.at, Yield(r.value))
    decreases |ts| - i, 9
  {
    hide Primary, InfixLoop, Plain, Yield, Reads, Spelled;
    YieldPrimary(ts, i);
    var r := Primary(ts, i);
    if r.Done? {
      YieldLoop(ts, i, r.value, r.at, prec);
    }
  }

  lemma {:induction false} YieldPrimary(ts: seq<Tok>, i: nat)
    requires i <= |ts| && Spelled(ts)
    ensures var r := Primary(ts, i); r.Done? && Plain(r.value) ==> Reads(ts, i, r.at, Yield(r.value))
    decreases |ts| - i, 8
  {
    hide ParseExpression, List, IfTail, WhileTail, ForTail, FunctionTail, Reads;
    if i < |ts| {
      match ts[i].kind
      case IdentT => ReadsToken(ts, i);
      case IntT => ReadsToken(ts, i);
      case StringT => ReadsToken(ts, i);
      case TrueT => ReadsFixed(ts, i);
      case FalseT => ReadsFixed(ts, i);
      case Bang => YieldPrefix(ts, i);
      case Minus => YieldPrefix(ts, i);
      case LParen => YieldGroup(ts, i);
      case LBracket =>
        ReadsFixed(ts, i);
        YieldList(ts, i, RBracket);
        var r := List(ts, i, RBracket);
        if r.Done? && AllPlain(r.value) {
          ReadsCat(ts, i, i, r.at, [Fixed(LBracket)], YieldAll(r.value) + [Fixed(RBracket)]);
          assert [Fixed(LBracket)] + (YieldAll(r.value) + [Fixed(RBracket)]) == [Fixed(LBracket)] + YieldAll(r.value)
                 + [Fixed(RBracket)];
        }
      case _ =>
    }
  }

  lemma {:induction false} ReadsToken(ts: seq<Tok>, i: nat)
    requires i < |ts|
    ensures Reads(ts, i, i, [ts[i]]) && ts[i] == Tok(ts[i].kind, ts[i].text)
  {
  }

  lemma {:induction false} YieldPrefix(ts: seq<Tok>, i: nat)
    requires i < |ts| && Spelled(ts) && (ts[i].kind == Bang || ts[i].kind == Minus)
    ensures var r := PrefixTail(ts, i); r.Done? && Plain(r.value) ==> Reads(ts, i, r.at, Yield(r.value))
    decreases |ts| - i, 0
  {
    hide ParseExpression, Reads;
    ReadsFixed(ts, i);
    YieldExpression(ts, i + 1, PREFIX);
    var r := ParseExpression(ts, i + 1, PREFIX);
    if r.Done? && Plain(r.value) {
      ReadsCat(ts, i, i, r.at, [Fixed(ts[i].kind)], Yield(r.value));
    }
  }

  lemma {:induction false} YieldGroup(ts: seq<Tok>, i: nat)
    requires i < |ts| && Spelled(ts) && ts[i].kind == LParen
    ensures var r := GroupTail(ts, i); r.Done? && Plain(r.value) ==> Reads(ts, i, r.at, Yield(r.value))
    decreases |ts| - i, 0
  {
    hide ParseExpression, Reads;
    ReadsFixed(ts, i);
    YieldExpression(ts, i + 1, LOWEST);
    var r := ParseExpression(ts, i + 1, LOWEST);
    if r.Done? && NextIs(ts, r.at, RParen) && Plain(r.value) {
      ReadsFixed(ts, r.at + 1);
      ReadsCat(ts, i, i, r.at, [Fixed(LParen)], Yield(r.value));
      ReadsCat(ts, i, r.at, r.at + 1, [Fixed(LParen)] + Yield(r.value), [Fixed(RParen)]);
    }
  }

  lemma {:induction false} YieldLoop(ts: seq<Tok>, i: nat, left: Tree, j: nat, prec: nat)
    requires i <= j <= |ts| && Spelled(ts) && (Plain(left) ==> Reads(ts, i, j, Yield(left)))
    ensures var r := InfixLoop(ts, left, j, prec); r.Done? && Plain(r.value) ==> Reads(ts, i, r.at, Yield(r.value))
    decreases |ts| - j, 5
  {
    hide Suffix, Plain, Yield, Reads, Spelled;
    if !(Kind(ts, j + 1) == Semicolon || prec >= Prec(Kind(ts, j + 1)) || j + 1 >= |ts|) {
      YieldSuffix(ts, i, left, j);
      var r := Suffix(ts, left, j);
      if r.Done? {
        YieldLoop(ts, i, r.value, r.at, prec);
      }
    }
  }

  lemma {:induction false} YieldSuffix(ts: seq<Tok>, i: nat, left: Tree, j: nat)
    requires i <= j && j + 1 < |ts| && Spelled(ts) && (Plain(left) ==> Reads(ts, i, j, Yield(left)))
    ensures var r := Suffix(ts, left, j); r.Done? && Plain(r.value) ==> Reads(ts, i, r.at, Yield(r.value))
    decreases |ts| - j, 4
  {
    hide ParseExpression, List, IndexTail, Erase, Reads, Plain, Yield, YieldAll, AllPlain;
    var next := ts[j + 1].kind;
    if next == AssignT {
      YieldAssign(ts, i, left, j);
    } else if IsInfix(next) {
      YieldOperator(ts, i, left, j);
    } else if next == LParen {
      YieldCalled(ts, i, left, j);
    } else if next == LBracket {
      YieldIndexed(ts, i, left, j);
    }
  }

  lemma {:induction false} YieldAssign(ts: seq<Tok>, i: nat, left: Tree, j: nat)
    requires i <= j && j + 1 < |ts| && ts[j + 1].kind == AssignT
    requires Spelled(ts) && (Plain(left) ==> Reads(ts, i, j, Yield(left)))
    ensures var r := Suffix(ts, left, j); r.Done? && Plain(r.value) ==> Reads(ts, i, r.at, Yield(r.value))
    decreases |ts| - j, 3, 1
  {
    hide ParseExpression, List, IndexTail, Erase, Reads, IsInfix;
    if Plain(left) {
      YieldInfix(ts, i, left, j, ASSIGN);
    }
  }

  lemma {:induction false} YieldCalled(ts: seq<Tok>, i: nat, left: Tree, j: nat)
    requires i <= j && j + 1 < |ts| && ts[j + 1].kind == LParen
    requires Spelled(ts) && (Plain(left) ==> Reads(ts, i, j, Yield(left)))
    ensures var r := Suffix(ts, left, j); r.Done? && Plain(r.value) ==> Reads(ts, i, r.at, Yield(r.value))
    decreases |ts| - j, 3, 1
  {
    hide ParseExpression, List, IndexTail, Erase, Reads;
    if Plain(left) {
      YieldCall(ts, i, left, j);
    }
  }

  lemma {:induction false} YieldIndexed(ts: seq<Tok>, i: nat, left: Tree, j: nat)
    requires i <= j && j + 1 < |ts| && ts[j + 1].kind == LBracket
    requires Spelled(ts) && (Plain(left) ==> Reads(ts, i, j, Yield(left)))
    ensures var r := Suffix(ts, left, j); r.Done? && Plain(r.value) ==> Reads(ts, i, r.at, Yield(r.value))
    decreases |ts| - j, 3, 1
  {
    hide ParseExpression, List, IndexTail, Erase, Reads;
    IndexedLeft(ts, left, j + 1);
    if Plain(left) {
      YieldIndex(ts, i, left, j + 1);
    }
  }

  lemma {:induction false} YieldOperator(ts: seq<Tok>, i: nat, left: Tree, j: nat)
    requires i <= j && j + 1 < |ts| && IsInfix(ts[j + 1].kind) && Spelled(ts)
    requires (Plain(left) ==> Reads(ts, i, j, Yield(left)))
    ensures var r := Suffix(ts, left, j); r.Done? && Plain(r.value) ==> Reads(ts, i, r.at, Yield(r.value))
    decreases |ts| - j, 3, 1
  {
    hide ParseExpression, List, IndexTail, Erase, Reads;
    var next := ts[j + 1].kind;
    InfixSpelled(next);
    if Plain(left) {
      if Erase(left).Ident? && NextIs(ts, j + 1, next) && (next == Plus || next == Minus) {
        ReadsFixed(ts, j + 1);
        ReadsFixed(ts, j + 2);
        ReadsCat(ts, j + 1, j + 1, j + 2, [Fixed(next)], [Fixed(next)]);
        ReadsCat(ts, i, j, j + 2, Yield(left), [Fixed(next)] + [Fixed(next)]);
        assert [Fixed(next)] + [Fixed(next)] == [Fixed(next), Fixed(next)];
      } else {
        YieldInfix(ts, i, left, j, Prec(next));
      }
    }
  }

  lemma {:induction false} IndexedLeft(ts: seq<Tok>, left: Tree, j: nat)
    requires j < |ts|
    ensures var r := IndexTail(ts, left, j); r.Done? ==> (r.value.TIndex? || r.value.TSlice?) && r.value.left == left
  {
    hide ParseExpression;
  }

  lemma {:induction false} InfixSpelled(kind: TokenType)
    requires IsInfix(kind)
    ensures Spelling(kind) != ""
  {
  }

  lemma {:induction false} YieldInfix(ts: seq<Tok>, i: nat, left: Tree, j: nat, prec: nat)
    requires i <= j && j + 1 < |ts| && Spelled(ts) && Reads(ts, i, j, Yield(left)) && Spelling(ts[j + 1].kind) != ""
    ensures var r := ParseExpression(ts, j + 2, prec);
            r.Done? && Plain(r.value) ==> Reads(ts, i, r.at, Yield(left) + [Fixed(ts[j + 1].kind)] + Yield(r.value))
    decreases |ts| - j, 3, 0
  {
    hide ParseExpression, Reads, Yield, Plain;
    YieldExpression(ts, j + 2, prec);
    var r := ParseExpression(ts, j + 2, prec);
    if r.Done? && Plain(r.value) {
      ReadsFixed(ts, j + 1);
      ReadsCat(ts, i, j, j + 1, Yield(left), [Fixed(ts[j + 1].kind)]);
      ReadsCat(ts, i, j + 1, r.at, Yield(left) + [Fixed(ts[j + 1].kind)], Yield(r.value));
    }
  }

  lemma {:induction false} YieldCall(ts: seq<Tok>, i: nat, left: Tree, j: nat)
    requires i <= j && j + 1 < |ts| && Spelled(ts) && Reads(ts, i, j, Yield(left)) && ts[j + 1].kind == LParen
    ensures var r := List(ts, j + 1, RParen);
            r.Done? && AllPlain(r.value) ==> Reads(ts, i, r.at, Yield(left) + [Fixed(LParen)] + YieldAll(r.value)
              + [Fixed(RParen)])
    decreases |ts| - j, 3, 0
  {
    hide List, Reads, Yield, YieldAll, AllPlain;
    YieldList(ts, j + 1, RParen);
    var r := List(ts, j + 1, RParen);
    if r.Done? && AllPlain(r.value) {
      ReadsFixed(ts, j + 1);
      ReadsCat(ts, i, j, j + 1, Yield(left), [Fixed(LParen)]);
      ReadsCat(ts, i, j + 1, r.at, Yield(left) + [Fixed(LParen)], YieldAll(r.value) + [Fixed(RParen)]);
      Regroup(Yield(left) + [Fixed(LParen)], YieldAll(r.value), [Fixed(RParen)]);
    }
  }

  lemma {:induction false} Regroup<T>(a: seq<T>, b: seq<T>, c: seq<T>)
    ensures a + (b + c) == a + b + c
  {
  }

  /** An index or a slice, from its bracket at j. */
  lemma {:induction false} YieldIndex(ts: seq<Tok>, i: nat, left: Tree, j: nat)
    requires i < j < |ts| && Spelled(ts) && Plain(left) && Reads(ts, i, j - 1, Yield(left)) && ts[j].kind == LBracket
    ensures var r := IndexTail(ts, left, j); r.Done? && Plain(r.value) ==> Reads(ts, i, r.at, Yield(r.value))
    decreases |ts| - j, 3
  {
    hide ParseExpression, Reads, SliceTail, Yield, Plain, Front, Spelled;
    ReadsFixed(ts, j);
    ReadsCat(ts, i, j - 1, j, Yield(left), [Fixed(LBracket)]);
    if NextIs(ts, j, Colon) {
      FrontNow(left, None);
      YieldSlice(ts, i, left, None, j);
    } else {
      YieldExpression(ts, j + 1, LOWEST);
      var r := ParseExpression(ts, j + 1, LOWEST);
      if r.Done? {
        if NextIs(ts, r.at, Colon) {
          IndexOpened(ts, i, left, r.value, j, r.at);
          YieldSlice(ts, i, left, Some(r.value), r.at);
        } else {
          IndexParts(left, r.value);
          if NextIs(ts, r.at, RBracket) && Plain(r.value) {
            IndexClosed(ts, i, left, r.value, j, r.at);
          }
        }
      }
    }
  }

  /** The first bound of a slice, and the index in its brackets. */
  lemma {:induction false} IndexOpened(ts: seq<Tok>, i: nat, left: Tree, x: Tree, j: nat, k: nat)
    requires i <= j < k && Reads(ts, i, j, Yield(left) + [Fixed(LBracket)])
    ensures Plain(x) && Reads(ts, j + 1, k, Yield(x)) ==> Reads(ts, i, k, Front(left, Some(x)))
  {
    hide Reads, Yield, Plain, Front;
    FrontNow(left, Some(x));
    if Reads(ts, j + 1, k, Yield(x)) {
      ReadsCat(ts, i, j, k, Yield(left) + [Fixed(LBracket)], Yield(x));
    }
  }

  lemma {:induction false} IndexClosed(ts: seq<Tok>, i: nat, left: Tree, x: Tree, j: nat, k: nat)
    requires i <= j < k && Spelled(ts) && NextIs(ts, k, RBracket)
    requires Reads(ts, i, j, Yield(left) + [Fixed(LBracket)]) && Reads(ts, j + 1, k, Yield(x))
    ensures Reads(ts, i, k + 1, Yield(TIndex(left, x)))
  {
    hide Reads, Yield, Plain;
    IndexParts(left, x);
    ReadsCat(ts, i, j, k, Yield(left) + [Fixed(LBracket)], Yield(x));
    ReadsFixed(ts, k + 1);
    ReadsCat(ts, i, k, k + 1, Yield(left) + [Fixed(LBracket)] + Yield(x), [Fixed(RBracket)]);
  }

  lemma {:induction false} IndexParts(left: Tree, index: Tree)
    ensures Plain(TIndex(left, index)) == (Plain(left) && Plain(index))
    ensures Yield(TIndex(left, index)) == Yield(left) + [Fixed(LBracket)] + Yield(index) + [Fixed(RBracket)]
  {
  }

  function Front(left: Tree, start: Option<Tree>): seq<Tok> {
    Yield(left) + [Fixed(LBracket)] + (match start case None => [] case Some(x) => Yield(x))
  }

  lemma {:induction false} FrontNow(l: Tree, start: Option<Tree>)
    ensures start.None? ==> Front(l, start) == Yield(l) + [Fixed(LBracket)]
    ensures Front(l, start) == Yield(l) + [Fixed(LBracket)] + (match start case None => [] case Some(x) => Yield(x))
  {
  }

  lemma {:induction false} YieldSlice(ts: seq<Tok>, i: nat, left: Tree, start: Option<Tree>, j: nat)
    requires i <= j && j + 1 < |ts| && Spelled(ts) && ts[j + 1].kind == Colon && Plain(left)
    requires (start.Some? ==> Plain(start.value)) ==> Reads(ts, i, j, Front(left, start))
    ensures var r := SliceTail(ts, left, start, j); r.Done? && Plain(r.value) ==> Reads(ts, i, r.at, Yield(r.value))
    decreases |ts| - j, 2
  {
    hide ParseExpression, Reads, Front, Yield, Plain, Spelling, Fixed, Spelled;
    if start.Some? && !Plain(start.value) {
      NotPlainSlice(ts, left, start, j);
      return;
    }
    SeparatorsSpelled();
    ReadsFixed(ts, j + 1);
    ReadsCat(ts, i, j, j + 1, Front(left, start), [Fixed(Colon)]);
    if NextIs(ts, j + 1, RBracket) {
      SliceClosed(ts, i, left, start, None, j + 1);
    } else {
      YieldExpression(ts, j + 2, LOWEST);
      var r := ParseExpression(ts, j + 2, LOWEST);
      if r.Done? && NextIs(ts, r.at, RBracket) {
        if Plain(r.value) {
          ReadsCat(ts, i, j + 1, r.at, Front(left, start) + [Fixed(Colon)], Yield(r.value));
          SliceClosed(ts, i, left, start, Some(r.value), r.at);
        } else {
          SliceYield(left, start, Some(r.value));
        }
      }
    }
  }

  lemma {:induction false} SeparatorsSpelled()
    ensures Spelling(Colon) != "" && Spelling(Comma) != ""
  {
  }

  /** The closing bracket after the bounds. */
  lemma {:induction false} SliceClosed(ts: seq<Tok>, i: nat, left: Tree, start: Option<Tree>, end: Option<Tree>, k: nat)
    requires Spelled(ts) && NextIs(ts, k, RBracket) && i <= k
    requires Reads(ts, i, k, match end case None => Front(left, start) + [Fixed(Colon)]
             case Some(x) => Front(left, start) + [Fixed(Colon)] + Yield(x))
    ensures Reads(ts, i, k + 1, Yield(TSlice(left, start, end)))
  {
    hide Reads, Front, Yield, Plain;
    SliceYield(left, start, end);
    ReadsFixed(ts, k + 1);
    ReadsCat(ts, i, k, k + 1, match end case None => Front(left, start) + [Fixed(Colon)]
             case Some(x) => Front(left, start) + [Fixed(Colon)] + Yield(x),
             [Fixed(RBracket)]);
  }

  lemma {:induction false} NotPlainSlice(ts: seq<Tok>, left: Tree, start: Option<Tree>, j: nat)
    requires j + 1 < |ts| && start.Some? && !Plain(start.value)
    ensures var r := SliceTail(ts, left, start, j); r.Done? ==> !Plain(r.value)
  {
    hide ParseExpression;
  }

  lemma {:induction false} SliceYield(left: Tree, start: Option<Tree>, end: Option<Tree>)
    ensures Yield(TSlice(left, start, end))
         == Front(left, start) + [Fixed(Colon)] + (match end case None => [] case Some(x) => Yield(x))
           + [Fixed(RBracket)]
    ensures end.None? ==> Yield(TSlice(left, start, end)) == Front(left, start) + [Fixed(Colon)] + [Fixed(RBracket)]
    ensures Plain(TSlice(left, start, end)) == (Plain(left) && (start.Some? ==> Plain(start.value))
            && (end.Some? ==> Plain(end.value)))
  {
  }

  /** The elements of a list and its closing token. */
  lemma {:induction false} YieldList(ts: seq<Tok>, j: nat, end: TokenType)
    requires j < |ts| && Spelled(ts) && Spelling(end) != ""
    ensures var r := List(ts, j, end);
            r.Done? && AllPlain(r.value)
            ==> Reads(ts, j + 1, r.at, YieldAll(r.value) + [Fixed(end)])
    decreases |ts| - j, 7
  {
    hide ParseExpression, ListLoop, Reads, Yield, Plain;
    if NextIs(ts, j, end) {
      ReadsFixed(ts, j + 1);
      assert [] + [Fixed(end)] == [Fixed(end)];
    } else {
      YieldExpression(ts, j + 1, LOWEST);
      var r := ParseExpression(ts, j + 1, LOWEST);
      if r.Done? {
        OnePlain(r.value);
        YieldListLoop(ts, j + 1, [r.value], r.at, end);
      }
    }
  }

  lemma {:induction false} OnePlain(t: Tree)
    ensures AllPlain([t]) == Plain(t) && YieldAll([t]) == Yield(t)
  {
    assert [t][1..] == [];
  }

  lemma {:induction false} YieldListLoop(ts: seq<Tok>, i: nat, done: seq<Tree>, j: nat, end: TokenType)
    requires i <= j <= |ts| && Spelled(ts) && Spelling(end) != "" && done != []
    requires AllPlain(done) ==> Reads(ts, i, j, YieldAll(done))
    ensures var r := ListLoop(ts, done, j, end);
            r.Done? && AllPlain(r.value)
            ==> Reads(ts, i, r.at, YieldAll(r.value) + [Fixed(end)])
    decreases |ts| - j, 6
  {
    hide ParseExpression, Reads, Yield, YieldAll, Plain, AllPlain, Spelling, Fixed, Spelled;
    SeparatorsSpelled();
    if NextIs(ts, j, Comma) {
      YieldExpression(ts, j + 2, LOWEST);
      var r := ParseExpression(ts, j + 2, LOWEST);
      if r.Done? {
        YieldSnoc(done, r.value);
        if AllPlain(done) && Plain(r.value) {
          ReadsFixed(ts, j + 1);
          ReadsCat(ts, i, j, j + 1, YieldAll(done), [Fixed(Comma)]);
          ReadsCat(ts, i, j + 1, r.at, YieldAll(done) + [Fixed(Comma)], Yield(r.value));
        }
        YieldListLoop(ts, i, done + [r.value], r.at, end);
      }
    } else if NextIs(ts, j, end) && AllPlain(done) {
      ReadsFixed(ts, j + 1);
      ReadsCat(ts, i, j, j + 1, YieldAll(done), [Fixed(end)]);
    }
  }

  /**
   parse_expression(prec) on any tokens: if it succeeds without statements, it has
   read exactly the tokens of its tree, every operand binds as its operator
   demands, and the next token binds no tighter than prec.
   */
  lemma {:induction false} PrattIsSound(ts: seq<Tok>, i: nat, prec: nat)
    requires i <= |ts| && Spelled(ts) && Power(prec) && ParseExpression(ts, i, prec).Done?
    ensures var r := ParseExpression(ts, i, prec);
            && Bound(ts, i, r.value, r.at, prec)
            && (Plain(r.value) ==> Reads(ts, i, r.at, Yield(r.value)))
  {
    hide ParseExpression, Yield, Plain, Reads, Bound, Spelled;
    BoundExpression(ts, i, prec);
    YieldExpression(ts, i, prec);
  }
}
