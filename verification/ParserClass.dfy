/** The parser over its token stream (src/parser.c:110-860), proved to read what Parsing says. */
module ParserMethods {
  import opened Wrappers
  import opened Lexing
  import opened Parsing
  import Ast

  /** A tree was read, and its expression returned. */
  predicate Read(r: Parse<Tree>, e: Option<Ast.Expr>, at: nat) {
    match r
    case Fail(j) => e == None && at == j
    case Done(t, j) => e == Some(Erase(t)) && at == j
  }

  predicate ReadAs<T(==)>(r: Parse<T>, x: Option<T>, at: nat) {
    match r
    case Fail(j) => x == None && at == j
    case Done(v, j) => x == Some(v) && at == j
  }

  predicate ReadAll(r: Parse<seq<Tree>>, es: Option<seq<Ast.Expr>>, at: nat) {
    match r
    case Fail(j) => es == None && at == j
    case Done(ts, j) => es == Some(EraseAll(ts)) && at == j
  }

  lemma {:induction false} EraseSnoc(ts: seq<Tree>, t: Tree)
    ensures EraseAll(ts + [t]) == EraseAll(ts) + [Erase(t)]
    decreases |ts|
  {
    hide Erase;
    if ts == [] {
      assert ts + [t] == [t] && [t][1..] == [];
    } else {
      assert (ts + [t])[1..] == ts[1..] + [t];
      EraseSnoc(ts[1..], t);
    }
  }

  lemma {:induction false} EraseOne(t: Tree)
    ensures EraseAll([t]) == [Erase(t)]
  {
    assert [t][1..] == [];
  }

  /** One turn of the list loop. */
  lemma {:induction false} ListStep(ts: seq<Tok>, done: seq<Tree>, j: nat, end: TokenType)
    requires j <= |ts|
    ensures ListLoop(ts, done, j, end)
         == if NextIs(ts, j, Comma) then
              match Parsing.ParseExpression(ts, j + 2, LOWEST)
              case Fail(k) => Fail(k)
              case Done(t, k) => ListLoop(ts, done + [t], k, end)
            else
              match Expect(ts, j, end)
              case Fail(k) => Fail(k)
              case Done(_, k) => Done(done, k)
  {
    hide Parsing.ParseExpression;
  }

  lemma {:induction false} BlockStep(ts: seq<Tok>, done: seq<Ast.Stmt>, j: nat, clean: bool)
    requires j <= |ts|
    ensures BlockLoop(ts, done, j, clean)
         == if j == |ts| || ts[j].kind == RBrace || ts[j].kind == Eof
           then (if clean then Done(done, j) else Fail(j)) else
              var r := Statement(ts, j);
              var k := Advance(ts, if NextIs(ts, r.at, Semicolon) then r.at + 1 else r.at);
              BlockLoop(ts, if r.Done? then done + [r.value] else done, k, clean
                        && (r.Done? || ts[j].kind == Semicolon))
  {
    hide Statement;
  }

  lemma {:induction false} ErasedIndex(l: Tree)
    ensures forall i: Tree {:trigger TIndex(l, i)} :: Erase(TIndex(l, i)) == Ast.Index(Erase(l), Erase(i))
  {
  }

  class Parser {
    const tokens: seq<Tok>
    var pos: nat

    predicate Valid()
      reads this
    {
      pos <= |tokens|
    }

    constructor (ts: seq<Tok>)
      ensures Valid() && tokens == ts && pos == 0
    {
      tokens, pos := ts, 0;
    }

    method NextToken()
      requires Valid()
      modifies this
      ensures Valid() && pos == Advance(tokens, old(pos))
    {
      if pos < |tokens| {
        pos := pos + 1;
      }
    }

    predicate NextTokenIs(kind: TokenType)
      reads this
    {
      NextIs(tokens, pos, kind)
    }

    method SkipForward()
      requires Valid()
      modifies this
      ensures Valid() && pos == Parsing.SkipForward(tokens, old(pos))
    {
      while pos < |tokens| && tokens[pos].kind != Semicolon && tokens[pos].kind != Eof
        invariant pos <= |tokens| && Parsing.SkipForward(tokens, pos) == Parsing.SkipForward(tokens, old(pos))
        decreases |tokens| - pos
      {
        NextToken();
      }
    }

    method AdvanceTo(kind: TokenType) returns (ok: bool)
      requires Valid()
      modifies this
      ensures Valid() && pos == Expect(tokens, old(pos), kind).at && ok == Expect(tokens, old(pos), kind).Done?
    {
      if NextTokenIs(kind) {
        NextToken();
        return true;
      }
      SkipForward();
      return false;
    }

    method ParseExpression(prec: nat) returns (e: Option<Ast.Expr>)
      requires Valid()
      modifies this
      ensures Valid() && Read(Parsing.ParseExpression(tokens, old(pos), prec), e, pos)
      decreases |tokens| - pos, 9
    {
      hide Primary, InfixLoop, Suffix, Erase;
      e := ParsePrimary();
      if e.None? {
        return;
      }
      ghost var i, left := old(pos), Primary(tokens, old(pos)).value;
      while Kind(tokens, pos + 1) != Semicolon && prec < Prec(Kind(tokens, pos + 1)) && pos + 1 < |tokens|
        invariant Valid() && i <= pos && e == Some(Erase(left))
        invariant Parsing.ParseExpression(tokens, i, prec) == InfixLoop(tokens, left, pos, prec)
        decreases |tokens| - pos
      {
        LoopStep(tokens, left, pos, prec);
        ghost var r := Suffix(tokens, left, pos);
        e := ParseSuffix(e.value, left);
        if e.None? {
          return;
        }
        left := r.value;
      }
      LoopStep(tokens, left, pos, prec);
    }

    method ParsePrimary() returns (e: Option<Ast.Expr>)
      requires Valid()
      modifies this
      ensures Valid() && Read(Primary(tokens, old(pos)), e, pos)
      decreases |tokens| - pos, 8
    {
      hide Parsing.ParseExpression, List, IfTail, WhileTail, ForTail, FunctionTail;
      if pos == |tokens| {
        return None;
      }
      var t := tokens[pos];
      match t.kind
      case IdentT => return Some(Ast.Ident(t.text));
      case IntT =>
        var n := ParseInt(t.text);
        return Some(Ast.IntLit(n));
      case TrueT => return Some(Ast.BoolLit(true));
      case FalseT => return Some(Ast.BoolLit(false));
      case StringT => return Some(Ast.StringLit(Unescape(t.text)));
      case Bang => e := ParsePrefix();
      case Minus => e := ParsePrefix();
      case LParen => e := ParseGroup();
      case LBracket =>
        var es := ParseList(RBracket);
        return if es.Some? then Some(Ast.ArrayLit(es.value)) else None;
      case IfT => e := ParseIf();
      case WhileT => e := ParseWhile();
      case ForT => e := ParseFor();
      case FunctionT => e := ParseFunction();
      case Semicolon => return None;
      case _ =>
        SkipForward();
        return None;
    }

    method ParseInt(digits: string) returns (n: nat)
      ensures n == IntValue(digits)
    {
      n := 0;
      for i := 0 to |digits|
        invariant n == IntValue(digits[..i])
      {
        assert digits[..i + 1][..i] == digits[..i];
        n := n * 10 + (if '0' <= digits[i] <= '9' then digits[i] as int - '0' as int else 0);
      }
      assert digits[..|digits|] == digits;
    }

    method ParsePrefix() returns (e: Option<Ast.Expr>)
      requires Valid() && pos < |tokens|
      modifies this
      ensures Valid() && Read(PrefixTail(tokens, old(pos)), e, pos)
      decreases |tokens| - pos, 0
    {
      hide Parsing.ParseExpression;
      var op := tokens[pos].kind;
      NextToken();
      e := ParseExpression(PREFIX);
      if e.Some? {
        e := Some(Ast.Prefix(OperatorOf(op), e.value));
      }
    }

    method ParseGroup() returns (e: Option<Ast.Expr>)
      requires Valid() && pos < |tokens|
      modifies this
      ensures Valid() && Read(GroupTail(tokens, old(pos)), e, pos)
      decreases |tokens| - pos, 0
    {
      hide Parsing.ParseExpression;
      NextToken();
      e := ParseExpression(LOWEST);
      if e.None? {
        return;
      }
      var ok := AdvanceTo(RParen);
      if !ok {
        return None;
      }
    }

    /** One operator, call or index after `left`. */
    method ParseSuffix(left: Ast.Expr, ghost tree: Tree) returns (e: Option<Ast.Expr>)
      requires Valid() && pos + 1 < |tokens| && left == Erase(tree)
      modifies this
      ensures Valid() && Read(Suffix(tokens, tree, old(pos)), e, pos)
      decreases |tokens| - pos, 4
    {
      hide Parsing.ParseExpression, List, IndexTail, Parsing.SkipForward, OperatorOf;
      var next := tokens[pos + 1].kind;
      NextToken();
      if next == AssignT {
        e := ParseAssignment(left, tree);
      } else if IsInfix(next) {
        if left.Ident? && NextTokenIs(next) && (next == Plus || next == Minus) {
          NextToken();
          return Some(Ast.Postfix(OperatorOf(next), left.name));
        }
        NextToken();
        var right := ParseExpression(Prec(next));
        return if right.Some? then Some(Ast.Infix(OperatorOf(next), left, right.value)) else None;
      } else if next == LParen {
        var args := ParseList(RParen);
        return if args.Some? then Some(Ast.Call(left, args.value)) else None;
      } else if next == LBracket {
        e := ParseIndex(left, tree);
      } else {
        return None;
      }
    }

    /** An identifier or an element may be assigned to, nothing else. */
    method ParseAssignment(left: Ast.Expr, ghost tree: Tree) returns (e: Option<Ast.Expr>)
      requires Valid() && 1 <= pos < |tokens| && left == Erase(tree) && tokens[pos].kind == AssignT
      modifies this
      ensures Valid() && Read(Suffix(tokens, tree, old(pos) - 1), e, pos)
      decreases |tokens| - pos, 10
    {
      hide Parsing.ParseExpression, List, IndexTail;
      if !left.Ident? && !left.Index? {
        return None;
      }
      NextToken();
      var right := ParseExpression(ASSIGN);
      if right.None? {
        return None;
      }
      return Some(if left.Ident? then Ast.Assign(left.name, right.value)
        else Ast.AssignIndex(left.left, left.index, right.value));
    }

    method ParseList(end: TokenType) returns (es: Option<seq<Ast.Expr>>)
      requires Valid() && pos < |tokens|
      modifies this
      ensures Valid() && ReadAll(List(tokens, old(pos), end), es, pos)
      decreases |tokens| - pos, 7
    {
      hide Parsing.ParseExpression, Erase, ListLoop;
      if NextTokenIs(end) {
        NextToken();
        return Some([]);
      }
      NextToken();
      var e := ParseExpression(LOWEST);
      if e.None? {
        return None;
      }
      ghost var first := Parsing.ParseExpression(tokens, old(pos) + 1, LOWEST).value;
      EraseOne(first);
      es := ParseRest([e.value], end, [first]);
    }

    /** The elements after the first. */
    method ParseRest(first: seq<Ast.Expr>, end: TokenType, ghost done: seq<Tree>) returns (es: Option<seq<Ast.Expr>>)
      requires Valid() && first == EraseAll(done)
      modifies this
      ensures Valid() && ReadAll(ListLoop(tokens, done, old(pos), end), es, pos)
      decreases |tokens| - pos, 10
    {
      hide Parsing.ParseExpression, Erase, ListLoop, EraseAll;
      ghost var i, trees := pos, done;
      var list := first;
      while NextTokenIs(Comma)
        invariant Valid() && i <= pos && list == EraseAll(trees)
        invariant ListLoop(tokens, done, i, end) == ListLoop(tokens, trees, pos, end)
        decreases |tokens| - pos
      {
        ghost var r := Parsing.ParseExpression(tokens, pos + 2, LOWEST);
        ListStep(tokens, trees, pos, end);
        NextToken();
        NextToken();
        var e := ParseExpression(LOWEST);
        if e.None? {
          return None;
        }
        EraseSnoc(trees, r.value);
        list, trees := list + [e.value], trees + [r.value];
      }
      ListStep(tokens, trees, pos, end);
      var ok := AdvanceTo(end);
      return if ok then Some(list) else None;
    }

    method ParseIndex(left: Ast.Expr, ghost tree: Tree) returns (e: Option<Ast.Expr>)
      requires Valid() && pos < |tokens| && left == Erase(tree)
      modifies this
      ensures Valid() && Read(IndexTail(tokens, tree, old(pos)), e, pos)
      decreases |tokens| - pos, 3
    {
      hide Parsing.ParseExpression, SliceTail, Erase;
      ErasedIndex(tree);
      if NextTokenIs(Colon) {
        e := ParseSlice(left, None, tree, None);
        return;
      }
      ghost var r := Parsing.ParseExpression(tokens, pos + 1, LOWEST);
      NextToken();
      var index := ParseExpression(LOWEST);
      if index.None? {
        return None;
      }
      if NextTokenIs(Colon) {
        e := ParseSlice(left, index, tree, Some(r.value));
        return;
      }
      var ok := AdvanceTo(RBracket);
      return if ok then Some(Ast.Index(left, index.value)) else None;
    }

    method ParseSlice(left: Ast.Expr, start: Option<Ast.Expr>, ghost tree: Tree, ghost first: Option<Tree>)
                      returns (e: Option<Ast.Expr>)
      requires Valid() && pos + 1 < |tokens| && left == Erase(tree)
      requires start == match first case None => None case Some(x) => Some(Erase(x))
      modifies this
      ensures Valid() && Read(SliceTail(tokens, tree, first, old(pos)), e, pos)
      decreases |tokens| - pos, 2
    {
      hide Parsing.ParseExpression;
      NextToken();
      if NextTokenIs(RBracket) {
        NextToken();
        return Some(Ast.Slice(left, start, None));
      }
      NextToken();
      var end := ParseExpression(LOWEST);
      if end.None? {
        return None;
      }
      var ok := AdvanceTo(RBracket);
      return if ok then Some(Ast.Slice(left, start, end)) else None;
    }

    // ---- constructs with bodies ----

    method ParseCondition() returns (c: Option<Ast.Expr>)
      requires Valid() && pos < |tokens|
      modifies this
      ensures Valid() && ReadAs(Condition(tokens, old(pos)), c, pos)
      decreases |tokens| - pos, 1
    {
      hide Parsing.ParseExpression;
      var ok := AdvanceTo(LParen);
      if !ok {
        return None;
      }
      NextToken();
      c := ParseExpression(LOWEST);
      if c.None? {
        return;
      }
      ok := AdvanceTo(RParen);
      if !ok {
        return None;
      }
      ok := AdvanceTo(LBrace);
      if !ok {
        return None;
      }
    }

    method ParseIf() returns (e: Option<Ast.Expr>)
      requires Valid() && pos < |tokens|
      modifies this
      ensures Valid() && ReadAs(IfTail(tokens, old(pos)), e, pos)
      decreases |tokens| - pos, 2
    {
      hide Condition, Block, Statement;
      var c := ParseCondition();
      if c.None? {
        return None;
      }
      var conseq := ParseBlock();
      if conseq.None? {
        return None;
      }
      if !NextTokenIs(ElseT) {
        return Some(Ast.If(c.value, conseq.value, Ast.NoElse));
      }
      NextToken();
      if NextTokenIs(IfT) {
        NextToken();
        var x := ParseStatement();
        return if x.Some? then Some(Ast.If(c.value, conseq.value, Ast.Else([x.value]))) else None;
      }
      var ok := AdvanceTo(LBrace);
      if !ok {
        return None;
      }
      var alt := ParseBlock();
      return if alt.Some? then Some(Ast.If(c.value, conseq.value, Ast.Else(alt.value))) else None;
    }

    method ParseWhile() returns (e: Option<Ast.Expr>)
      requires Valid() && pos < |tokens|
      modifies this
      ensures Valid() && ReadAs(WhileTail(tokens, old(pos)), e, pos)
      decreases |tokens| - pos, 2
    {
      hide Condition, Block;
      var c := ParseCondition();
      if c.None? {
        return None;
      }
      var body := ParseBlock();
      return if body.Some? then Some(Ast.While(c.value, body.value)) else None;
    }

    method ParseClause(end: TokenType) returns (x: Option<Ast.Stmt>)
      requires Valid() && pos < |tokens|
      modifies this
      ensures Valid() && ReadAs(Clause(tokens, old(pos), end), x, pos)
      decreases |tokens| - pos, 1
    {
      hide Statement;
      if NextTokenIs(end) {
        NextToken();
        return Some(Ast.Empty);
      }
      NextToken();
      x := ParseStatement();
      if x.None? {
        return;
      }
      var ok := AdvanceTo(end);
      return if ok then x else None;
    }

    method ParseTest() returns (c: Option<Option<Ast.Expr>>)
      requires Valid() && pos < |tokens|
      modifies this
      ensures Valid() && ReadAs(Test(tokens, old(pos)), c, pos)
      decreases |tokens| - pos, 1
    {
      hide Parsing.ParseExpression;
      if NextTokenIs(Semicolon) {
        NextToken();
        return Some(None);
      }
      NextToken();
      var e := ParseExpression(LOWEST);
      if e.None? {
        return None;
      }
      var ok := AdvanceTo(Semicolon);
      return if ok then Some(e) else None;
    }

    method ParseFor() returns (e: Option<Ast.Expr>)
      requires Valid() && pos < |tokens|
      modifies this
      ensures Valid() && ReadAs(ForTail(tokens, old(pos)), e, pos)
      decreases |tokens| - pos, 2
    {
      hide Clause, Test, Block;
      var ok := AdvanceTo(LParen);
      if !ok {
        return None;
      }
      var init := ParseClause(Semicolon);
      if init.None? {
        return None;
      }
      var test := ParseTest();
      if test.None? {
        return None;
      }
      var inc := ParseClause(RParen);
      if inc.None? {
        return None;
      }
      ok := AdvanceTo(LBrace);
      if !ok {
        return None;
      }
      var body := ParseBlock();
      return if body.Some? then Some(Ast.For(init.value, test.value, inc.value, body.value)) else None;
    }

    method ParseFunction() returns (e: Option<Ast.Expr>)
      requires Valid() && pos < |tokens|
      modifies this
      ensures Valid() && ReadAs(FunctionTail(tokens, old(pos)), e, pos)
      decreases |tokens| - pos, 2
    {
      hide Params, Block;
      var ok := AdvanceTo(LParen);
      if !ok {
        return None;
      }
      var params := ParseParams();
      if params.None? {
        return None;
      }
      ok := AdvanceTo(LBrace);
      if !ok {
        return None;
      }
      var body := ParseBlock();
      return if body.Some? then Some(Ast.Function(params.value, body.value)) else None;
    }

    method ParseParams() returns (names: Option<seq<string>>)
      requires Valid() && pos < |tokens|
      modifies this
      ensures Valid() && ReadAs(Params(tokens, old(pos)), names, pos)
    {
      if NextTokenIs(RParen) {
        NextToken();
        return Some([]);
      }
      NextToken();
      if pos == |tokens| {
        return None;
      }
      ghost var i := old(pos);
      var list := [tokens[pos].text];
      while NextTokenIs(Comma)
        invariant Valid() && i < pos < |tokens|
        invariant Params(tokens, i) == ParamLoop(tokens, list, pos)
        decreases |tokens| - pos
      {
        NextToken();
        NextToken();
        if pos == |tokens| {
          return None;
        }
        list := list + [tokens[pos].text];
      }
      var ok := AdvanceTo(RParen);
      return if ok then Some(list) else None;
    }

    /** Statements up to the closing brace; one that fails is left out. */
    method ParseBlock() returns (b: Option<seq<Ast.Stmt>>)
      requires Valid() && pos < |tokens|
      modifies this
      ensures Valid() && ReadAs(Block(tokens, old(pos)), b, pos)
      decreases |tokens| - pos, 1
    {
      hide Statement, BlockLoop;
      NextToken();
      ghost var i := old(pos);
      var list, clean := [], true;
      while pos < |tokens| && tokens[pos].kind != RBrace && tokens[pos].kind != Eof
        invariant Valid() && i < pos && i < |tokens|
        invariant Block(tokens, i) == BlockLoop(tokens, list, pos, clean)
        decreases |tokens| - pos
      {
        BlockStep(tokens, list, pos, clean);
        var empty := tokens[pos].kind == Semicolon;
        var x := ParseStatement();
        if x.Some? {
          list := list + [x.value];
        }
        clean := clean && (x.Some? || empty);
        if NextTokenIs(Semicolon) {
          NextToken();
        }
        NextToken();
      }
      BlockStep(tokens, list, pos, clean);
      return if clean then Some(list) else None;
    }

    method ParseStatement() returns (x: Option<Ast.Stmt>)
      requires Valid()
      modifies this
      ensures Valid() && ReadAs(Statement(tokens, old(pos)), x, pos)
      decreases |tokens| - pos, 11
    {
      hide Parsing.ParseExpression, LetTail, Parsing.OptionalValue;
      var kind := Kind(tokens, pos);
      if kind == LetT {
        x := ParseLet();
      } else if kind == ReturnT {
        NextToken();
        var e := ParseOptionalValue();
        return if e.Some? then Some(Ast.Return(e.value)) else None;
      } else if kind == BreakT {
        return Some(Ast.Break);
      } else if kind == ContinueT {
        return Some(Ast.Continue);
      } else {
        var e := ParseExpression(LOWEST);
        return if e.Some? then Some(Ast.ExprStmt(e.value)) else None;
      }
    }

    method ParseOptionalValue() returns (e: Option<Option<Ast.Expr>>)
      requires Valid()
      modifies this
      ensures Valid() && ReadAs(OptionalValue(tokens, old(pos)), e, pos)
      decreases |tokens| - pos, 10
    {
      hide Parsing.ParseExpression;
      if Kind(tokens, pos) == Semicolon {
        return Some(None);
      }
      var v := ParseExpression(LOWEST);
      return if v.Some? then Some(v) else None;
    }

    method ParseLet() returns (x: Option<Ast.Stmt>)
      requires Valid() && pos < |tokens|
      modifies this
      ensures Valid() && ReadAs(LetTail(tokens, old(pos)), x, pos)
      decreases |tokens| - pos, 10
    {
      hide Parsing.OptionalValue;
      var ok := AdvanceTo(IdentT);
      if !ok {
        return None;
      }
      var name := tokens[pos].text;
      if !NextTokenIs(AssignT) {
        return Some(Ast.Let(name, None));
      }
      NextToken();
      NextToken();
      var v := ParseOptionalValue();
      return if v.Some? then Some(Ast.Let(name, v.value)) else None;
    }

    /** parse_program: whatever the tokens, it comes to their end. */
    method ParseProgram() returns (b: Option<seq<Ast.Stmt>>)
      requires Valid()
      modifies this
      ensures Valid() && ReadAs(ProgramLoop(tokens, [], old(pos), true), b, pos)
      ensures pos == |tokens| || tokens[pos].kind == Eof
    {
      hide Statement;
      ghost var i := old(pos);
      var list, clean := [], true;
      while pos < |tokens| && tokens[pos].kind != Eof
        invariant Valid()
        invariant ProgramLoop(tokens, [], i, true) == ProgramLoop(tokens, list, pos, clean)
        decreases |tokens| - pos
      {
        var empty := tokens[pos].kind == Semicolon;
        var x := ParseStatement();
        if x.None? {
          clean := clean && empty;
          NextToken();
        } else {
          list := list + [x.value];
          if NextTokenIs(Semicolon) {
            NextToken();
          }
          NextToken();
        }
      }
      return if clean then Some(list) else None;
    }
  }

  /** One turn of the infix loop. */
  lemma {:induction false} LoopStep(ts: seq<Tok>, left: Tree, j: nat, prec: nat)
    requires j <= |ts|
    ensures InfixLoop(ts, left, j, prec)
         == if Kind(ts, j + 1) == Semicolon || prec >= Prec(Kind(ts, j + 1)) || j + 1 >= |ts| then Done(left, j) else
              match Suffix(ts, left, j)
              case Fail(k) => Fail(k)
              case Done(t, k) => InfixLoop(ts, t, k, prec)
  {
    hide Suffix;
  }
}
