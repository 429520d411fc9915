/**
 Which operator binds tighter, by the order in which the language lists them
 (src/parser.c:8-22, 40-74) and not by the parser's own table.
 */
module PrecedenceLaws {
  import opened Lexing
  import opened Parsing
  import opened PrattSoundness
  import opened PrattCompleteness

  /** The operators between two operands, loosest first; those of one line bind alike. */
  predicate OnLevel(op: TokenType, i: nat) {
    match i
    case 0 => op == OrT
    case 1 => op == AndT
    case 2 => op == EqT || op == NotEqT
    case 3 => op == Lt || op == Lte || op == Gt || op == Gte
    case 4 => op == Plus || op == Minus
    case 5 => op == Asterisk || op == Slash || op == Percent
    case _ => false
  }

  ghost predicate Between(op: TokenType) { exists i: nat :: OnLevel(op, i) }

  /** op2 is on a later line than op1. */
  ghost predicate Tighter(op2: TokenType, op1: TokenType) {
    exists i: nat, j: nat :: i < j && OnLevel(op1, i) && OnLevel(op2, j)
  }

  lemma {:induction false} LevelPower(op: TokenType, i: nat)
    requires OnLevel(op, i)
    ensures Prec(op) == LOGICAL_OR + i && IsInfix(op)
  {
  }

  lemma {:induction false} OneLevel(op: TokenType) returns (i: nat)
    requires Between(op)
    ensures OnLevel(op, i) && Prec(op) == LOGICAL_OR + i && IsInfix(op)
  {
    hide OnLevel, Prec, IsInfix;
    i :| OnLevel(op, i);
    LevelPower(op, i);
  }

  lemma {:induction false} TighterPower(op1: TokenType, op2: TokenType)
    requires IsInfix(op1) && IsInfix(op2) && Tighter(op2, op1)
    ensures Prec(op1) < Prec(op2)
  {
    hide OnLevel, Prec, IsInfix;
    var i: nat, j: nat :| i < j && OnLevel(op1, i) && OnLevel(op2, j);
    LevelPower(op1, i);
    LevelPower(op2, j);
  }

  lemma {:induction false} PowerTighter(op1: TokenType, i: nat, op2: TokenType, j: nat)
    requires OnLevel(op1, i) && OnLevel(op2, j) && i < j
    ensures Tighter(op2, op1)
  {
    hide OnLevel;
  }

  /** What needs no brackets as an operand: names, numbers, truth values, strings, arrays and groups. */
  predicate Operand(t: Tree) {
    (t.TIdent? || t.TInt? || t.TBool? || t.TString? || t.TArray? || t.TGroup?) && Plain(t) && Levelled(t)
  }

  lemma {:induction false} OperandBinds(t: Tree)
    requires Operand(t)
    ensures Plain(t) && Levelled(t) && Tightness(t) == INDEX && Loosest(t) == INDEX + 1 && !LeadsMinus(t)
  {
    hide Plain, Levelled;
  }

  /** A whole input is read into the tree that is its own and whose operators are in their places. */
  lemma {:induction false} WholeRead(ts: seq<Tok>, t: Tree)
    requires Plain(t) && Levelled(t) && ts == Yield(t) && LOWEST < Loosest(t)
    ensures ParseExpression(ts, 0, LOWEST) == Done(t, |ts| - 1)
  {
    hide ParseExpression, Plain, Levelled, Yield, Loosest;
    FirstToken(t);
    assert ts[0..|ts|] == ts;
    Closed(ts, 0, t, |ts| - 1, LOWEST);
  }

  /** Of two operators the later one in the list is taken first; of two that bind alike, the left one. */
  lemma {:induction false} TwoOperators(a: Tree, op1: TokenType, b: Tree, op2: TokenType, c: Tree)
    requires Operand(a) && Operand(b) && Operand(c) && Between(op1) && Between(op2)
    ensures var ts := Yield(a) + [Fixed(op1)] + Yield(b) + [Fixed(op2)] + Yield(c);
            ParseExpression(ts, 0, LOWEST)
            == Done(if Tighter(op2, op1) then TInfix(op1, a, TInfix(op2, b, c)) else TInfix(op2, TInfix(op1, a, b), c),
                    |ts| - 1)
  {
    hide ParseExpression, Yield, Operand, Between, Tighter, OnLevel, Prec, IsInfix;
    OperandBinds(a);
    OperandBinds(b);
    OperandBinds(c);
    var i := OneLevel(op1);
    var j := OneLevel(op2);
    var ts := Yield(a) + [Fixed(op1)] + Yield(b) + [Fixed(op2)] + Yield(c);
    if Tighter(op2, op1) {
      TighterPower(op1, op2);
      RightFirst(a, op1, b, op2, c);
      WholeRead(ts, TInfix(op1, a, TInfix(op2, b, c)));
    } else {
      if i < j { PowerTighter(op1, i, op2, j); }
      LeftFirst(a, op1, b, op2, c);
      WholeRead(ts, TInfix(op2, TInfix(op1, a, b), c));
    }
  }

  lemma {:induction false} Powers(op: TokenType)
    requires IsInfix(op)
    ensures ASSIGN < Prec(op) < PREFIX
  {
  }

  lemma {:induction false} RightFirst(a: Tree, op1: TokenType, b: Tree, op2: TokenType, c: Tree)
    requires Operand(a) && Operand(b) && Operand(c) && IsInfix(op1) && IsInfix(op2) && Prec(op1) < Prec(op2)
    ensures var t := TInfix(op1, a, TInfix(op2, b, c));
            && Plain(t) && Levelled(t) && LOWEST < Loosest(t)
            && Yield(t) == Yield(a) + [Fixed(op1)] + Yield(b) + [Fixed(op2)] + Yield(c)
  {
    hide Operand, Prec, IsInfix, Fixed, Erase, Mistakable;
    OperandBinds(a);
    OperandBinds(b);
    OperandBinds(c);
    Powers(op1);
    Powers(op2);
    NotMistaken(op2, b, c);
    NotMistaken(op1, a, TInfix(op2, b, c));
    Regroup5(Yield(a), [Fixed(op1)], Yield(b), [Fixed(op2)], Yield(c));
  }

  lemma {:induction false} NotMistaken(op: TokenType, l: Tree, r: Tree)
    requires !LeadsMinus(r)
    ensures !Mistakable(op, l, r)
  {
  }

  lemma {:induction false} Regroup5<T>(a: seq<T>, b: seq<T>, c: seq<T>, d: seq<T>, e: seq<T>)
    ensures a + b + (c + d + e) == a + b + c + d + e
  {
  }

  lemma {:induction false} LeftFirst(a: Tree, op1: TokenType, b: Tree, op2: TokenType, c: Tree)
    requires Operand(a) && Operand(b) && Operand(c) && IsInfix(op1) && IsInfix(op2) && Prec(op2) <= Prec(op1)
    ensures var t := TInfix(op2, TInfix(op1, a, b), c);
            && Plain(t) && Levelled(t) && LOWEST < Loosest(t)
            && Yield(t) == Yield(a) + [Fixed(op1)] + Yield(b) + [Fixed(op2)] + Yield(c)
  {
    hide Operand, Prec, IsInfix, Fixed, Erase, Mistakable;
    OperandBinds(a);
    OperandBinds(b);
    OperandBinds(c);
    Powers(op1);
    Powers(op2);
    NotMistaken(op1, a, b);
    NotMistaken(op2, TInfix(op1, a, b), c);
  }

  /** A prefix operator takes the operand next to it and no operator behind that. */
  lemma {:induction false} PrefixTakesOne(op: TokenType, a: Tree, op1: TokenType, b: Tree)
    requires Operand(a) && Operand(b) && Between(op1) && (op == Bang || op == Minus)
    ensures var ts := [Fixed(op)] + Yield(a) + [Fixed(op1)] + Yield(b);
            ParseExpression(ts, 0, LOWEST) == Done(TInfix(op1, TPrefix(op, a), b), |ts| - 1)
  {
    hide ParseExpression, Operand, Between, Prec, IsInfix, Fixed, Erase, Mistakable;
    var t := TInfix(op1, TPrefix(op, a), b);
    OperandBinds(a);
    OperandBinds(b);
    var _ := OneLevel(op1);
    Powers(op1);
    NotMistaken(op1, TPrefix(op, a), b);
    WholeRead([Fixed(op)] + Yield(a) + [Fixed(op1)] + Yield(b), t);
  }

  /** It may also follow another operator, unless that makes a name and two minus signs. */
  lemma {:induction false} PrefixAfter(a: Tree, op1: TokenType, op: TokenType, b: Tree)
    requires Operand(a) && Operand(b) && Between(op1) && (op == Bang || op == Minus)
    requires !(op1 == Minus && op == Minus && Erase(a).Ident?)
    ensures var ts := Yield(a) + [Fixed(op1)] + ([Fixed(op)] + Yield(b));
            ParseExpression(ts, 0, LOWEST) == Done(TInfix(op1, a, TPrefix(op, b)), |ts| - 1)
  {
    hide ParseExpression, Operand, Between, Prec, IsInfix, Fixed, Erase;
    var t := TInfix(op1, a, TPrefix(op, b));
    OperandBinds(a);
    OperandBinds(b);
    var _ := OneLevel(op1);
    Powers(op1);
    WholeRead(Yield(a) + [Fixed(op1)] + ([Fixed(op)] + Yield(b)), t);
  }

  /** A call binds tighter than a prefix. */
  lemma {:induction false} PrefixOfCall(op: TokenType, f: Tree, args: seq<Tree>)
    requires Operand(f) && AllPlain(args) && AllLevelled(args) && (op == Bang || op == Minus)
    ensures var ts := [Fixed(op)] + (Yield(f) + [Fixed(LParen)] + YieldAll(args) + [Fixed(RParen)]);
            ParseExpression(ts, 0, LOWEST) == Done(TPrefix(op, TCall(f, args)), |ts| - 1)
  {
    hide ParseExpression, Operand, AllPlain, AllLevelled, YieldAll, Fixed;
    OperandBinds(f);
    WholeRead([Fixed(op)] + (Yield(f) + [Fixed(LParen)] + YieldAll(args) + [Fixed(RParen)]),
              TPrefix(op, TCall(f, args)));
  }

  /** So does an index. */
  lemma {:induction false} PrefixOfIndex(op: TokenType, l: Tree, x: Tree)
    requires Operand(l) && Plain(x) && Levelled(x) && (op == Bang || op == Minus)
    ensures var ts := [Fixed(op)] + (Yield(l) + [Fixed(LBracket)] + Yield(x) + [Fixed(RBracket)]);
            ParseExpression(ts, 0, LOWEST) == Done(TPrefix(op, TIndex(l, x)), |ts| - 1)
  {
    hide ParseExpression, Operand, Fixed;
    OperandBinds(l);
    WholeRead([Fixed(op)] + (Yield(l) + [Fixed(LBracket)] + Yield(x) + [Fixed(RBracket)]), TPrefix(op, TIndex(l, x)));
  }

  /** An assignment takes all of the operators to its right. */
  lemma {:induction false} AssignmentTakesAll(x: string, a: Tree, op: TokenType, b: Tree)
    requires Operand(a) && Operand(b) && Between(op)
    ensures var ts := [Tok(IdentT, x)] + [Fixed(AssignT)] + (Yield(a) + [Fixed(op)] + Yield(b));
            ParseExpression(ts, 0, LOWEST) == Done(TAssign(TIdent(x), TInfix(op, a, b)), |ts| - 1)
  {
    hide ParseExpression, Operand, Between, Prec, IsInfix, Fixed, Mistakable;
    OperandBinds(a);
    OperandBinds(b);
    var _ := OneLevel(op);
    Powers(op);
    NotMistaken(op, a, b);
    WholeRead([Tok(IdentT, x)] + [Fixed(AssignT)] + (Yield(a) + [Fixed(op)] + Yield(b)),
              TAssign(TIdent(x), TInfix(op, a, b)));
  }

  /** A name and two equal signs of addition or subtraction are a postfix operator, whatever follows. */
  lemma {:induction false} PostfixFirst(x: string, op: TokenType, op1: TokenType, b: Tree)
    requires Operand(b) && Between(op1) && (op == Plus || op == Minus)
    ensures var ts := [Tok(IdentT, x)] + [Fixed(op), Fixed(op)] + [Fixed(op1)] + Yield(b);
            ParseExpression(ts, 0, LOWEST) == Done(TInfix(op1, TPostfix(op, TIdent(x)), b), |ts| - 1)
  {
    hide ParseExpression, Operand, Between, Prec, IsInfix, Fixed, Mistakable;
    var p := TPostfix(op, TIdent(x));
    OperandBinds(b);
    var _ := OneLevel(op1);
    Powers(op1);
    PostfixBinds(x, op);
    NotMistaken(op1, p, b);
    WholeRead([Tok(IdentT, x)] + [Fixed(op), Fixed(op)] + [Fixed(op1)] + Yield(b), TInfix(op1, p, b));
  }

  lemma {:induction false} PostfixBinds(x: string, op: TokenType)
    requires op == Plus || op == Minus
    ensures var p := TPostfix(op, TIdent(x));
            && Plain(p) && Levelled(p) && Tightness(p) == INDEX && Loosest(p) == SUM
            && Yield(p) == [Tok(IdentT, x)] + [Fixed(op), Fixed(op)]
  {
    hide Fixed;
    var n := TIdent(x);
    assert Plain(n) && Levelled(n) && Erase(n).Ident? && Loosest(n) == INDEX + 1 && Yield(n) == [Tok(IdentT, x)];
  }
}
