/** The printer of expressions (src/parser.c:910-1032). */
module Printing {
  import opened Lexing
  import opened Parsing
  import opened PrattSoundness

  predicate Word(s: string) { 0 < |s| < MAX_IDENT_LENGTH && IsLetter(s[0]) && (forall i | 0 <= i < |s| :: IsWord(s[i]))
                 && Keyword(s) == IdentT }

  predicate Number(s: string) { 0 < |s| < MAX_IDENT_LENGTH && forall i | 0 <= i < |s| :: IsDigit(s[i]) }

  /** Names, numbers, truth values, operators, calls, arrays and indices. */
  predicate Printable(t: Tree)
    decreases t, 0
  {
    match t
    case TIdent(name) => Word(name)
    case TInt(digits) => Number(digits)
    case TBool(_) => true
    case TGroup(x) => Printable(x)
    case TPrefix(op, x) => (op == Bang || op == Minus) && Printable(x)
    case TInfix(op, l, r) => IsInfix(op) && Printable(l) && Printable(r)
    case TCall(f, args) => Printable(f) && AllPrintable(args)
    case TArray(es) => AllPrintable(es)
    case TIndex(l, x) => Printable(l) && Printable(x)
    case _ => false
  }

  predicate AllPrintable(ts: seq<Tree>)
    decreases ts, 0
  {
    ts == [] || (Printable(ts[0]) && AllPrintable(ts[1..]))
  }

  /** Every operator and index in brackets; the groups of the program are not kept. */
  function Text(t: Tree): string
    requires Printable(t)
    decreases t, 0
  {
    match t
    case TIdent(name) => name
    case TInt(digits) => digits
    case TBool(b) => Spelling(if b then TrueT else FalseT)
    case TGroup(x) => Text(x)
    case TPrefix(op, x) => "(" + Spelling(op) + Text(x) + ")"
    case TInfix(op, l, r) => "(" + Text(l) + " " + Spelling(op) + " " + Text(r) + ")"
    case TCall(f, args) => Text(f) + "(" + TextAll(args) + ")"
    case TArray(es) => "[" + TextAll(es) + "]"
    case TIndex(l, x) => "(" + Text(l) + "[" + Text(x) + "])"
  }

  function TextAll(ts: seq<Tree>): string
    requires AllPrintable(ts)
    decreases ts, 0
  {
    if ts == [] then "" else if |ts| == 1 then Text(ts[0]) else Text(ts[0]) + ", " + TextAll(ts[1..])
  }

  class Printer {
    var str: string

    constructor ()
      ensures str == ""
    {
      str := "";
    }

    method Cat(s: string)
      modifies this
      ensures str == old(str) + s
    {
      str := str + s;
    }

    /** expression_to_str. */
    method ExpressionToStr(t: Tree)
      requires Printable(t)
      modifies this
      ensures str == old(str) + Text(t)
      decreases t, 1
    {
      hide Word, Number, AllPrintable, TextAll, IsInfix;
      match t
      case TIdent(name) => Cat(name);
      case TInt(digits) => Cat(digits);
      case TBool(b) => Cat(if b then "true" else "false");
      case TGroup(x) => ExpressionToStr(x);
      case TPrefix(op, x) => PrefixToStr(t, op, x);
      case TInfix(op, l, r) => InfixToStr(t, op, l, r);
      case TCall(f, args) =>
        ExpressionToStr(f);
        Cat("(");
        ListToStr(args);
        Cat(")");
      case TArray(es) =>
        Cat("[");
        ListToStr(es);
        Cat("]");
      case TIndex(l, x) => IndexToStr(t, l, x);
    }

    method PrefixToStr(ghost t: Tree, op: TokenType, x: Tree)
      requires t == TPrefix(op, x)
      requires Printable(x)
      modifies this
      ensures str == old(str) + ("(" + Spelling(op) + Text(x) + ")")
      decreases t, 0
    {
      hide Printable, Text, Spelling;
      Cat("(");
      Cat(Spelling(op));
      ExpressionToStr(x);
      Cat(")");
    }

    method InfixToStr(ghost t: Tree, op: TokenType, l: Tree, r: Tree)
      requires t == TInfix(op, l, r)
      requires Printable(l) && Printable(r)
      modifies this
      ensures str == old(str) + ("(" + Text(l) + " " + Spelling(op) + " " + Text(r) + ")")
      decreases t, 0
    {
      hide Printable, Text, Spelling;
      Cat("(");
      ExpressionToStr(l);
      Cat(" ");
      Cat(Spelling(op));
      Cat(" ");
      ExpressionToStr(r);
      Cat(")");
    }

    method IndexToStr(ghost t: Tree, l: Tree, x: Tree)
      requires t == TIndex(l, x)
      requires Printable(l) && Printable(x)
      modifies this
      ensures str == old(str) + ("(" + Text(l) + "[" + Text(x) + "])")
      decreases t, 0
    {
      hide Printable, Text, Spelling;
      Cat("(");
      ExpressionToStr(l);
      Cat("[");
      ExpressionToStr(x);
      Cat("])");
    }

    /** The elements, with a comma after each but the last. */
    method ListToStr(ts: seq<Tree>)
      requires AllPrintable(ts)
      modifies this
      ensures str == old(str) + TextAll(ts)
      decreases ts, 0
    {
      hide Printable, Text;
      var i := 0;
      while i < |ts|
        invariant 0 <= i <= |ts| && AllPrintable(ts[i..])
        invariant str + TextAll(ts[i..]) == old(str) + TextAll(ts)
      {
        ghost var before := str;
        assert ts[i..][1..] == ts[i + 1..];
        ExpressionToStr(ts[i]);
        if i < |ts| - 1 {
          Cat(", ");
        }
        assert str + TextAll(ts[i + 1..]) == before + TextAll(ts[i..]);
        i := i + 1;
      }
    }
  }
}
