/** Every well-levelled tree is what the parser builds from that tree's tokens (src/parser.c:269-426, 676-772). */
module PrattCompleteness {
  import opened Wrappers
  import opened Lexing
  import opened Parsing
  import opened PrattSoundness

  lemma {:induction false} Split(ts: seq<Tok>, i: nat, k: nat, a: seq<Tok>, b: seq<Tok>)
    requires Reads(ts, i, k, a + b) && a != []
    ensures Reads(ts, i, i + |a| - 1, a) && Reads(ts, i + |a|, k, b)
    ensures k + 1 == i + |a| + |b| <= |ts| && ts[i] == a[0] && (b != [] ==> ts[i + |a|] == b[0])
  {
    var part := ts[i..k + 1];
    assert part[..|a|] == a && part[|a|..] == b;
    assert ts[i..i + |a|] == part[..|a|];
    assert ts[i + |a|..k + 1] == part[|a|..];
    assert part[0] == a[0];
    if b != [] {
      assert part[|a|] == b[0];
    }
  }

  /** Around a fixed token. */
  lemma {:induction false} SplitAt(ts: seq<Tok>, i: nat, k: nat, a: seq<Tok>, kind: TokenType, b: seq<Tok>)
    requires Reads(ts, i, k, a + [Fixed(kind)] + b) && a != []
    ensures var j := i + |a| - 1;
            Reads(ts, i, j, a) && j + 1 < |ts| && ts[j + 1].kind == kind && Reads(ts, j + 2, k, b)
                  && k + 1 == i + |a| + 1 + |b| <= |ts|
    ensures b != [] ==> ts[i + |a| + 1] == b[0]
  {
    hide Reads;
    Split(ts, i, k, a + [Fixed(kind)], b);
    Split(ts, i, i + |a|, a, [Fixed(kind)]);
  }

  /** Before a closing token. */
  lemma {:induction false} SplitEnd(ts: seq<Tok>, i: nat, k: nat, a: seq<Tok>, kind: TokenType)
    requires Reads(ts, i, k, a + [Fixed(kind)])
    ensures k == i + |a| < |ts| && ts[k].kind == kind && (a != [] ==> Reads(ts, i, k - 1, a) && ts[i] == a[0])
  {
    hide Reads;
    if a == [] {
      assert a + [Fixed(kind)] == [Fixed(kind)] + [];
      Split(ts, i, k, [Fixed(kind)], []);
    } else {
      Split(ts, i, k, a, [Fixed(kind)]);
    }
  }

  /** After an opening token. */
  lemma {:induction false} SplitStart(ts: seq<Tok>, i: nat, k: nat, kind: TokenType, b: seq<Tok>)
    requires Reads(ts, i, k, [Fixed(kind)] + b)
    ensures i < |ts| && ts[i].kind == kind && Reads(ts, i + 1, k, b) && k == i + |b| < |ts|
  {
    hide Reads;
    Split(ts, i, k, [Fixed(kind)], b);
  }

  /** No expression starts with these. */
  predicate Starts(kind: TokenType) {
    kind != RParen && kind != RBracket && kind != Colon && kind != Comma && kind != Plus
  }

  lemma {:induction false} FirstToken(t: Tree)
    requires Plain(t) && Levelled(t)
    ensures Yield(t) != [] && var kind := Yield(t)[0].kind; Starts(kind) && (kind == Minus <==> LeadsMinus(t))
    decreases t
  {
    match t
    case TInfix(_, l, _) => FirstToken(l);
    case TPostfix(_, l) => FirstToken(l);
    case TAssign(l, _) => FirstToken(l);
    case TCall(f, _) => FirstToken(f);
    case TIndex(l, _) => FirstToken(l);
    case TSlice(l, _, _) => FirstToken(l);
    case _ =>
  }

  lemma {:induction false} FirstOfAll(es: seq<Tree>)
    requires AllPlain(es) && AllLevelled(es) && es != []
    ensures YieldAll(es) != [] && Starts(YieldAll(es)[0].kind)
  {
    FirstToken(es[0]);
  }

  // ---- one turn of the loop ----

  lemma {:induction false} LoopInfix(ts: seq<Tok>, l: Tree, j: nat, op: TokenType, r: Tree, k: nat, prec: nat)
    requires j + 2 < |ts| && ts[j + 1].kind == op && IsInfix(op) && prec < Prec(op) && k <= |ts|
    requires op == Plus || op == Minus ==> !Erase(l).Ident? || ts[j + 2].kind != op
    requires ParseExpression(ts, j + 2, Prec(op)) == Done(r, k)
    ensures InfixLoop(ts, l, j, prec) == InfixLoop(ts, TInfix(op, l, r), k, prec)
  {
    hide ParseExpression, Erase, List, IndexTail;
    assert Suffix(ts, l, j) == Done(TInfix(op, l, r), k);
  }

  lemma {:induction false} LoopPostfix(ts: seq<Tok>, l: Tree, j: nat, op: TokenType, prec: nat)
    requires j + 2 < |ts| && ts[j + 1].kind == op && ts[j + 2].kind == op && (op == Plus || op == Minus) && prec < SUM
    requires Erase(l).Ident?
    ensures InfixLoop(ts, l, j, prec) == InfixLoop(ts, TPostfix(op, l), j + 2, prec)
  {
    hide ParseExpression, Erase, List, IndexTail;
    assert Suffix(ts, l, j) == Done(TPostfix(op, l), j + 2);
  }

  lemma {:induction false} LoopAssign(ts: seq<Tok>, l: Tree, j: nat, r: Tree, k: nat, prec: nat)
    requires j + 2 < |ts| && ts[j + 1].kind == AssignT && prec < ASSIGN && k <= |ts|
    requires (Erase(l).Ident? || Erase(l).Index?)
    requires ParseExpression(ts, j + 2, ASSIGN) == Done(r, k)
    ensures InfixLoop(ts, l, j, prec) == InfixLoop(ts, TAssign(l, r), k, prec)
  {
    hide ParseExpression, Erase, List, IndexTail;
    assert Suffix(ts, l, j) == Done(TAssign(l, r), k);
  }

  lemma {:induction false} LoopCall(ts: seq<Tok>, f: Tree, j: nat, args: seq<Tree>, k: nat, prec: nat)
    requires j + 1 < |ts| && ts[j + 1].kind == LParen && prec < CALL && k <= |ts|
    requires List(ts, j + 1, RParen) == Done(args, k)
    ensures InfixLoop(ts, f, j, prec) == InfixLoop(ts, TCall(f, args), k, prec)
  {
    hide ParseExpression, Erase, List, IndexTail;
    assert Suffix(ts, f, j) == Done(TCall(f, args), k);
  }

  lemma {:induction false} LoopIndex(ts: seq<Tok>, l: Tree, j: nat, t: Tree, k: nat, prec: nat)
    requires j + 1 < |ts| && ts[j + 1].kind == LBracket && prec < INDEX && k <= |ts|
    requires IndexTail(ts, l, j + 1) == Done(t, k)
    ensures InfixLoop(ts, l, j, prec) == InfixLoop(ts, t, k, prec)
  {
    hide ParseExpression, Erase, List, IndexTail;
    assert Suffix(ts, l, j) == Done(t, k);
  }

  // ---- every tree ----

  /** The tree is read, and nothing after it. */
  lemma {:induction false} Closed(ts: seq<Tok>, i: nat, t: Tree, j: nat, prec: nat)
    requires Plain(t) && Levelled(t) && Power(prec) && Reads(ts, i, j, Yield(t))
    requires Prec(Kind(ts, j + 1)) <= prec < Loosest(t)
    ensures ParseExpression(ts, i, prec) == Done(t, j)
    decreases j + 1 - i, 2
  {
    hide ParseExpression, Plain, Levelled, Yield, Reads;
    Rebuilt(ts, i, t, j, prec);
  }

  /** The tree is read, and the loop goes on from it. */
  lemma {:induction false} Rebuilt(ts: seq<Tok>, i: nat, t: Tree, j: nat, prec: nat)
    requires Plain(t) && Levelled(t) && Power(prec) && prec < Loosest(t)
    requires Reads(ts, i, j, Yield(t)) && Prec(Kind(ts, j + 1)) <= Tightness(t)
    ensures i <= j < |ts| && ParseExpression(ts, i, prec) == InfixLoop(ts, t, j, prec)
    decreases j + 1 - i, 1
  {
    hide ParseExpression, InfixLoop, Plain, Levelled, AllPlain, AllLevelled, Yield, YieldAll, Loosest, Tightness, Reads,
         Erase, LeadsMinus;
    match t
    case TGroup(x) =>
      GroupParts(x);
      RebuiltGroup(ts, i, x, j, prec);
    case TPrefix(op, x) =>
      PrefixParts(op, x);
      RebuiltPrefix(ts, i, op, x, j, prec);
    case TInfix(op, l, r) =>
      InfixParts(op, l, r);
      RebuiltInfix(ts, i, op, l, r, j, prec);
    case TPostfix(op, l) =>
      PostfixParts(op, l);
      RebuiltPostfix(ts, i, op, l, j, prec);
    case TAssign(l, r) =>
      AssignParts(l, r);
      RebuiltAssign(ts, i, l, r, j, prec);
    case TCall(f, args) =>
      CallParts(f, args);
      RebuiltCall(ts, i, f, args, j, prec);
    case TArray(es) =>
      ArrayParts(es);
      RebuiltArray(ts, i, es, j, prec);
    case TIndex(l, x) =>
      IndexedParts(l, x);
      RebuiltIndex(ts, i, l, x, j, prec);
    case TSlice(l, s, e) =>
      SliceParts(l, s, e);
      RebuiltSlice(ts, i, l, s, e, j, prec);
    case _ =>
      NotOther(t);
      RebuiltToken(ts, i, t, j, prec);
  }

  lemma {:induction false} NotOther(t: Tree)
    requires Plain(t)
    ensures !t.TOther?
  {
  }

  lemma {:induction false} GroupParts(x: Tree)
    requires var t := TGroup(x); Plain(t) && Levelled(t)
    ensures Plain(x) && Levelled(x) && Yield(TGroup(x)) == [Fixed(LParen)] + Yield(x) + [Fixed(RParen)]
  {
  }

  lemma {:induction false} PrefixParts(op: TokenType, x: Tree)
    requires var t := TPrefix(op, x); Plain(t) && Levelled(t)
    ensures Plain(x) && Levelled(x) && (op == Bang || op == Minus) && PREFIX < Loosest(x)
    ensures var t := TPrefix(op, x); Tightness(t) == PREFIX && Yield(t) == [Fixed(op)] + Yield(x)
  {
  }

  lemma {:induction false} InfixParts(op: TokenType, l: Tree, r: Tree)
    requires var t := TInfix(op, l, r); Plain(t) && Levelled(t)
    ensures Plain(l) && Plain(r) && Levelled(l) && Levelled(r) && IsInfix(op) && !Mistakable(op, l, r)
    ensures Prec(op) <= Tightness(l) && Prec(op) < Loosest(r)
    ensures var t := TInfix(op, l, r);
            Tightness(t) == Prec(op) && Loosest(t) == Min(Prec(op), Loosest(l))
                      && Yield(t) == Yield(l) + [Fixed(op)] + Yield(r)
  {
  }

  lemma {:induction false} PostfixParts(op: TokenType, l: Tree)
    requires var t := TPostfix(op, l); Plain(t) && Levelled(t)
    ensures Plain(l) && Levelled(l) && (op == Plus || op == Minus) && Erase(l).Ident?
    ensures var t := TPostfix(op, l);
            Loosest(t) == Min(SUM, Loosest(l))
            && Yield(t) == Yield(l) + [Fixed(op), Fixed(op)]
  {
  }

  lemma {:induction false} AssignParts(l: Tree, r: Tree)
    requires var t := TAssign(l, r); Plain(t) && Levelled(t)
    ensures Plain(l) && Plain(r) && Levelled(l) && Levelled(r) && (Erase(l).Ident? || Erase(l).Index?)
    ensures ASSIGN <= Tightness(l) && ASSIGN < Loosest(r)
    ensures var t := TAssign(l, r);
            Tightness(t) == ASSIGN && Loosest(t) == Min(ASSIGN, Loosest(l))
                      && Yield(t) == Yield(l) + [Fixed(AssignT)] + Yield(r)
  {
  }

  lemma {:induction false} CallParts(f: Tree, args: seq<Tree>)
    requires var t := TCall(f, args); Plain(t) && Levelled(t)
    ensures Plain(f) && Levelled(f) && AllPlain(args) && AllLevelled(args) && Tightness(f) >= CALL
    ensures var t := TCall(f, args);
            Loosest(t) == Min(CALL, Loosest(f)) && Yield(t) == Yield(f) + [Fixed(LParen)] + YieldAll(args)
                    + [Fixed(RParen)]
  {
  }

  lemma {:induction false} ArrayParts(es: seq<Tree>)
    requires var t := TArray(es); Plain(t) && Levelled(t)
    ensures AllPlain(es) && AllLevelled(es) && Yield(TArray(es)) == [Fixed(LBracket)] + YieldAll(es) + [Fixed(RBracket)]
  {
  }

  lemma {:induction false} IndexedParts(l: Tree, x: Tree)
    requires var t := TIndex(l, x); Plain(t) && Levelled(t)
    ensures Plain(l) && Plain(x) && Levelled(l) && Levelled(x) && Tightness(l) >= CALL
    ensures var t := TIndex(l, x);
            Loosest(t) == Min(INDEX, Loosest(l)) && Yield(t) == Yield(l) + [Fixed(LBracket)] + Yield(x)
                    + [Fixed(RBracket)]
  {
  }

  lemma {:induction false} SliceParts(l: Tree, start: Option<Tree>, end: Option<Tree>)
    requires var t := TSlice(l, start, end); Plain(t) && Levelled(t)
    ensures Plain(l) && Levelled(l) && Tightness(l) >= CALL && Loosest(TSlice(l, start, end)) == Min(INDEX, Loosest(l))
    ensures start.Some? ==> Plain(start.value) && Levelled(start.value)
    ensures end.Some? ==> Plain(end.value) && Levelled(end.value)
  {
  }

  lemma {:induction false} RebuiltToken(ts: seq<Tok>, i: nat, t: Tree, j: nat, prec: nat)
    requires (t.TIdent? || t.TInt? || t.TBool? || t.TString?) && Reads(ts, i, j, Yield(t))
    ensures i <= j < |ts| && ParseExpression(ts, i, prec) == InfixLoop(ts, t, j, prec)
  {
    hide InfixLoop, GroupTail, PrefixTail, List, IfTail, WhileTail, ForTail, FunctionTail;
    assert ts[i] == ts[i..j + 1][0] && i == j;
    assert Primary(ts, i) == Done(t, i);
  }

  lemma {:induction false} LoosestAbove(t: Tree)
    requires Levelled(t)
    ensures Loosest(t) > LOWEST
    decreases t
  {
    match t
    case TInfix(_, l, _) => LoosestAbove(l);
    case TPostfix(_, l) => LoosestAbove(l);
    case TAssign(l, _) => LoosestAbove(l);
    case TCall(f, _) => LoosestAbove(f);
    case TIndex(l, _) => LoosestAbove(l);
    case TSlice(l, _, _) => LoosestAbove(l);
    case _ =>
  }

  /** What may be called binds as tightly as an index does. */
  lemma {:induction false} Operand(t: Tree)
    requires Levelled(t) && Tightness(t) >= CALL
    ensures Tightness(t) == INDEX
  {
  }

  /** In brackets, any tree is closed. */
  lemma {:induction false} Inside(ts: seq<Tok>, i: nat, t: Tree, j: nat)
    requires Plain(t) && Levelled(t) && Reads(ts, i, j, Yield(t)) && Prec(Kind(ts, j + 1)) == LOWEST
    ensures ParseExpression(ts, i, LOWEST) == Done(t, j)
    decreases j + 1 - i, 3
  {
    hide ParseExpression, Plain, Levelled, Yield, Reads, Loosest;
    LoosestAbove(t);
    Closed(ts, i, t, j, LOWEST);
  }

  lemma {:induction false} RebuiltPrefix(ts: seq<Tok>, i: nat, op: TokenType, x: Tree, j: nat, prec: nat)
    requires Plain(x) && Levelled(x) && (op == Bang || op == Minus) && PREFIX < Loosest(x)
    requires Reads(ts, i, j, [Fixed(op)] + Yield(x)) && Prec(Kind(ts, j + 1)) <= PREFIX
    ensures i <= j < |ts| && ParseExpression(ts, i, prec) == InfixLoop(ts, TPrefix(op, x), j, prec)
    decreases j + 1 - i, 0
  {
    hide InfixLoop, GroupTail, List, IfTail, WhileTail, ForTail, FunctionTail, Plain, Levelled, Yield, Reads, Loosest;
    SplitStart(ts, i, j, op, Yield(x));
    Closed(ts, i + 1, x, j, PREFIX);
    assert PrefixTail(ts, i) == Done(TPrefix(op, x), j);
    assert Primary(ts, i) == Done(TPrefix(op, x), j);
  }

  lemma {:induction false} RebuiltGroup(ts: seq<Tok>, i: nat, x: Tree, j: nat, prec: nat)
    requires Plain(x) && Levelled(x) && Reads(ts, i, j, [Fixed(LParen)] + Yield(x) + [Fixed(RParen)])
    ensures i <= j < |ts| && ParseExpression(ts, i, prec) == InfixLoop(ts, TGroup(x), j, prec)
    decreases j + 1 - i, 0
  {
    hide InfixLoop, PrefixTail, List, IfTail, WhileTail, ForTail, FunctionTail, Plain, Levelled, Yield, Reads, Loosest;
    SplitEnd(ts, i, j, [Fixed(LParen)] + Yield(x), RParen);
    SplitStart(ts, i, j - 1, LParen, Yield(x));
    Inside(ts, i + 1, x, j - 1);
    assert GroupTail(ts, i) == Done(TGroup(x), j);
    assert Primary(ts, i) == Done(TGroup(x), j);
  }

  lemma {:induction false} InfixTokens(ts: seq<Tok>, i: nat, op: TokenType, l: Tree, r: Tree, k: nat)
    requires Plain(l) && Plain(r) && Levelled(l) && Levelled(r)
    requires Reads(ts, i, k, Yield(l) + [Fixed(op)] + Yield(r))
    ensures Yield(l) != [] && Yield(r) != []
    ensures var j := i + |Yield(l)| - 1;
            && j + 2 <= k < |ts| && ts[j + 1].kind == op && Reads(ts, i, j, Yield(l)) && Reads(ts, j + 2, k, Yield(r))
            && ts[j + 2].kind != Plus && (ts[j + 2].kind == Minus <==> LeadsMinus(r))
  {
    hide Plain, Levelled, Yield, Reads, LeadsMinus, Fixed;
    FirstToken(l);
    FirstToken(r);
    SplitAt(ts, i, k, Yield(l), op, Yield(r));
  }

  lemma {:induction false} RebuiltInfix(ts: seq<Tok>, i: nat, op: TokenType, l: Tree, r: Tree, k: nat, prec: nat)
    requires Plain(l) && Plain(r) && Levelled(l) && Levelled(r) && IsInfix(op) && Power(prec) && prec < Prec(op)
    requires prec < Loosest(l)
    requires Prec(op) <= Tightness(l) && Prec(op) < Loosest(r) && !Mistakable(op, l, r)
    requires Reads(ts, i, k, Yield(l) + [Fixed(op)] + Yield(r)) && Prec(Kind(ts, k + 1)) <= Prec(op)
    ensures i <= k < |ts| && ParseExpression(ts, i, prec) == InfixLoop(ts, TInfix(op, l, r), k, prec)
    decreases k + 1 - i, 0
  {
    hide ParseExpression, InfixLoop, Plain, Levelled, Yield, Reads, Loosest, Tightness, Erase, LeadsMinus, Fixed;
    InfixTokens(ts, i, op, l, r, k);
    var j := i + |Yield(l)| - 1;
    Rebuilt(ts, i, l, j, prec);
    Closed(ts, j + 2, r, k, Prec(op));
    LoopInfix(ts, l, j, op, r, k, prec);
  }

  lemma {:induction false} RebuiltPostfix(ts: seq<Tok>, i: nat, op: TokenType, l: Tree, k: nat, prec: nat)
    requires Plain(l) && Levelled(l) && (op == Plus || op == Minus) && Power(prec) && prec < SUM && prec < Loosest(l)
    requires Erase(l).Ident?
    requires Reads(ts, i, k, Yield(l) + [Fixed(op), Fixed(op)])
    ensures i <= k < |ts| && ParseExpression(ts, i, prec) == InfixLoop(ts, TPostfix(op, l), k, prec)
    decreases k + 1 - i, 0
  {
    hide ParseExpression, InfixLoop, Plain, Levelled, Yield, Reads, Loosest, Erase, LeadsMinus;
    FirstToken(l);
    NameIsTight(l);
    var j := i + |Yield(l)| - 1;
    assert Yield(l) + [Fixed(op), Fixed(op)] == Yield(l) + [Fixed(op)] + [Fixed(op)];
    SplitAt(ts, i, k, Yield(l), op, [Fixed(op)]);
    Rebuilt(ts, i, l, j, prec);
    LoopPostfix(ts, l, j, op, prec);
  }

  /** A name, in groups or not. */
  lemma {:induction false} NameIsTight(l: Tree)
    requires Erase(l).Ident? && Levelled(l) && Plain(l)
    ensures Tightness(l) == INDEX
  {
  }

  lemma {:induction false} RebuiltAssign(ts: seq<Tok>, i: nat, l: Tree, r: Tree, k: nat, prec: nat)
    requires Plain(l) && Plain(r) && Levelled(l) && Levelled(r) && (Erase(l).Ident? || Erase(l).Index?)
    requires Power(prec) && prec < ASSIGN && prec < Loosest(l) && ASSIGN <= Tightness(l) && ASSIGN < Loosest(r)
    requires Reads(ts, i, k, Yield(l) + [Fixed(AssignT)] + Yield(r)) && Prec(Kind(ts, k + 1)) <= ASSIGN
    ensures i <= k < |ts| && ParseExpression(ts, i, prec) == InfixLoop(ts, TAssign(l, r), k, prec)
    decreases k + 1 - i, 0
  {
    hide ParseExpression, InfixLoop, Plain, Levelled, Yield, Reads, Loosest, Tightness, Erase, LeadsMinus, Fixed;
    InfixTokens(ts, i, AssignT, l, r, k);
    var j := i + |Yield(l)| - 1;
    Rebuilt(ts, i, l, j, prec);
    Closed(ts, j + 2, r, k, ASSIGN);
    LoopAssign(ts, l, j, r, k, prec);
  }

  lemma {:induction false} RebuiltCall(ts: seq<Tok>, i: nat, f: Tree, args: seq<Tree>, k: nat, prec: nat)
    requires Plain(f) && Levelled(f) && AllPlain(args) && AllLevelled(args)
    requires Power(prec) && prec < Loosest(f) && Tightness(f) >= CALL
    requires Reads(ts, i, k, Yield(f) + [Fixed(LParen)] + YieldAll(args) + [Fixed(RParen)])
    ensures i <= k < |ts| && ParseExpression(ts, i, prec) == InfixLoop(ts, TCall(f, args), k, prec)
    decreases k + 1 - i, 0
  {
    hide ParseExpression, InfixLoop, List, Plain, Levelled, AllPlain, AllLevelled, Yield, YieldAll, Reads, Loosest,
         Erase, LeadsMinus;
    FirstToken(f);
    var j := i + |Yield(f)| - 1;
    Regroup(Yield(f) + [Fixed(LParen)], YieldAll(args), [Fixed(RParen)]);
    SplitAt(ts, i, k, Yield(f), LParen, YieldAll(args) + [Fixed(RParen)]);
    Rebuilt(ts, i, f, j, prec);
    RebuiltList(ts, j + 1, args, k, RParen);
    LoopCall(ts, f, j, args, k, prec);
  }

  lemma {:induction false} RebuiltArray(ts: seq<Tok>, i: nat, es: seq<Tree>, k: nat, prec: nat)
    requires AllPlain(es) && AllLevelled(es) && Reads(ts, i, k, [Fixed(LBracket)] + YieldAll(es) + [Fixed(RBracket)])
    ensures i <= k < |ts| && ParseExpression(ts, i, prec) == InfixLoop(ts, TArray(es), k, prec)
    decreases k + 1 - i, 0
  {
    hide InfixLoop, List, AllPlain, AllLevelled, YieldAll, Reads, GroupTail, PrefixTail, IfTail, WhileTail, ForTail,
         FunctionTail;
    Regroup([Fixed(LBracket)], YieldAll(es), [Fixed(RBracket)]);
    SplitStart(ts, i, k, LBracket, YieldAll(es) + [Fixed(RBracket)]);
    RebuiltList(ts, i, es, k, RBracket);
    assert Primary(ts, i) == Done(TArray(es), k);
  }

  // ---- lists ----

  /** What follows an element: a comma and the rest, or the closing token. */
  function After(es: seq<Tree>, end: TokenType): seq<Tok> {
    if es == [] then [Fixed(end)] else [Fixed(Comma)] + (YieldAll(es) + [Fixed(end)])
  }

  lemma {:induction false} HeadOfAll(es: seq<Tree>, end: TokenType)
    requires es != []
    ensures YieldAll(es) + [Fixed(end)] == Yield(es[0]) + After(es[1..], end)
    ensures After(es[1..], end) != [] && After(es[1..], end)[0] == Fixed(if |es| == 1 then end else Comma)
    ensures After(es[1..], end)[0].kind == if |es| == 1 then end else Comma
  {
    hide Yield;
    if |es| > 1 {
      Regroup(Yield(es[0]), [Fixed(Comma)] + YieldAll(es[1..]), [Fixed(end)]);
      Regroup([Fixed(Comma)], YieldAll(es[1..]), [Fixed(end)]);
      Regroup(Yield(es[0]), [Fixed(Comma)], YieldAll(es[1..]));
    }
  }

  lemma {:induction false} RebuiltList(ts: seq<Tok>, j: nat, es: seq<Tree>, k: nat, end: TokenType)
    requires AllPlain(es) && AllLevelled(es) && (end == RParen || end == RBracket) && j < |ts|
    requires Reads(ts, j + 1, k, YieldAll(es) + [Fixed(end)])
    ensures List(ts, j, end) == Done(es, k)
    decreases k - j, 4
  {
    hide ParseExpression, ListLoop, Plain, Levelled, Yield, YieldAll, Reads, After;
    if es == [] {
      EmptyYield();
      SplitEnd(ts, j + 1, k, [], end);
    } else {
      var m := RebuiltHead(ts, j + 1, es, k, end);
      RebuiltRest(ts, [es[0]], es[1..], m, k, end);
      assert [es[0]] + es[1..] == es;
    }
  }

  lemma {:induction false} EmptyYield()
    ensures YieldAll([]) == []
  {
  }

  lemma {:induction false} RebuiltRest(ts: seq<Tok>, done: seq<Tree>, es: seq<Tree>, j: nat, k: nat, end: TokenType)
    requires AllPlain(es) && AllLevelled(es) && (end == RParen || end == RBracket) && j < |ts|
    requires Reads(ts, j + 1, k, After(es, end))
    ensures ListLoop(ts, done, j, end) == Done(done + es, k)
    decreases k - j, 4
  {
    hide ParseExpression, Plain, Levelled, AllPlain, AllLevelled, Yield, YieldAll, Reads, After;
    AfterNow(es, end);
    if es == [] {
      SplitEnd(ts, j + 1, k, [], end);
      assert done + es == done;
    } else {
      SplitStart(ts, j + 1, k, Comma, YieldAll(es) + [Fixed(end)]);
      var m := RebuiltHead(ts, j + 2, es, k, end);
      RebuiltRest(ts, done + [es[0]], es[1..], m, k, end);
      Onward(done, es);
    }
  }

  lemma {:induction false} AllParts(es: seq<Tree>)
    requires AllPlain(es) && AllLevelled(es) && es != []
    ensures Plain(es[0]) && Levelled(es[0]) && AllPlain(es[1..]) && AllLevelled(es[1..])
  {
  }

  lemma {:induction false} Onward<T>(done: seq<T>, es: seq<T>)
    requires es != []
    ensures done + [es[0]] + es[1..] == done + es
  {
  }

  lemma {:induction false} AfterNow(es: seq<Tree>, end: TokenType)
    ensures After(es, end) == if es == [] then [] + [Fixed(end)] else [Fixed(Comma)] + (YieldAll(es) + [Fixed(end)])
  {
  }

  /** The first element ends at m. */
  lemma {:induction false} RebuiltHead(ts: seq<Tok>, i: nat, es: seq<Tree>, k: nat, end: TokenType) returns (m: nat)
    requires AllPlain(es) && AllLevelled(es) && (end == RParen || end == RBracket) && es != []
    requires Reads(ts, i, k, YieldAll(es) + [Fixed(end)])
    ensures i <= m < k && m < |ts| && ParseExpression(ts, i, LOWEST) == Done(es[0], m) && Starts(ts[i].kind)
    ensures Reads(ts, m + 1, k, After(es[1..], end)) && AllPlain(es[1..]) && AllLevelled(es[1..])
    decreases k + 1 - i, 3
  {
    hide ParseExpression, Plain, Levelled, AllPlain, AllLevelled, Yield, YieldAll, Reads, After, Starts, LeadsMinus;
    AllParts(es);
    FirstToken(es[0]);
    m := HeadTokens(ts, i, es, k, end);
    Inside(ts, i, es[0], m);
  }

  lemma {:induction false} HeadTokens(ts: seq<Tok>, i: nat, es: seq<Tree>, k: nat, end: TokenType) returns (m: nat)
    requires es != [] && Yield(es[0]) != [] && Starts(Yield(es[0])[0].kind) && (end == RParen || end == RBracket)
    requires Reads(ts, i, k, YieldAll(es) + [Fixed(end)])
    ensures i <= m < k < |ts| && Starts(ts[i].kind) && Prec(Kind(ts, m + 1)) == LOWEST
    ensures Reads(ts, i, m, Yield(es[0])) && Reads(ts, m + 1, k, After(es[1..], end))
  {
    hide Yield, YieldAll, Reads, After, Starts, Prec, Fixed;
    var first, rest := Yield(es[0]), After(es[1..], end);
    HeadOfAll(es, end);
    m := i + |first| - 1;
    Split(ts, i, k, first, rest);
    ClosesLoosely(ts, m + 1, rest[0], end);
  }

  lemma {:induction false} ClosesLoosely(ts: seq<Tok>, i: nat, tok: Tok, end: TokenType)
    requires i < |ts| && ts[i] == tok && (tok == Fixed(Comma) || tok == Fixed(end))
    requires (end == RParen || end == RBracket)
    ensures Prec(Kind(ts, i)) == LOWEST
  {
  }

  // ---- indices and slices ----

  lemma {:induction false} IndexTokens(ts: seq<Tok>, i: nat, l: Tree, x: Tree, k: nat)
    requires Plain(l) && Plain(x) && Levelled(l) && Levelled(x)
    requires Reads(ts, i, k, Yield(l) + [Fixed(LBracket)] + Yield(x) + [Fixed(RBracket)])
    ensures Yield(l) != [] && Yield(x) != []
    ensures var j := i + |Yield(l)| - 1;
            && j + 2 < k < |ts| && ts[j + 1].kind == LBracket && ts[k].kind == RBracket && Starts(ts[j + 2].kind)
            && Reads(ts, i, j, Yield(l)) && Reads(ts, j + 2, k - 1, Yield(x))
  {
    hide Plain, Levelled, Yield, Reads, Starts, Fixed, LeadsMinus;
    FirstToken(l);
    FirstToken(x);
    SplitEnd(ts, i, k, Yield(l) + [Fixed(LBracket)] + Yield(x), RBracket);
    SplitAt(ts, i, k - 1, Yield(l), LBracket, Yield(x));
  }

  lemma {:induction false} RebuiltIndex(ts: seq<Tok>, i: nat, l: Tree, x: Tree, k: nat, prec: nat)
    requires Plain(l) && Plain(x) && Levelled(l) && Levelled(x) && Tightness(l) >= CALL && Power(prec)
    requires prec < Loosest(l)
    requires Reads(ts, i, k, Yield(l) + [Fixed(LBracket)] + Yield(x) + [Fixed(RBracket)])
    ensures i <= k < |ts| && ParseExpression(ts, i, prec) == InfixLoop(ts, TIndex(l, x), k, prec)
    decreases k + 1 - i, 0
  {
    hide ParseExpression, InfixLoop, IndexTail, Plain, Levelled, Yield, Reads, Loosest, Tightness, Starts, Fixed;
    Operand(l);
    IndexTokens(ts, i, l, x, k);
    var j := i + |Yield(l)| - 1;
    Rebuilt(ts, i, l, j, prec);
    Inside(ts, j + 2, x, k - 1);
    ReadIndex(ts, l, j + 1, x, k);
    LoopIndex(ts, l, j, TIndex(l, x), k, prec);
  }

  lemma {:induction false} ReadIndex(ts: seq<Tok>, l: Tree, j: nat, x: Tree, k: nat)
    requires j + 1 < k < |ts| && Starts(ts[j + 1].kind) && ts[k].kind == RBracket
    requires ParseExpression(ts, j + 1, LOWEST) == Done(x, k - 1)
    ensures IndexTail(ts, l, j) == Done(TIndex(l, x), k)
  {
    hide ParseExpression, SliceTail;
  }

  lemma {:induction false} RebuiltSlice(ts: seq<Tok>, i: nat, l: Tree, start: Option<Tree>, end: Option<Tree>, k: nat,
                                        prec: nat)
    requires Plain(l) && Levelled(l) && Tightness(l) >= CALL && Power(prec) && prec < Loosest(l)
    requires start.Some? ==> Plain(start.value) && Levelled(start.value)
    requires end.Some? ==> Plain(end.value) && Levelled(end.value)
    requires Reads(ts, i, k, Yield(TSlice(l, start, end)))
    ensures i <= k < |ts| && ParseExpression(ts, i, prec) == InfixLoop(ts, TSlice(l, start, end), k, prec)
    decreases k + 1 - i, 0
  {
    hide ParseExpression, InfixLoop, SliceTail, Plain, Levelled, Yield, Reads, Loosest, Erase, Tightness, LeadsMinus;
    Operand(l);
    FirstToken(l);
    var j := i + |Yield(l)| - 1;
    var m := SliceTokens(ts, i, l, start, end, k);
    Rebuilt(ts, i, l, j, prec);
    if start.Some? {
      FirstToken(start.value);
      Inside(ts, j + 2, start.value, m);
    }
    RebuiltEnd(ts, l, start, end, m, k);
    assert IndexTail(ts, l, j + 1) == Done(TSlice(l, start, end), k);
    LoopIndex(ts, l, j, TSlice(l, start, end), k, prec);
  }

  /** Where the parts of a slice are; its first bound ends at m. */
  lemma {:induction false} SliceTokens(ts: seq<Tok>, i: nat, l: Tree, start: Option<Tree>, end: Option<Tree>, k: nat)
                                       returns (m: nat)
    requires Reads(ts, i, k, Yield(TSlice(l, start, end))) && Yield(l) != []
    ensures var j := i + |Yield(l)| - 1;
            && Reads(ts, i, j, Yield(l)) && j < m && m + 1 < k < |ts| && ts[j + 1].kind == LBracket
               && ts[m + 1].kind == Colon
            && (match start
                case None => m == j + 1
                case Some(x) =>
                  Reads(ts, j + 2, m, Yield(x)) && m == j + 1 + |Yield(x)|
                  && (Yield(x) != [] ==> ts[j + 2] == Yield(x)[0]))
    ensures Reads(ts, m + 2, k, (match end case None => [] case Some(x) => Yield(x)) + [Fixed(RBracket)])
  {
    hide Yield, Reads, Front;
    var first := match start case None => [] case Some(x) => Yield(x);
    var last := match end case None => [] case Some(x) => Yield(x);
    m := i + |Yield(l)| + |first|;
    SliceYield(l, start, end);
    Regroup(Front(l, start) + [Fixed(Colon)], last, [Fixed(RBracket)]);
    FrontNow(l, start);
    SplitAt(ts, i, k, Front(l, start), Colon, last + [Fixed(RBracket)]);
    SplitAt(ts, i, m, Yield(l), LBracket, first);
  }

  lemma {:induction false} RebuiltEnd(ts: seq<Tok>, l: Tree, start: Option<Tree>, end: Option<Tree>, m: nat, k: nat)
    requires m + 1 < |ts| && ts[m + 1].kind == Colon && (end.Some? ==> Plain(end.value) && Levelled(end.value))
    requires Reads(ts, m + 2, k, (match end case None => [] case Some(x) => Yield(x)) + [Fixed(RBracket)])
    ensures SliceTail(ts, l, start, m) == Done(TSlice(l, start, end), k)
    decreases k - m, 4
  {
    hide ParseExpression, Plain, Levelled, Yield, Reads, Loosest, Starts, Fixed, SliceTail, LeadsMinus;
    match end
    case None =>
      SplitEnd(ts, m + 2, k, [], RBracket);
      NoLastBound(ts, l, start, m);
    case Some(x) =>
      FirstToken(x);
      SplitEnd(ts, m + 2, k, Yield(x), RBracket);
      LooseBracket(ts, k);
      Inside(ts, m + 2, x, k - 1);
      LastBound(ts, l, start, x, m, k);
  }

  lemma {:induction false} LooseBracket(ts: seq<Tok>, k: nat)
    requires k < |ts| && ts[k].kind == RBracket
    ensures Prec(Kind(ts, k)) == LOWEST
  {
  }

  lemma {:induction false} NoLastBound(ts: seq<Tok>, l: Tree, start: Option<Tree>, m: nat)
    requires m + 2 < |ts| && ts[m + 2].kind == RBracket
    ensures SliceTail(ts, l, start, m) == Done(TSlice(l, start, None), m + 2)
  {
    hide ParseExpression;
  }

  lemma {:induction false} LastBound(ts: seq<Tok>, l: Tree, start: Option<Tree>, x: Tree, m: nat, k: nat)
    requires m + 2 < k < |ts| && ts[k].kind == RBracket && Starts(ts[m + 2].kind)
    requires ParseExpression(ts, m + 2, LOWEST) == Done(x, k - 1)
    ensures SliceTail(ts, l, start, m) == Done(TSlice(l, start, Some(x)), k)
  {
    hide ParseExpression;
  }

  /**
   The trees that the parser builds from whole token sequences are exactly the
   well-levelled ones, each from its own tokens and from no others.
   */
  lemma {:induction false} ParsesExactly(ts: seq<Tok>, t: Tree, prec: nat)
    requires Spelled(ts) && Power(prec) && Plain(t) && ts != []
    ensures ParseExpression(ts, 0, prec) == Done(t, |ts| - 1) <==> Levelled(t) && prec < Loosest(t) && ts == Yield(t)
  {
    hide ParseExpression, Yield, Plain, Levelled, Loosest, Spelled;
    assert ts[0..|ts|] == ts;
    if ParseExpression(ts, 0, prec) == Done(t, |ts| - 1) {
      PrattIsSound(ts, 0, prec);
    }
    if Levelled(t) && prec < Loosest(t) && ts == Yield(t) {
      Closed(ts, 0, t, |ts| - 1, prec);
    }
  }
}
