/**
 Names in nested scopes: what the symbol table stores and how it resolves
 (src/symbol_table.c).
 */
module Scopes {
  import opened Wrappers
  import opened Core

  /** A scope, its builtins included, and the scopes around it; `size` counts the other symbols. */
  datatype Symbols = Symbols(store: map<string, Var>, size: nat, outer: Option<Symbols>)

  const NO_SYMBOLS: Symbols := Symbols(map[], 0, None)

  function Enclosed(s: Symbols): Symbols { Symbols(map[], 0, Some(s)) }

  /** Scopes that the compiler's array has room for. */
  const SCOPES_SIZE: nat := 64

  /** This scope and those around it. */
  function Levels(s: Symbols): (n: nat)
    ensures n >= 1
    decreases s
  {
    match s.outer case None => 1 case Some(o) => 1 + Levels(o)
  }

  /** A name that the scope has already keeps its symbol. */
  function Define(s: Symbols, name: string): (Symbols, Var) {
    if name in s.store then (s, s.store[name]) else
    var v := if s.outer.Some? then Local(s.size) else Global(s.size);
    (s.(store := s.store[name := v], size := s.size + 1), v)
  }

  function DefineAll(s: Symbols, names: seq<string>): Symbols
    decreases |names|
  {
    if names == [] then s else DefineAll(Define(s, names[0]).0, names[1..])
  }

  function DefineBuiltin(s: Symbols, i: nat, name: string): Symbols {
    s.(store := s.store[name := Builtin(i)])
  }

  /** The innermost definition; a local of an enclosing function is a plain slot number too. */
  function Resolve(s: Symbols, name: string): Option<Var>
    decreases s
  {
    if name in s.store then Some(s.store[name])
    else match s.outer
         case None => None
         case Some(o) => Resolve(o, name)
  }
}

/**
 From syntax trees to resolved terms: names, constants and the errors of the
 compiler (src/compiler.c:202-693), in the order in which it works.
 */
module Elaboration {
  import opened Wrappers
  import opened Opcodes
  import opened Core
  import opened Objects
  import opened Scopes
  import opened Semantics
  import Ast

  /**
   Assigning to a builtin's name ends the process; a constant or a scope too many is
   written past the end of its array, which has no defined result.
   */
  datatype CompileError = UnknownOperator | UnknownIdent | AssignedBuiltin | ConstantsOverflow | ScopesOverflow

  /** The result, the symbols afterwards, and the constants added to the pool. */
  datatype Elab<T> = Bad(e: CompileError) | Good(x: T, symbols: Symbols, consts: seq<SValue>)

  function InfixOp(op: Ast.Operator): Option<PrimOp> {
    match op
    case Add => Some(OpAdd) case Subtract => Some(OpSubtract) case Multiply => Some(OpMultiply)
    case Divide => Some(OpDivide) case Modulo => Some(OpModulo)
    case Gte => Some(OpGreaterThanOrEquals) case Gt => Some(OpGreaterThan)
    case Eq => Some(OpEqual) case NotEq => Some(OpNotEqual)
    case Lt => Some(OpLessThan) case Lte => Some(OpLessThanOrEquals)
    case And => Some(OpAnd) case Or => Some(OpOr)
    case Unknown => None case Negate => None
  }

  function PrefixOp(op: Ast.Operator): Option<PrimOp> {
    match op
    case Negate => Some(OpBang) case Subtract => Some(OpMinus)
    case _ => None
  }

  function PostfixOp(op: Ast.Operator): Option<StepOp> {
    match op
    case Add => Some(OpAdd) case Subtract => Some(OpSubtract)
    case _ => None
  }

  /** `k` is the number of constants before. */
  function ElabE(e: Ast.Expr, s: Symbols, k: nat): Elab<Term>
    decreases e, 1
  {
    match e
    case Infix(op, l, r) => ElabInfix(e, s, k)
    case Prefix(op, r) =>
      (match ElabE(r, s, k)
       case Bad(x) => Bad(x)
       case Good(a, s1, c1) =>
         match PrefixOp(op) case None => Bad(UnknownOperator) case Some(o) => Good(Prim(o, [a]), s1, c1))
    case Postfix(op, name) =>
      (match Resolve(s, name)
       case None => Bad(UnknownIdent)
       case Some(v) =>
         if k >= CONSTANTS_SIZE then Bad(ConstantsOverflow) else
         match PostfixOp(op) case None => Bad(UnknownOperator) case Some(o) => Good(Bump(o, v, k), s, [VInt(1)]))
    case IntLit(n) => if k >= CONSTANTS_SIZE then Bad(ConstantsOverflow)
      else Good(Const(k, Core.IntLit(n)), s, [VInt(n)])
    case StringLit(t) => if k >= CONSTANTS_SIZE then Bad(ConstantsOverflow) else Good(Const(k, StrLit(t)), s, [VStr(t)])
    case BoolLit(b) => Good(Truth(b), s, [])
    case Ident(name) =>
      (match Resolve(s, name) case None => Bad(UnknownIdent) case Some(v) => Good(Get(v), s, []))
    case If(_, _, _) => ElabIf(e, s, k)
    case Function(params, body) => ElabFunction(e, s, k)
    case Call(f, args) =>
      (match ElabE(f, s, k)
       case Bad(x) => Bad(x)
       case Good(a, s1, c1) =>
         match ElabEs(args, s1, k + |c1|)
         case Bad(x) => Bad(x)
         case Good(bs, s2, c2) => Good(Core.Call(a, bs), s2, c1 + c2))
    case ArrayLit(es) =>
      (match ElabEs(es, s, k)
       case Bad(x) => Bad(x)
       case Good(ts, s1, c1) => Good(Prim(OpArray, ts), s1, c1))
    case Index(l, i) =>
      (match ElabE(l, s, k)
       case Bad(x) => Bad(x)
       case Good(a, s1, c1) =>
         match ElabE(i, s1, k + |c1|)
         case Bad(x) => Bad(x)
         case Good(b, s2, c2) => Good(Prim(OpIndexGet, [a, b]), s2, c1 + c2))
    case Slice(_, _, _) => ElabSlice(e, s, k)
    case While(c, body) =>
      (match ElabE(c, s, k)
       case Bad(x) => Bad(x)
       case Good(a, s1, c1) =>
         match ElabB(body, s1, k + |c1|)
         case Bad(x) => Bad(x)
         case Good(b, s2, c2) => Good(Loop(a, b), s2, c1 + c2))
    case For(_, _, _, _) => ElabFor(e, s, k)
    case Assign(name, value) =>
      (match Resolve(s, name)
       case None => Bad(UnknownIdent)
       case Some(v) =>
         match ElabE(value, s, k)
         case Bad(x) => Bad(x)
         case Good(a, s1, c1) => if v.Builtin? then Bad(AssignedBuiltin) else Good(Put(v, a), s1, c1))
    case AssignIndex(_, _, _) => ElabAssignIndex(e, s, k)
  }

  function ElabInfix(e: Ast.Expr, s: Symbols, k: nat): Elab<Term>
    requires e.Infix?
    decreases e, 0
  {
    match ElabE(e.left, s, k)
    case Bad(x) => Bad(x)
    case Good(a, s1, c1) =>
      match ElabE(e.right, s1, k + |c1|)
      case Bad(x) => Bad(x)
      case Good(b, s2, c2) =>
        match InfixOp(e.op) case None => Bad(UnknownOperator) case Some(o) => Good(Prim(o, [a, b]), s2, c1 + c2)
  }

  function ElabIf(e: Ast.Expr, s: Symbols, k: nat): Elab<Term>
    requires e.If?
    decreases e, 0
  {
    match ElabE(e.cond, s, k)
    case Bad(x) => Bad(x)
    case Good(a, s1, c1) =>
      match ElabB(e.conseq, s1, k + |c1|)
      case Bad(x) => Bad(x)
      case Good(b, s2, c2) =>
        match ElabElse(e.alt, s2, k + |c1| + |c2|)
        case Bad(x) => Bad(x)
        case Good(c, s3, c3) => Good(Cond(a, b, c), s3, c1 + c2 + c3)
  }

  /** An absent `else` is a null. */
  function ElabElse(b: Ast.Alternative, s: Symbols, k: nat): Elab<seq<Cmd>>
    decreases b, 0
  {
    match b
    case NoElse => Good([Eval(Null)], s, [])
    case Else(alt) => ElabB(alt, s, k)
  }

  /** The constants of the body come before the function itself. */
  function ElabFunction(e: Ast.Expr, s: Symbols, k: nat): Elab<Term>
    requires e.Function?
    decreases e, 0
  {
    match ElabBody(e.params, e.body, s, k)
    case Bad(x) => Bad(x)
    case Good(b, s1, c1) =>
      var f := Fun(s1.size, b);
      if k + |c1| >= CONSTANTS_SIZE then Bad(ConstantsOverflow) else
      Good(Lambda(k + |c1|, f), s, c1 + [VFun(f)])
  }

  /** A body in a scope of its own. */
  function ElabBody(params: seq<string>, body: seq<Ast.Stmt>, s: Symbols, k: nat): Elab<seq<Cmd>>
    decreases body, 1
  {
    if Levels(s) >= SCOPES_SIZE then Bad(ScopesOverflow) else ElabB(body, DefineAll(Enclosed(s), params), k)
  }

  function ElabSlice(e: Ast.Expr, s: Symbols, k: nat): Elab<Term>
    requires e.Slice?
    decreases e, 0
  {
    match ElabE(e.left, s, k)
    case Bad(x) => Bad(x)
    case Good(a, s1, c1) =>
      match ElabO(e.start, s1, k + |c1|)
      case Bad(x) => Bad(x)
      case Good(b, s2, c2) =>
        match ElabO(e.end, s2, k + |c1| + |c2|)
        case Bad(x) => Bad(x)
        case Good(c, s3, c3) => Good(Prim(OpSlice, [a, b, c]), s3, c1 + c2 + c3)
  }

  function ElabAssignIndex(e: Ast.Expr, s: Symbols, k: nat): Elab<Term>
    requires e.AssignIndex?
    decreases e, 0
  {
    match ElabE(e.left, s, k)
    case Bad(x) => Bad(x)
    case Good(a, s1, c1) =>
      match ElabE(e.index, s1, k + |c1|)
      case Bad(x) => Bad(x)
      case Good(b, s2, c2) =>
        match ElabE(e.value, s2, k + |c1| + |c2|)
        case Bad(x) => Bad(x)
        case Good(c, s3, c3) => Good(Prim(OpIndexSet, [a, b, c]), s3, c1 + c2 + c3)
  }

  /** The body of the loop is compiled before its increment. */
  function ElabFor(e: Ast.Expr, s: Symbols, k: nat): Elab<Term>
    requires e.For?
    decreases e, 0
  {
    match ElabS(e.init, s, k)
    case Bad(x) => Bad(x)
    case Good(a, s1, c1) =>
      match ElabTest(e.test, s1, k + |c1|)
      case Bad(x) => Bad(x)
      case Good(b, s2, c2) =>
        match ElabB(e.body, s2, k + |c1| + |c2|)
        case Bad(x) => Bad(x)
        case Good(c, s3, c3) =>
          match ElabS(e.inc, s3, k + |c1| + |c2| + |c3|)
          case Bad(x) => Bad(x)
          case Good(d, s4, c4) => Good(ForLoop(a, b, d, c), s4, c1 + c2 + c3 + c4)
  }

  /** An absent slice bound is a null. */
  function ElabO(e: Option<Ast.Expr>, s: Symbols, k: nat): Elab<Term>
    decreases e, 0
  {
    match e
    case None => Good(Null, s, [])
    case Some(x) => ElabE(x, s, k)
  }

  function ElabTest(e: Option<Ast.Expr>, s: Symbols, k: nat): Elab<Option<Term>>
    decreases e, 0
  {
    match e
    case None => Good(None, s, [])
    case Some(x) => match ElabE(x, s, k) case Bad(y) => Bad(y) case Good(a, s1, c1) => Good(Some(a), s1, c1)
  }

  function ElabEs(es: seq<Ast.Expr>, s: Symbols, k: nat): Elab<seq<Term>>
    decreases es, 0
  {
    if es == [] then Good([], s, []) else
    match ElabE(es[0], s, k)
    case Bad(x) => Bad(x)
    case Good(a, s1, c1) =>
      match ElabEs(es[1..], s1, k + |c1|)
      case Bad(x) => Bad(x)
      case Good(bs, s2, c2) => Good([a] + bs, s2, c1 + c2)
  }

  /** A statement is at most one command: an empty one and a bare `return;` are none. */
  function ElabS(x: Ast.Stmt, s: Symbols, k: nat): Elab<seq<Cmd>>
    decreases x, 0
  {
    match x
    case Let(name, init) =>
      var (s1, v) := Scopes.Define(s, name);
      (match ElabO(init, s1, k) case Bad(y) => Bad(y) case Good(a, s2, c2) => Good([Core.Define(v, a)], s2, c2))
    case Return(None) => Good([], s, [])
    case Return(Some(e)) => (match ElabE(e, s, k) case Bad(y) => Bad(y)
      case Good(a, s1, c1) => Good([Core.Return(a)], s1, c1))
    case ExprStmt(e) => (match ElabE(e, s, k) case Bad(y) => Bad(y) case Good(a, s1, c1) => Good([Eval(a)], s1, c1))
    case Empty => Good([], s, [])
    case Break => Good([Core.Break], s, [])
    case Continue => Good([Core.Continue], s, [])
  }

  function ElabB(b: seq<Ast.Stmt>, s: Symbols, k: nat): Elab<seq<Cmd>>
    decreases b, 0
  {
    if b == [] then Good([], s, []) else
    match ElabS(b[0], s, k)
    case Bad(x) => Bad(x)
    case Good(a, s1, c1) =>
      match ElabB(b[1..], s1, k + |c1|)
      case Bad(x) => Bad(x)
      case Good(bs, s2, c2) => Good(a + bs, s2, c1 + c2)
  }

  // ---- a function body defines names in its own scope only ----

  lemma {:induction false} OuterE(e: Ast.Expr, s: Symbols, k: nat)
    ensures ElabE(e, s, k).Good? ==> ElabE(e, s, k).symbols.outer == s.outer
    decreases e, 1
  {
    hide ElabB, ElabEs, ElabS, ElabO, ElabElse, ElabTest, ElabIf, ElabSlice, ElabAssignIndex, Resolve;
    match e
    case Infix(_, l, r) =>
      OuterE(l, s, k);
      var a := ElabE(l, s, k);
      if a.Good? { OuterE(r, a.symbols, k + |a.consts|); }
    case Prefix(_, r) => OuterE(r, s, k);
    case If(_, _, _) => OuterIf(e, s, k);
    case Call(f, args) =>
      OuterE(f, s, k);
      var a := ElabE(f, s, k);
      if a.Good? { OuterEs(args, a.symbols, k + |a.consts|); }
    case ArrayLit(es) => OuterEs(es, s, k);
    case Index(l, i) =>
      OuterE(l, s, k);
      var a := ElabE(l, s, k);
      if a.Good? { OuterE(i, a.symbols, k + |a.consts|); }
    case Slice(_, _, _) => OuterSlice(e, s, k);
    case While(c, body) =>
      OuterE(c, s, k);
      var a := ElabE(c, s, k);
      if a.Good? { OuterB(body, a.symbols, k + |a.consts|); }
    case For(_, _, _, _) => OuterFor(e, s, k);
    case Assign(_, value) => OuterE(value, s, k);
    case AssignIndex(_, _, _) => OuterAssignIndex(e, s, k);
    case _ =>
  }

  lemma {:induction false} OuterAssignIndex(e: Ast.Expr, s: Symbols, k: nat)
    requires e.AssignIndex?
    ensures ElabAssignIndex(e, s, k).Good? ==> ElabAssignIndex(e, s, k).symbols.outer == s.outer
    decreases e, 0
  {
    hide ElabB, ElabEs, ElabS, ElabO, ElabElse, ElabTest, Resolve;
    var AssignIndex(l, i, v) := e;
    OuterE(l, s, k);
    var a := ElabE(l, s, k);
    if a.Good? {
      OuterE(i, a.symbols, k + |a.consts|);
      var b := ElabE(i, a.symbols, k + |a.consts|);
      if b.Good? { OuterE(v, b.symbols, k + |a.consts| + |b.consts|); }
    }
  }

  lemma {:induction false} OuterSlice(e: Ast.Expr, s: Symbols, k: nat)
    requires e.Slice?
    ensures ElabSlice(e, s, k).Good? ==> ElabSlice(e, s, k).symbols.outer == s.outer
    decreases e, 0
  {
    hide ElabB, ElabEs, ElabS, ElabO, ElabElse, ElabTest, Resolve;
    var Slice(l, x, y) := e;
    OuterE(l, s, k);
    var a := ElabE(l, s, k);
    if a.Good? {
      OuterO(x, a.symbols, k + |a.consts|);
      var b := ElabO(x, a.symbols, k + |a.consts|);
      if b.Good? { OuterO(y, b.symbols, k + |a.consts| + |b.consts|); }
    }
  }

  lemma {:induction false} OuterIf(e: Ast.Expr, s: Symbols, k: nat)
    requires e.If?
    ensures ElabIf(e, s, k).Good? ==> ElabIf(e, s, k).symbols.outer == s.outer
    decreases e, 0
  {
    hide ElabB, ElabEs, ElabS, ElabO, ElabElse, ElabTest, Resolve;
    var If(c, x, y) := e;
    OuterE(c, s, k);
    var a := ElabE(c, s, k);
    if a.Good? {
      OuterB(x, a.symbols, k + |a.consts|);
      var b := ElabB(x, a.symbols, k + |a.consts|);
      if b.Good? { OuterElse(y, b.symbols, k + |a.consts| + |b.consts|); }
    }
  }

  lemma {:induction false} OuterFor(e: Ast.Expr, s: Symbols, k: nat)
    requires e.For?
    ensures ElabFor(e, s, k).Good? ==> ElabFor(e, s, k).symbols.outer == s.outer
    decreases e, 0
  {
    hide ElabB, ElabS, ElabO, Resolve;
    OuterS(e.init, s, k);
    var a := ElabS(e.init, s, k);
    if a.Good? {
      if e.test.Some? { OuterE(e.test.value, a.symbols, k + |a.consts|); }
      var b := ElabTest(e.test, a.symbols, k + |a.consts|);
      if b.Good? {
        OuterB(e.body, b.symbols, k + |a.consts| + |b.consts|);
        var c := ElabB(e.body, b.symbols, k + |a.consts| + |b.consts|);
        if c.Good? { OuterS(e.inc, c.symbols, k + |a.consts| + |b.consts| + |c.consts|); }
      }
    }
  }

  lemma {:induction false} OuterO(e: Option<Ast.Expr>, s: Symbols, k: nat)
    ensures ElabO(e, s, k).Good? ==> ElabO(e, s, k).symbols.outer == s.outer
    decreases e, 0
  {
    if e.Some? { OuterE(e.value, s, k); }
  }

  lemma {:induction false} OuterElse(b: Ast.Alternative, s: Symbols, k: nat)
    ensures ElabElse(b, s, k).Good? ==> ElabElse(b, s, k).symbols.outer == s.outer
    decreases b, 0
  {
    if b.Else? { OuterB(b.body, s, k); }
  }

  lemma {:induction false} OuterEs(es: seq<Ast.Expr>, s: Symbols, k: nat)
    ensures ElabEs(es, s, k).Good? ==> ElabEs(es, s, k).symbols.outer == s.outer
    decreases es, 0
  {
    hide ElabE;
    if es != [] {
      OuterE(es[0], s, k);
      var a := ElabE(es[0], s, k);
      if a.Good? { OuterEs(es[1..], a.symbols, k + |a.consts|); }
    }
  }

  lemma {:induction false} OuterS(x: Ast.Stmt, s: Symbols, k: nat)
    ensures ElabS(x, s, k).Good? ==> ElabS(x, s, k).symbols.outer == s.outer
    decreases x, 0
  {
    hide ElabE, ElabO;
    match x
    case Let(name, init) => OuterO(init, Scopes.Define(s, name).0, k);
    case Return(Some(e)) => OuterE(e, s, k);
    case ExprStmt(e) => OuterE(e, s, k);
    case _ =>
  }

  lemma {:induction false} OuterB(b: seq<Ast.Stmt>, s: Symbols, k: nat)
    ensures ElabB(b, s, k).Good? ==> ElabB(b, s, k).symbols.outer == s.outer
    decreases b, 0
  {
    hide ElabS;
    if b != [] {
      OuterS(b[0], s, k);
      var a := ElabS(b[0], s, k);
      if a.Good? { OuterB(b[1..], a.symbols, k + |a.consts|); }
    }
  }
}
