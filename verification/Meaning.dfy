/**
 What a program means, read off its syntax tree: names are looked up in the
 scope, operators act on the values of their operands, control flow is that of
 the tree.
 */
module SyntaxMeaning {
  import opened Wrappers
  import opened Core
  import opened Objects
  import opened Semantics
  import opened Scopes
  import opened Elaboration
  import opened ConditionLaws
  import Ast

  // ---- what the parts of a program declare ----

  /** The names that `let` declares, in the order of their declarations, and the number of constants. */
  datatype Traits = Traits(lets: seq<string>, consts: nat)

  const NOTHING: Traits := Traits([], 0)

  const ONE: Traits := Traits([], 1)

  function Plus(a: Traits, b: Traits): Traits { Traits(a.lets + b.lets, a.consts + b.consts) }

  /** A function declares nothing outside, and is a constant itself. */
  function OfE(e: Ast.Expr): Traits
    decreases e, 0
  {
    match e
    case Infix(_, l, r) => Plus(OfE(l), OfE(r))
    case Prefix(_, r) => OfE(r)
    case Postfix(_, _) => ONE
    case IntLit(_) => ONE
    case StringLit(_) => ONE
    case BoolLit(_) => NOTHING
    case Ident(_) => NOTHING
    case If(c, x, alt) => Plus(OfE(c), Plus(OfB(x), OfAlt(alt)))
    case Function(_, body) => Plus(Traits([], OfB(body).consts), ONE)
    case Call(f, args) => Plus(OfE(f), OfEs(args))
    case ArrayLit(es) => OfEs(es)
    case Index(l, i) => Plus(OfE(l), OfE(i))
    case Slice(l, x, y) => Plus(OfE(l), Plus(OfO(x), OfO(y)))
    case While(c, b) => Plus(OfE(c), OfB(b))
    case For(i, t, n, b) => Plus(OfS(i), Plus(OfO(t), Plus(OfB(b), OfS(n))))
    case Assign(_, v) => OfE(v)
    case AssignIndex(l, i, v) => Plus(OfE(l), Plus(OfE(i), OfE(v)))
  }

  function OfAlt(alt: Ast.Alternative): Traits
    decreases alt, 0
  {
    match alt case NoElse => NOTHING case Else(y) => OfB(y)
  }

  function OfO(e: Option<Ast.Expr>): Traits
    decreases e, 0
  {
    match e case None => NOTHING case Some(x) => OfE(x)
  }

  function OfEs(es: seq<Ast.Expr>): Traits
    decreases es, 0
  {
    if es == [] then NOTHING else Plus(OfE(es[0]), OfEs(es[1..]))
  }

  /** The name is declared before its value is compiled. */
  function OfS(x: Ast.Stmt): Traits
    decreases x, 0
  {
    match x
    case Let(name, init) => Plus(Traits([name], 0), OfO(init))
    case Return(e) => OfO(e)
    case ExprStmt(e) => OfE(e)
    case _ => NOTHING
  }

  function OfB(b: seq<Ast.Stmt>): Traits
    decreases b, 0
  {
    if b == [] then NOTHING else Plus(OfS(b[0]), OfB(b[1..]))
  }

  /** Where a part of a program stands: its scope and the number of constants before it. */
  datatype Point = Point(s: Symbols, k: nat)

  function Then(p: Point, t: Traits): Point { Point(DefineAll(p.s, t.lets), p.k + t.consts) }

  lemma {:induction false} DefineMore(s: Symbols, a: seq<string>, b: seq<string>)
    ensures DefineAll(s, a + b) == DefineAll(DefineAll(s, a), b)
    decreases |a|
  {
    if a == [] {
      assert a + b == b;
    } else {
      assert (a + b)[1..] == a[1..] + b;
      DefineMore(Scopes.Define(s, a[0]).0, a[1..], b);
    }
  }

  lemma {:induction false} ThenThen(p: Point, a: Traits, b: Traits)
    ensures Then(Then(p, a), b) == Then(p, Plus(a, b)) && Then(p, NOTHING) == p
  {
    DefineMore(p.s, a.lets, b.lets);
  }

  // ---- operators ----

  /** The value of `x op y`; None where it has none. */
  function Result(op: Ast.Operator, x: SValue, y: SValue): Option<SValue> {
    match (x, y)
    case (VInt(a), VInt(b)) =>
      (match op
       case Add => IntV(a + b) case Subtract => IntV(a - b) case Multiply => IntV(a * b)
       case Divide => if b == 0 then Some(VError("Division by zero")) else IntV(Quotient(a, b))
       case Modulo =>
         if b == 0 then Some(VError("Division by zero"))
         else if a == INT64_MIN && b == -1 then None
         else IntV(Remainder(a, b))
       case Lt => Some(VBool(a < b)) case Lte => Some(VBool(a <= b)) case Gt => Some(VBool(a > b))
       case Gte => Some(VBool(a >= b)) case Eq => Some(VBool(a == b)) case NotEq => Some(VBool(a != b))
       case _ => None)
    case (VStr(a), VStr(b)) =>
      (match op
       case Add => Some(VStr(a + b)) case Eq => Some(VBool(a == b)) case NotEq => Some(VBool(a != b))
       case _ => None)
    case (VBool(a), VBool(b)) =>
      (match op
       case And => Some(VBool(a && b)) case Or => Some(VBool(a || b))
       case Eq => Some(VBool(a == b)) case NotEq => Some(VBool(a != b))
       case _ => None)
    case _ => None
  }

  /** The value of `!x` and of `-x`. */
  function Opposite(op: Ast.Operator, x: SValue): Option<SValue> {
    match op
    case Negate => Some(VBool(x == VNull || x == VBool(false) || (x.VInt? && x.n < 1)))
    case Subtract => if x.VInt? then IntV(-x.n) else None
    case _ => None
  }

  function Given(r: Option<SValue>, st: Store, room: int): Answer {
    if r.None? || room < 1 then Failed else Normal(r.value, st)
  }

  // ---- meaning ----

  /** How much there is of stack, frames and steps. */
  datatype Budget = Budget(room: int, depth: nat, fuel: nat)

  function Less(b: Budget, n: nat): Budget { b.(room := b.room - n) }

  function Leaves(v: SValue, st: Store, m: Budget): Answer { if m.room < 1 then Failed else Normal(v, st) }

  /** The function that a literal stands for: its body, and as many slots as it has names. */
  function FunctionAt(params: seq<string>, body: seq<Ast.Stmt>, p: Point): Option<Fun> {
    match ElabBody(params, body, p.s, p.k)
    case Bad(_) => None
    case Good(b, _, _) => Some(Fun(DefineAll(DefineAll(Enclosed(p.s), params), OfB(body).lets).size, b))
  }

  function MeaningE(e: Ast.Expr, p: Point, st: Store, m: Budget): Answer
    decreases m.fuel, 1, e, 1
  {
    match e
    case IntLit(n) => Leaves(VInt(n), st, m)
    case StringLit(t) => Leaves(VStr(t), st, m)
    case BoolLit(b) => Leaves(VBool(b), st, m)
    case Ident(name) => Looked(name, p.s, st, m)
    case Infix(op, l, r) =>
      (match MeaningE(l, p, st, m)
       case Normal(x, st1) =>
         (match MeaningE(r, Then(p, OfE(l)), st1, Less(m, 1))
          case Normal(y, st2) => Given(Result(op, x, y), st2, m.room)
          case a => a)
       case a => a)
    case Prefix(op, r) =>
      (match MeaningE(r, p, st, m)
       case Normal(x, st1) => Given(Opposite(op, x), st1, m.room)
       case a => a)
    case Postfix(op, name) => Bumped(op, name, p.s, st, m)
    case Assign(name, v) =>
      (match MeaningE(v, p, st, m)
       case Normal(x, st1) => Stored(name, x, p.s, st1)
       case a => a)
    case If(_, _, _) => MeaningIf(e, p, st, m)
    case While(c, b) =>
      var q := Then(p, OfE(c));
      if m.room < 1 then Failed
      else MeaningLoop(LoopAt(Some(c), p, b, q, Ast.Empty, Then(q, OfB(b))), VNull, st, m)
    case For(_, _, _, _) => MeaningFor(e, p, st, m)
    case Function(params, body) =>
      (match FunctionAt(params, body, p) case None => Failed case Some(f) => Leaves(VFun(f), st, m))
    case Call(f, args) =>
      (match MeaningE(f, p, st, m)
       case Normal(callee, st1) =>
         (match MeaningEs(args, Then(p, OfE(f)), st1, Less(m, 1))
          case Stopped(a) => a
          case Values(vs, st2) => EvalCall(callee, vs, st2, m.room, m.depth, m.fuel))
       case a => a)
    case ArrayLit(es) =>
      (match MeaningEs(es, p, st, m)
       case Stopped(a) => a
       case Values(vs, st1) => Apply(BuildArray(st1.heap, vs), st1, m.room))
    case Index(l, i) => MeaningIndex(e, p, st, m)
    case Slice(_, _, _) => MeaningSlice(e, p, st, m)
    case AssignIndex(_, _, _) => MeaningStore(e, p, st, m)
  }

  function Looked(name: string, s: Symbols, st: Store, m: Budget): Answer {
    match Resolve(s, name)
    case None => Failed
    case Some(v) => match Load(v, st) case None => Failed case Some(x) => Leaves(x, st, m)
  }

  /** `name++` and `name--` give the old value. */
  function Bumped(op: Ast.Operator, name: string, s: Symbols, st: Store, m: Budget): Answer {
    match Resolve(s, name)
    case None => Failed
    case Some(v) =>
      match Load(v, st)
      case None => Failed
      case Some(x) =>
        if op != Ast.Add && op != Ast.Subtract then Failed else
        match Result(op, x, VInt(1))
        case None => Failed
        case Some(y) => if m.room < 3 then Failed else
          match Save(v, y, st) case None => Failed case Some(st1) => Normal(x, st1)
  }

  /** The name is resolved before the value is compiled; the result is read back. */
  function Stored(name: string, x: SValue, s: Symbols, st: Store): Answer {
    match Resolve(s, name)
    case None => Failed
    case Some(v) =>
      match Save(v, x, st)
      case None => Failed
      case Some(st1) => match Load(v, st1) case None => Failed case Some(y) => Normal(y, st1)
  }

  function MeaningIndex(e: Ast.Expr, p: Point, st: Store, m: Budget): Answer
    requires e.Index?
    decreases m.fuel, 1, e, 0
  {
    match MeaningE(e.left, p, st, m)
    case Normal(x, st1) =>
      (match MeaningE(e.index, Then(p, OfE(e.left)), st1, Less(m, 1))
       case Normal(y, st2) => Given(IndexGet(st2.heap, x, y), st2, m.room)
       case a => a)
    case a => a
  }

  /** An absent bound is null. */
  function MeaningSlice(e: Ast.Expr, p: Point, st: Store, m: Budget): Answer
    requires e.Slice?
    decreases m.fuel, 1, e, 0
  {
    var q := Then(p, OfE(e.left));
    match MeaningE(e.left, p, st, m)
    case Normal(x, st1) =>
      (match MeaningO(e.start, q, st1, Less(m, 1))
       case Normal(y, st2) =>
         (match MeaningO(e.end, Then(q, OfO(e.start)), st2, Less(m, 2))
          case Normal(z, st3) => Apply(BuildSlice(st3.heap, x, y, z), st3, m.room)
          case a => a)
       case a => a)
    case a => a
  }

  function MeaningStore(e: Ast.Expr, p: Point, st: Store, m: Budget): Answer
    requires e.AssignIndex?
    decreases m.fuel, 1, e, 0
  {
    var q := Then(p, OfE(e.left));
    match MeaningE(e.left, p, st, m)
    case Normal(x, st1) =>
      (match MeaningE(e.index, q, st1, Less(m, 1))
       case Normal(y, st2) =>
         (match MeaningE(e.value, Then(q, OfE(e.index)), st2, Less(m, 2))
          case Normal(z, st3) => Apply(IndexSet(st3.heap, x, y, z), st3, m.room)
          case a => a)
       case a => a)
    case a => a
  }

  function MeaningIf(e: Ast.Expr, p: Point, st: Store, m: Budget): Answer
    requires e.If?
    decreases m.fuel, 1, e, 0
  {
    var q := Then(p, OfE(e.cond));
    match MeaningE(e.cond, p, st, m)
    case Normal(v, st1) =>
      if IsFalse(v) then MeaningAlt(e.alt, Then(q, OfB(e.conseq)), st1, m) else MeaningB(e.conseq, q, st1, m)
    case a => a
  }

  function MeaningFor(e: Ast.Expr, p: Point, st: Store, m: Budget): Answer
    requires e.For?
    decreases m.fuel, 1, e, 0
  {
    var q := Then(p, OfS(e.init));
    var r := Then(q, OfO(e.test));
    if m.room < 1 then Failed else
    match MeaningS(e.init, p, st, Less(m, 1))
    case Normal(_, st1) => MeaningLoop(LoopAt(e.test, q, e.body, r, e.inc, Then(r, OfB(e.body))), VNull, st1, m)
    case a => a
  }

  function MeaningAlt(alt: Ast.Alternative, p: Point, st: Store, m: Budget): Answer
    decreases m.fuel, 1, alt, 0
  {
    match alt case NoElse => Leaves(VNull, st, m) case Else(y) => MeaningB(y, p, st, m)
  }

  function MeaningO(e: Option<Ast.Expr>, p: Point, st: Store, m: Budget): Answer
    decreases m.fuel, 1, e, 2
  {
    match e case None => Leaves(VNull, st, m) case Some(x) => MeaningE(x, p, st, m)
  }

  /** From the left, each above the values of those before. */
  function MeaningEs(es: seq<Ast.Expr>, p: Point, st: Store, m: Budget): Answers
    decreases m.fuel, 1, es, 0
  {
    if es == [] then Values([], st) else
    match MeaningE(es[0], p, st, m)
    case Normal(v, st1) =>
      (match MeaningEs(es[1..], Then(p, OfE(es[0])), st1, Less(m, 1))
       case Values(vs, st2) => Values([v] + vs, st2)
       case a => a)
    case a => Stopped(a)
  }

  /** Statements that do nothing at all: an empty one, and a bare `return`. */
  predicate Silent(x: Ast.Stmt) { x == Ast.Empty || x == Ast.Return(None) }

  predicate AllSilent(b: seq<Ast.Stmt>) { b == [] || (Silent(b[0]) && AllSilent(b[1..])) }

  /** A `let` declares its name and then gives it its value. */
  function MeaningS(x: Ast.Stmt, p: Point, st: Store, m: Budget): Answer
    decreases m.fuel, 1, x, 3
  {
    match x
    case Let(name, init) =>
      var (s1, v) := Scopes.Define(p.s, name);
      (match MeaningO(init, Point(s1, p.k), st, m)
       case Normal(y, st1) => (match Save(v, y, st1) case None => Failed case Some(st2) => Normal(VNull, st2))
       case a => a)
    case Return(Some(e)) => (match MeaningE(e, p, st, m) case Normal(y, st1) => Returned(y, st1) case a => a)
    case Return(None) => Normal(VNull, st)
    case ExprStmt(e) => MeaningE(e, p, st, m)
    case Empty => Normal(VNull, st)
    case Break => if m.room < 1 then Failed else Broke(st)
    case Continue => if m.room < 1 then Failed else Continued(st)
  }

  /** The value of a block is that of its last statement that does anything. */
  function MeaningB(b: seq<Ast.Stmt>, p: Point, st: Store, m: Budget): Answer
    decreases m.fuel, 1, b, 5
  {
    if b == [] then Normal(VNull, st) else
    var q := Then(p, OfS(b[0]));
    if Silent(b[0]) then MeaningB(b[1..], q, st, m) else
    match MeaningS(b[0], p, st, m)
    case Normal(v, st1) => if AllSilent(b[1..]) then Normal(v, st1) else MeaningB(b[1..], q, st1, m)
    case a => a
  }

  /** A loop: its test, body and increment, and where each stands. */
  datatype LoopParts = LoopAt(test: Option<Ast.Expr>, p: Point, body: seq<Ast.Stmt>, q: Point, inc: Ast.Stmt, r: Point)

  /**
   Test, body, increment, and again; null and false end it, with the value v of the
   rounds so far. `continue` goes to the increment with null for the round's value,
   `break` ends the loop with null.
   */
  function MeaningLoop(l: LoopParts, v: SValue, st: Store, m: Budget): Answer
    decreases m.fuel, 0
  {
    if m.fuel == 0 then Failed else
    var less := m.(fuel := m.fuel - 1);
    match (if l.test.None? then Normal(VBool(true), st) else MeaningE(l.test.value, l.p, st, Less(less, 1)))
    case Normal(b, st1) =>
      if IsFalse(b) then Normal(v, st1) else
      (match (if AllSilent(l.body) then Normal(v, st1) else MeaningB(l.body, l.q, st1, less))
       case Normal(w, st2) => Onward(l, w, st2, m)
       case Continued(st2) => Onward(l, VNull, st2, m)
       case Broke(st2) => Normal(VNull, st2)
       case a => a)
    case a => a
  }

  function Onward(l: LoopParts, w: SValue, st: Store, m: Budget): Answer
    requires m.fuel > 0
    decreases m.fuel - 1, 9
  {
    var less := m.(fuel := m.fuel - 1);
    match MeaningS(l.inc, l.r, st, Less(less, 1))
    case Normal(_, st1) => MeaningLoop(l, w, st1, less)
    case a => a
  }
}
