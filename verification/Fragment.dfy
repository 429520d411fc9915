/**
 From what the compiler produces to what the correctness theorem needs: the
 constants are where the code expects them.
 */
module Fragment {
  import opened Wrappers
  import opened Opcodes
  import opened Core
  import opened Codegen
  import opened Objects
  import opened Naturality
  import opened Semantics
  import opened Machine
  import opened Simulation
  import opened Patching
  import opened Scopes
  import opened Elaboration
  import opened Emission
  import opened Compilation
  import opened CompilerCorrectness
  import Ast

  /** Integers of 64 bits: what the parser computes for a longer literal is undefined. */
  predicate LitFits(lit: Lit) { lit.IntLit? ==> INT64_MIN <= lit.n <= INT64_MAX }

  /**
   The programs the compiler does right: literals and operands fit their width,
   functions end below the placeholders, every branch of an `if` leaves a value, and
   `break` and `continue` stand where nothing of an unfinished expression is on the stack.
   */
  predicate FragT(t: Term, lp: bool)
    decreases t, 0
  {
    match t
    case Const(k, lit) => k < LIMIT && LitFits(lit)
    case Lambda(k, f) => k < LIMIT && |CodeF(f.body)| <= CODE_MAX && FragF(f)
    case Null => true
    case Truth(_) => true
    case Get(v) => FitsVar(v)
    case Prim(op, args) => |args| == Arity(op, |args|) && |args| < LIMIT && FragTs(args, lp)
    case Bump(_, v, k) => FitsVar(v) && k < LIMIT
    case Put(v, e) => FitsVar(v) && FragT(e, lp)
    case Cond(c, x, y) => FragT(c, lp) && FragBranch(x, lp) && FragBranch(y, lp)
    case Loop(c, body) => FragT(c, false) && FragB(body, true)
    case ForLoop(init, until, inc, body) =>
      FragB(init, false) && (match until case None => true case Some(c) => FragT(c, false))
      && FragB(inc, false) && FragB(body, true)
    case Call(f, args) => FragT(f, lp) && |args| < 256 && FragTs(args, false)
  }

  predicate FragTs(ts: seq<Term>, lp: bool)
    decreases ts, 0
  {
    ts == [] || (FragT(ts[0], lp) && FragTs(ts[1..], false))
  }

  predicate FragC(c: Cmd, lp: bool)
    decreases c, 0
  {
    match c
    case Define(v, e) => FitsVar(v) && FragT(e, lp)
    case Return(e) => FragT(e, lp)
    case Eval(e) => FragT(e, lp)
    case Break => lp
    case Continue => lp
  }

  predicate FragB(b: seq<Cmd>, lp: bool)
    decreases b, 0
  {
    b == [] || (FragC(b[0], lp) && FragB(b[1..], lp))
  }

  predicate FragBranch(b: seq<Cmd>, lp: bool)
    decreases b, 1
  {
    b != [] && !b[|b| - 1].Define? && FragB(b, lp)
  }

  predicate FragF(f: Fun)
    decreases f, 0
  {
    FragB(f.body, false)
  }

  predicate FragProgram(prog: seq<Cmd>) {
    FragB(prog, false) && |CodeP(prog)| <= CODE_MAX
  }

  /** Constants k and up of the pool. */
  ghost predicate Placed(pool: seq<MValue>, k: nat, cs: seq<SValue>) {
    k + |cs| <= |pool| && forall i | 0 <= i < |cs| :: pool[k + i] == LowV(cs[i])
  }

  lemma {:induction false} PlacedBoth(pool: seq<MValue>, k: nat, c1: seq<SValue>, c2: seq<SValue>)
    requires Placed(pool, k, c1 + c2)
    ensures Placed(pool, k, c1) && Placed(pool, k + |c1|, c2)
  {
    forall i | 0 <= i < |c1| ensures pool[k + i] == LowV(c1[i]) {
      assert (c1 + c2)[i] == c1[i];
    }
    forall i | 0 <= i < |c2| ensures pool[k + |c1| + i] == LowV(c2[i]) {
      assert (c1 + c2)[|c1| + i] == c2[i];
    }
  }

  lemma {:induction false} PlacedOne(pool: seq<MValue>, k: nat, x: SValue)
    requires Placed(pool, k, [x])
    ensures k < |pool| && pool[k] == LowV(x)
  {
    assert [x][0] == x;
  }

  lemma {:induction false} PlacedLit(pool: seq<MValue>, k: nat, lit: Lit)
    requires Placed(pool, k, [LitV(lit)])
    ensures k < |pool| && pool[k] == LitV(lit)
  {
    PlacedOne(pool, k, LitV(lit));
  }

  lemma {:induction false} PlacedE(e: Ast.Expr, s: Symbols, k: nat, lp: bool, pool: seq<MValue>)
    requires var r := ElabE(e, s, k); r.Good? && FragT(r.x, lp) && Placed(pool, k, r.consts)
    ensures OkT(ElabE(e, s, k).x, lp, pool)
    decreases e, 2
  {
    hide Placed, OkB, OkTs, OkF, OkC, FragB, FragTs, FragF, FragC, ElabB, ElabEs, ElabS, ElabO, ElabElse, CodeF, LowV;
    var r := ElabE(e, s, k);
    match e
    case Infix(_, _, _) => PlacedInfix(e, s, k, lp, pool);
    case Prefix(_, x) =>
      OneOperand(r.x.args[0], lp, pool);
      PlacedE(x, s, k, lp, pool);
    case Postfix(_, _) => PlacedLit(pool, k, Core.IntLit(1));
    case IntLit(n) => PlacedLit(pool, k, Core.IntLit(n));
    case StringLit(t) => PlacedLit(pool, k, StrLit(t));
    case If(_, _, _) => PlacedIf(e, s, k, lp, pool);
    case Function(_, _) => PlacedFunction(e, s, k, pool);
    case Call(_, _) => PlacedCall(e, s, k, lp, pool);
    case ArrayLit(es) => PlacedEs(es, s, k, lp, pool);
    case Index(_, _) => PlacedIndex(e, s, k, lp, pool);
    case Slice(_, _, _) => PlacedSlice(e, s, k, lp, pool);
    case While(_, _) => PlacedWhile(e, s, k, lp, pool);
    case For(_, _, _, _) => PlacedFor(e, s, k, pool);
    case Assign(_, value) => PlacedE(value, s, k, lp, pool);
    case AssignIndex(_, _, _) => PlacedAssignIndex(e, s, k, lp, pool);
    case _ =>
  }

  lemma {:induction false} OneOperand(a: Term, lp: bool, pool: seq<MValue>)
    ensures FragTs([a], lp) == FragT(a, lp) && OkTs([a], lp, pool) == OkT(a, lp, pool)
  {
    hide FragT, OkT;
    assert [a][1..] == [];
  }

  lemma {:induction false} TwoOperands(a: Term, b: Term, lp: bool, pool: seq<MValue>)
    ensures FragTs([a, b], lp) == (FragT(a, lp) && FragT(b, false))
    ensures OkTs([a, b], lp, pool) == (OkT(a, lp, pool) && OkT(b, false, pool))
  {
    hide FragT, OkT;
    assert [a, b][1..] == [b];
    OneOperand(b, false, pool);
  }

  lemma {:induction false} ThreeOperands(a: Term, b: Term, c: Term, lp: bool, pool: seq<MValue>)
    ensures FragTs([a, b, c], lp) == (FragT(a, lp) && FragT(b, false) && FragT(c, false))
    ensures OkTs([a, b, c], lp, pool) == (OkT(a, lp, pool) && OkT(b, false, pool) && OkT(c, false, pool))
  {
    hide FragT, OkT;
    assert [a, b, c][1..] == [b, c];
    TwoOperands(b, c, false, pool);
  }

  lemma {:induction false} PlacedInfix(e: Ast.Expr, s: Symbols, k: nat, lp: bool, pool: seq<MValue>)
    requires e.Infix?
    requires var r := ElabInfix(e, s, k); r.Good? && FragT(r.x, lp) && Placed(pool, k, r.consts)
    ensures OkT(ElabInfix(e, s, k).x, lp, pool)
    decreases e, 0
  {
    hide Placed, OkTs, FragTs, ElabE;
    var a := ElabE(e.left, s, k);
    var b := ElabE(e.right, a.symbols, k + |a.consts|);
    PlacedBoth(pool, k, a.consts, b.consts);
    TwoOperands(a.x, b.x, lp, pool);
    PlacedE(e.left, s, k, lp, pool);
    PlacedE(e.right, a.symbols, k + |a.consts|, false, pool);
  }

  lemma {:induction false} PlacedCall(e: Ast.Expr, s: Symbols, k: nat, lp: bool, pool: seq<MValue>)
    requires e.Call?
    requires var r := ElabE(e, s, k); r.Good? && FragT(r.x, lp) && Placed(pool, k, r.consts)
    ensures OkT(ElabE(e, s, k).x, lp, pool)
    decreases e, 0
  {
    hide Placed, OkTs, FragTs, ElabEs;
    var a := ElabE(e.callee, s, k);
    var b := ElabEs(e.args, a.symbols, k + |a.consts|);
    PlacedBoth(pool, k, a.consts, b.consts);
    PlacedE(e.callee, s, k, lp, pool);
    PlacedEs(e.args, a.symbols, k + |a.consts|, false, pool);
  }

  lemma {:induction false} PlacedIndex(e: Ast.Expr, s: Symbols, k: nat, lp: bool, pool: seq<MValue>)
    requires e.Index?
    requires var r := ElabE(e, s, k); r.Good? && FragT(r.x, lp) && Placed(pool, k, r.consts)
    ensures OkT(ElabE(e, s, k).x, lp, pool)
    decreases e, 0
  {
    hide Placed, OkTs, FragTs;
    var a := ElabE(e.left, s, k);
    var b := ElabE(e.index, a.symbols, k + |a.consts|);
    PlacedBoth(pool, k, a.consts, b.consts);
    TwoOperands(a.x, b.x, lp, pool);
    PlacedE(e.left, s, k, lp, pool);
    PlacedE(e.index, a.symbols, k + |a.consts|, false, pool);
  }

  lemma {:induction false} PlacedWhile(e: Ast.Expr, s: Symbols, k: nat, lp: bool, pool: seq<MValue>)
    requires e.While?
    requires var r := ElabE(e, s, k); r.Good? && FragT(r.x, lp) && Placed(pool, k, r.consts)
    ensures OkT(ElabE(e, s, k).x, lp, pool)
    decreases e, 0
  {
    hide Placed, OkB, FragB, ElabB;
    var a := ElabE(e.cond, s, k);
    var b := ElabB(e.body, a.symbols, k + |a.consts|);
    PlacedBoth(pool, k, a.consts, b.consts);
    PlacedE(e.cond, s, k, false, pool);
    PlacedB(e.body, a.symbols, k + |a.consts|, true, pool);
  }

  lemma {:induction false} PlacedIf(e: Ast.Expr, s: Symbols, k: nat, lp: bool, pool: seq<MValue>)
    requires e.If?
    requires var r := ElabIf(e, s, k); r.Good? && FragT(r.x, lp) && Placed(pool, k, r.consts)
    ensures OkT(ElabIf(e, s, k).x, lp, pool)
    decreases e, 0
  {
    hide Placed, OkB, FragB, ElabE, ElabB, ElabElse;
    var a := ElabE(e.cond, s, k);
    var b := ElabB(e.conseq, a.symbols, k + |a.consts|);
    var c := ElabElse(e.alt, b.symbols, k + |a.consts| + |b.consts|);
    PlacedBoth(pool, k, a.consts + b.consts, c.consts);
    PlacedBoth(pool, k, a.consts, b.consts);
    PlacedE(e.cond, s, k, lp, pool);
    PlacedB(e.conseq, a.symbols, k + |a.consts|, lp, pool);
    PlacedElse(e.alt, b.symbols, k + |a.consts| + |b.consts|, lp, pool);
  }

  lemma {:induction false} PlacedElse(b: Ast.Alternative, s: Symbols, k: nat, lp: bool, pool: seq<MValue>)
    requires var r := ElabElse(b, s, k); r.Good? && FragB(r.x, lp) && Placed(pool, k, r.consts)
    ensures OkB(ElabElse(b, s, k).x, lp, pool)
    decreases b, 0
  {
    hide Placed, ElabB, FragB;
    if b.Else? {
      PlacedB(b.body, s, k, lp, pool);
    } else {
      var x := [Eval(Null)];
      assert ElabElse(b, s, k).x == x && x[0] == Eval(Null) && x[1..] == [];
    }
  }

  lemma {:induction false} PlacedFunction(e: Ast.Expr, s: Symbols, k: nat, pool: seq<MValue>)
    requires e.Function?
    requires var r := ElabFunction(e, s, k); r.Good? && FragT(r.x, false) && Placed(pool, k, r.consts)
    ensures OkT(ElabFunction(e, s, k).x, false, pool)
    ensures OkT(ElabFunction(e, s, k).x, true, pool)
    decreases e, 0
  {
    hide Placed, OkB, FragB, ElabB, CodeF;
    var b := ElabB(e.body, DefineAll(Enclosed(s), e.params), k);
    var f := Fun(b.symbols.size, b.x);
    PlacedBoth(pool, k, b.consts, [VFun(f)]);
    PlacedOne(pool, k + |b.consts|, VFun(f));
    assert FragF(f) == FragB(b.x, false);
    PlacedB(e.body, DefineAll(Enclosed(s), e.params), k, false, pool);
  }

  lemma {:induction false} PlacedSlice(e: Ast.Expr, s: Symbols, k: nat, lp: bool, pool: seq<MValue>)
    requires e.Slice?
    requires var r := ElabSlice(e, s, k); r.Good? && FragT(r.x, lp) && Placed(pool, k, r.consts)
    ensures OkT(ElabSlice(e, s, k).x, lp, pool)
    decreases e, 0
  {
    hide Placed, OkTs, FragTs, ElabE, ElabO;
    var a := ElabE(e.left, s, k);
    var b := ElabO(e.start, a.symbols, k + |a.consts|);
    var c := ElabO(e.end, b.symbols, k + |a.consts| + |b.consts|);
    PlacedBoth(pool, k, a.consts + b.consts, c.consts);
    PlacedBoth(pool, k, a.consts, b.consts);
    ThreeOperands(a.x, b.x, c.x, lp, pool);
    PlacedE(e.left, s, k, lp, pool);
    PlacedO(e.start, a.symbols, k + |a.consts|, false, pool);
    PlacedO(e.end, b.symbols, k + |a.consts| + |b.consts|, false, pool);
  }

  lemma {:induction false} PlacedAssignIndex(e: Ast.Expr, s: Symbols, k: nat, lp: bool, pool: seq<MValue>)
    requires e.AssignIndex?
    requires var r := ElabAssignIndex(e, s, k); r.Good? && FragT(r.x, lp) && Placed(pool, k, r.consts)
    ensures OkT(ElabAssignIndex(e, s, k).x, lp, pool)
    decreases e, 0
  {
    hide Placed, OkTs, FragTs, ElabE;
    var a := ElabE(e.left, s, k);
    var b := ElabE(e.index, a.symbols, k + |a.consts|);
    var c := ElabE(e.value, b.symbols, k + |a.consts| + |b.consts|);
    PlacedBoth(pool, k, a.consts + b.consts, c.consts);
    PlacedBoth(pool, k, a.consts, b.consts);
    ThreeOperands(a.x, b.x, c.x, lp, pool);
    PlacedE(e.left, s, k, lp, pool);
    PlacedE(e.index, a.symbols, k + |a.consts|, false, pool);
    PlacedE(e.value, b.symbols, k + |a.consts| + |b.consts|, false, pool);
  }

  lemma {:induction false} PlacedFor(e: Ast.Expr, s: Symbols, k: nat, pool: seq<MValue>)
    requires e.For?
    requires var r := ElabFor(e, s, k); r.Good? && FragT(r.x, false) && Placed(pool, k, r.consts)
    ensures OkT(ElabFor(e, s, k).x, false, pool)
    ensures OkT(ElabFor(e, s, k).x, true, pool)
    decreases e, 0
  {
    hide Placed, OkB, FragB, ElabS, ElabB, ElabE;
    var a := ElabS(e.init, s, k);
    var b := ElabTest(e.test, a.symbols, k + |a.consts|);
    var c := ElabB(e.body, b.symbols, k + |a.consts| + |b.consts|);
    var d := ElabS(e.inc, c.symbols, k + |a.consts| + |b.consts| + |c.consts|);
    PlacedBoth(pool, k, a.consts + b.consts + c.consts, d.consts);
    PlacedBoth(pool, k, a.consts + b.consts, c.consts);
    PlacedBoth(pool, k, a.consts, b.consts);
    PlacedS(e.init, s, k, false, pool);
    if e.test.Some? {
      PlacedE(e.test.value, a.symbols, k + |a.consts|, false, pool);
    }
    PlacedB(e.body, b.symbols, k + |a.consts| + |b.consts|, true, pool);
    PlacedS(e.inc, c.symbols, k + |a.consts| + |b.consts| + |c.consts|, false, pool);
  }

  lemma {:induction false} PlacedO(e: Option<Ast.Expr>, s: Symbols, k: nat, lp: bool, pool: seq<MValue>)
    requires var r := ElabO(e, s, k); r.Good? && FragT(r.x, lp) && Placed(pool, k, r.consts)
    ensures OkT(ElabO(e, s, k).x, lp, pool)
    decreases e, 0
  {
    hide Placed;
    if e.Some? {
      PlacedE(e.value, s, k, lp, pool);
    }
  }

  lemma {:induction false} PlacedEs(es: seq<Ast.Expr>, s: Symbols, k: nat, lp: bool, pool: seq<MValue>)
    requires var r := ElabEs(es, s, k); r.Good? && FragTs(r.x, lp) && Placed(pool, k, r.consts)
    ensures OkTs(ElabEs(es, s, k).x, lp, pool)
    decreases es, 0
  {
    hide Placed, ElabE, OkT, FragT;
    if es != [] {
      var a := ElabE(es[0], s, k);
      var b := ElabEs(es[1..], a.symbols, k + |a.consts|);
      PlacedBoth(pool, k, a.consts, b.consts);
      assert ([a.x] + b.x)[1..] == b.x;
      PlacedE(es[0], s, k, lp, pool);
      PlacedEs(es[1..], a.symbols, k + |a.consts|, false, pool);
    }
  }

  lemma {:induction false} PlacedS(x: Ast.Stmt, s: Symbols, k: nat, lp: bool, pool: seq<MValue>)
    requires var r := ElabS(x, s, k); r.Good? && FragB(r.x, lp) && Placed(pool, k, r.consts)
    ensures OkB(ElabS(x, s, k).x, lp, pool)
    decreases x, 0
  {
    hide Placed, ElabE, ElabO, OkT, FragT;
    var b := ElabS(x, s, k).x;
    if |b| == 1 {
      assert b[1..] == [];
    }
    match x
    case Let(name, init) => PlacedO(init, Scopes.Define(s, name).0, k, lp, pool);
    case Return(Some(e)) => PlacedE(e, s, k, lp, pool);
    case ExprStmt(e) => PlacedE(e, s, k, lp, pool);
    case _ =>
  }

  lemma {:induction false} PlacedB(b: seq<Ast.Stmt>, s: Symbols, k: nat, lp: bool, pool: seq<MValue>)
    requires var r := ElabB(b, s, k); r.Good? && FragB(r.x, lp) && Placed(pool, k, r.consts)
    ensures OkB(ElabB(b, s, k).x, lp, pool)
    decreases b, 0
  {
    hide Placed, ElabS;
    if b != [] {
      var x := ElabS(b[0], s, k);
      var y := ElabB(b[1..], x.symbols, k + |x.consts|);
      PlacedBoth(pool, k, x.consts, y.consts);
      BlockParts(x.x, y.x, lp, pool);
      PlacedS(b[0], s, k, lp, pool);
      PlacedB(b[1..], x.symbols, k + |x.consts|, lp, pool);
    }
  }

  lemma {:induction false} BlockParts(a: seq<Cmd>, b: seq<Cmd>, lp: bool, pool: seq<MValue>)
    ensures FragB(a + b, lp) == (FragB(a, lp) && FragB(b, lp))
    ensures OkB(a + b, lp, pool) == (OkB(a, lp, pool) && OkB(b, lp, pool))
    decreases |a|
  {
    hide FragC, OkC;
    if a == [] {
      assert a + b == b;
    } else {
      assert (a + b)[1..] == a[1..] + b;
      BlockParts(a[1..], b, lp, pool);
    }
  }

  // ---- such programs have short functions ----

  lemma {:induction false} FragShortT(t: Term, lp: bool)
    requires FragT(t, lp)
    ensures ShortT(t)
    decreases t, 0
  {
    hide CodeF;
    match t
    case Lambda(_, f) => FragShortB(f.body, false);
    case Prim(_, args) => FragShortTs(args, lp);
    case Put(_, e) => FragShortT(e, lp);
    case Cond(c, x, y) =>
      FragShortT(c, lp);
      FragShortB(x, lp);
      FragShortB(y, lp);
    case Loop(c, body) =>
      FragShortT(c, false);
      FragShortB(body, true);
    case ForLoop(init, until, inc, body) =>
      FragShortB(init, false);
      if until.Some? { FragShortT(until.value, false); }
      FragShortB(inc, false);
      FragShortB(body, true);
    case Call(f, args) =>
      FragShortT(f, lp);
      FragShortTs(args, false);
    case _ =>
  }

  lemma {:induction false} FragShortTs(ts: seq<Term>, lp: bool)
    requires FragTs(ts, lp)
    ensures ShortTs(ts)
    decreases ts, 0
  {
    if ts != [] {
      FragShortT(ts[0], lp);
      FragShortTs(ts[1..], false);
    }
  }

  lemma {:induction false} FragShortC(c: Cmd, lp: bool)
    requires FragC(c, lp)
    ensures ShortC(c)
    decreases c, 0
  {
    match c
    case Define(_, e) => FragShortT(e, lp);
    case Return(e) => FragShortT(e, lp);
    case Eval(e) => FragShortT(e, lp);
    case _ =>
  }

  lemma {:induction false} FragShortB(b: seq<Cmd>, lp: bool)
    requires FragB(b, lp)
    ensures ShortB(b)
    decreases b, 0
  {
    if b != [] {
      FragShortC(b[0], lp);
      FragShortB(b[1..], lp);
    }
  }

  // ---- source text to final state ----

  /** The machine on what a compiler holds. */
  function Loaded(v: View, stack: seq<MValue>): (m: State)
    requires |stack| == STACK_SIZE && |v.pool| <= CONSTANTS_SIZE
    ensures Shape(m)
  {
    State(stack, 0, [Frame(Compiled(v.code, 0), 0, 0)], seq(GLOBALS_SIZE, _ => VNull), v.pool, [])
  }

  /**
   The bytecode and constants that the compiler leaves for a program of the
   fragment are those of the correctness theorem.
   */
  lemma {:induction false} CompiledIsCode(b: seq<Ast.Stmt>, v0: View, v1: View, r: Elab<seq<Cmd>>)
    requires v0.code == [] && v0.pool == [] && r == ElabB(b, v0.symbols, 0) && r.Good? && FragProgram(r.x)
    requires ProgramDone(r, None, v0, v1)
    ensures v1.code == CodeP(r.x) && v1.pool == MapVs(Lower, r.consts) && OkProgram(r.x, v1.pool)
    ensures |v1.pool| <= CONSTANTS_SIZE
  {
    hide FragB, ShortB, CodeP, ElabB, OkB, Placed;
    FragShortB(r.x, false);
    assert v0.pool + MapVs(Lower, r.consts) == MapVs(Lower, r.consts);
    AllPlaced(r.consts);
    PlacedB(b, v0.symbols, 0, false, v1.pool);
  }

  lemma {:induction false} AllPlaced(cs: seq<SValue>)
    ensures Placed(MapVs(Lower, cs), 0, cs)
  {
  }

  /**
   The whole chain. A program is compiled into an empty buffer; if it is in the
   fragment and its meaning is a normal end, the machine runs what was compiled
   to HALT, with the same globals and arrays and the value of a final expression
   popped last; and it cannot stop in any other way.
   */
  lemma {:induction false} CompiledProgramRuns(b: seq<Ast.Stmt>, v0: View, v1: View, prog: seq<Cmd>, stack: seq<MValue>,
                                               fuel: nat, r: Answer, m: State)
    requires v0.code == [] && v0.pool == [] && |stack| == STACK_SIZE
    requires var e := ElabB(b, v0.symbols, 0);
             e.Good? && e.x == prog && FragProgram(prog) && ProgramDone(e, None, v0, v1)
    requires r == Run(prog, fuel) && r.Normal?
    ensures exists m1 :: Reaches(Loaded(v1, stack), m1) && Ends(m1, prog, r)
    ensures Reaches(Loaded(v1, stack), m) && Advance(m).None? ==> Ends(m, prog, r)
  {
    hide FragProgram, ElabB, CodeP, Run, ProgramDone, OkProgram, Reaches, Step, Advance;
    CompiledIsCode(b, v0, v1, ElabB(b, v0.symbols, 0));
    assert Loaded(v1, stack) == Boot(prog, v1.pool, stack);
    var m1 := ProgramRuns(prog, v1.pool, stack, fuel, r);
    assert Ends(m1, prog, r);
    if Reaches(Loaded(v1, stack), m) && Advance(m).None? {
      ProgramStopsOnlySo(prog, v1.pool, stack, fuel, r, m);
    }
  }

  /** At HALT, with what the program means. */
  predicate Ends(m: State, prog: seq<Cmd>, r: Answer)
    requires r.Normal?
  {
    && Shape(m) && Step(m) == Halted && m.sp == 0
    && m.globals == MapVs(Lower, r.st.globals) && m.heap == MapH(Lower, r.st.heap)
    && (EndsInEval(prog) ==> m.stack[0] == LowV(r.v))
  }
}
