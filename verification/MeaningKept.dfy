/**
 The compiler keeps the meaning of the syntax tree: names resolved to slots, operators
 to instructions, and code that runs to HALT with what the tree means
 (src/compiler.c:191-693).
 */
module MeaningKept {
  import opened Wrappers
  import opened Opcodes
  import opened Core
  import opened Objects
  import opened Semantics
  import opened Scopes
  import opened Elaboration
  import opened ConditionLaws
  import opened OperatorLaws
  import opened Naturality
  import opened Machine
  import opened Simulation
  import opened CompilerCorrectness
  import opened Emission
  import opened Compilation
  import opened Fragment
  import opened SyntaxMeaning
  import Ast

  // ---- the resolved form declares what the tree declares ----

  ghost predicate Lands<T>(r: Elab<T>, p: Point, t: Traits) {
    r.Good? ==> Point(r.symbols, p.k + |r.consts|) == Then(p, t)
  }

  lemma {:induction false} LandsE(e: Ast.Expr, s: Symbols, k: nat)
    ensures Lands(ElabE(e, s, k), Point(s, k), OfE(e))
    decreases e, 1
  {
    hide Then, Resolve, ElabInfix, ElabB, ElabEs, ElabS, ElabO, ElabElse, ElabTest, ElabIf, ElabSlice, ElabAssignIndex,
         ElabBody;
    hide ElabFunction, ElabFor, PrefixOp, PostfixOp;
    var p := Point(s, k);
    match e
    case Infix(_, _, _) => LandsInfix(e, s, k);
    case Prefix(_, r) => LandsE(r, s, k);
    case If(_, _, _) => LandsIf(e, s, k);
    case Function(_, _) => LandsFunction(e, s, k);
    case Call(_, _) => LandsCall(e, s, k);
    case ArrayLit(es) => LandsEs(es, s, k);
    case Index(_, _) => LandsIndex(e, s, k);
    case Slice(_, _, _) => LandsSlice(e, s, k);
    case While(_, _) => LandsWhile(e, s, k);
    case For(_, _, _, _) => LandsFor(e, s, k);
    case Assign(_, v) => LandsE(v, s, k);
    case AssignIndex(_, _, _) => LandsAssignIndex(e, s, k);
    case _ => LandsHere(p);
  }

  lemma {:induction false} LandsHere(p: Point)
    ensures Then(p, NOTHING) == p && Then(p, ONE) == Point(p.s, p.k + 1)
  {
  }

  lemma {:induction false} LandsInfix(e: Ast.Expr, s: Symbols, k: nat)
    requires e.Infix?
    ensures Lands(ElabInfix(e, s, k), Point(s, k), OfE(e))
    decreases e, 0
  {
    hide Then, ElabE, InfixOp;
    var p, a := Point(s, k), ElabE(e.left, s, k);
    LandsE(e.left, s, k);
    if a.Good? {
      LandsE(e.right, a.symbols, k + |a.consts|);
      ThenThen(p, OfE(e.left), OfE(e.right));
    }
  }

  lemma {:induction false} LandsCall(e: Ast.Expr, s: Symbols, k: nat)
    requires e.Call?
    ensures Lands(ElabE(e, s, k), Point(s, k), OfE(e))
    decreases e, 0
  {
    hide Then, ElabEs;
    var p, a := Point(s, k), ElabE(e.callee, s, k);
    LandsE(e.callee, s, k);
    if a.Good? {
      LandsEs(e.args, a.symbols, k + |a.consts|);
      ThenThen(p, OfE(e.callee), OfEs(e.args));
    }
  }

  lemma {:induction false} LandsIndex(e: Ast.Expr, s: Symbols, k: nat)
    requires e.Index?
    ensures Lands(ElabE(e, s, k), Point(s, k), OfE(e))
    decreases e, 0
  {
    hide Then;
    var p, a := Point(s, k), ElabE(e.left, s, k);
    LandsE(e.left, s, k);
    if a.Good? {
      LandsE(e.index, a.symbols, k + |a.consts|);
      ThenThen(p, OfE(e.left), OfE(e.index));
    }
  }

  lemma {:induction false} LandsWhile(e: Ast.Expr, s: Symbols, k: nat)
    requires e.While?
    ensures Lands(ElabE(e, s, k), Point(s, k), OfE(e))
    decreases e, 0
  {
    hide Then, ElabB;
    var p, a := Point(s, k), ElabE(e.cond, s, k);
    LandsE(e.cond, s, k);
    if a.Good? {
      LandsB(e.body, a.symbols, k + |a.consts|);
      ThenThen(p, OfE(e.cond), OfB(e.body));
    }
  }

  lemma {:induction false} ThenThree(p: Point, a: Traits, b: Traits, c: Traits)
    ensures Then(Then(Then(p, a), b), c) == Then(p, Plus(a, Plus(b, c)))
  {
    hide Then, Plus;
    ThenThen(Then(p, a), b, c);
    ThenThen(p, a, Plus(b, c));
  }

  lemma {:induction false} ThenFour(p: Point, a: Traits, b: Traits, c: Traits, d: Traits)
    ensures Then(Then(Then(Then(p, a), b), c), d) == Then(p, Plus(a, Plus(b, Plus(c, d))))
  {
    hide Then, Plus;
    ThenThree(Then(p, a), b, c, d);
    ThenThen(p, a, Plus(b, Plus(c, d)));
  }

  lemma {:induction false} LandsIf(e: Ast.Expr, s: Symbols, k: nat)
    requires e.If?
    ensures Lands(ElabIf(e, s, k), Point(s, k), OfE(e))
    decreases e, 0
  {
    hide Then, Plus, ElabE, ElabB, ElabElse;
    var a := ElabE(e.cond, s, k);
    LandsE(e.cond, s, k);
    if a.Good? {
      LandsB(e.conseq, a.symbols, k + |a.consts|);
      var b := ElabB(e.conseq, a.symbols, k + |a.consts|);
      if b.Good? {
        LandsElse(e.alt, b.symbols, k + |a.consts| + |b.consts|);
        ThenThree(Point(s, k), OfE(e.cond), OfB(e.conseq), OfAlt(e.alt));
      }
    }
  }

  lemma {:induction false} LandsElse(alt: Ast.Alternative, s: Symbols, k: nat)
    ensures Lands(ElabElse(alt, s, k), Point(s, k), OfAlt(alt))
    decreases alt, 0
  {
    hide ElabB;
    if alt.Else? { LandsB(alt.body, s, k); }
  }

  lemma {:induction false} LandsFunction(e: Ast.Expr, s: Symbols, k: nat)
    requires e.Function?
    ensures Lands(ElabFunction(e, s, k), Point(s, k), OfE(e))
    decreases e, 0
  {
    hide ElabB;
    LandsB(e.body, DefineAll(Enclosed(s), e.params), k);
  }

  lemma {:induction false} LandsSlice(e: Ast.Expr, s: Symbols, k: nat)
    requires e.Slice?
    ensures Lands(ElabSlice(e, s, k), Point(s, k), OfE(e))
    decreases e, 0
  {
    hide Then, Plus, ElabE, ElabO;
    var a := ElabE(e.left, s, k);
    LandsE(e.left, s, k);
    if a.Good? {
      LandsO(e.start, a.symbols, k + |a.consts|);
      var b := ElabO(e.start, a.symbols, k + |a.consts|);
      if b.Good? {
        LandsO(e.end, b.symbols, k + |a.consts| + |b.consts|);
        ThenThree(Point(s, k), OfE(e.left), OfO(e.start), OfO(e.end));
      }
    }
  }

  lemma {:induction false} LandsAssignIndex(e: Ast.Expr, s: Symbols, k: nat)
    requires e.AssignIndex?
    ensures Lands(ElabAssignIndex(e, s, k), Point(s, k), OfE(e))
    decreases e, 0
  {
    hide Then, Plus, ElabE;
    var a := ElabE(e.left, s, k);
    LandsE(e.left, s, k);
    if a.Good? {
      LandsE(e.index, a.symbols, k + |a.consts|);
      var b := ElabE(e.index, a.symbols, k + |a.consts|);
      if b.Good? {
        LandsE(e.value, b.symbols, k + |a.consts| + |b.consts|);
        ThenThree(Point(s, k), OfE(e.left), OfE(e.index), OfE(e.value));
      }
    }
  }

  lemma {:induction false} LandsFor(e: Ast.Expr, s: Symbols, k: nat)
    requires e.For?
    ensures Lands(ElabFor(e, s, k), Point(s, k), OfE(e))
    decreases e, 0
  {
    hide Then, Plus, ElabS, ElabB, ElabTest;
    var a := ElabS(e.init, s, k);
    LandsS(e.init, s, k);
    if a.Good? {
      LandsTest(e.test, a.symbols, k + |a.consts|);
      var b := ElabTest(e.test, a.symbols, k + |a.consts|);
      if b.Good? {
        LandsB(e.body, b.symbols, k + |a.consts| + |b.consts|);
        var c := ElabB(e.body, b.symbols, k + |a.consts| + |b.consts|);
        if c.Good? {
          LandsS(e.inc, c.symbols, k + |a.consts| + |b.consts| + |c.consts|);
          ThenFour(Point(s, k), OfS(e.init), OfO(e.test), OfB(e.body), OfS(e.inc));
        }
      }
    }
  }

  lemma {:induction false} LandsO(e: Option<Ast.Expr>, s: Symbols, k: nat)
    ensures Lands(ElabO(e, s, k), Point(s, k), OfO(e))
    decreases e, 0
  {
    hide ElabE;
    if e.Some? { LandsE(e.value, s, k); }
  }

  lemma {:induction false} LandsTest(e: Option<Ast.Expr>, s: Symbols, k: nat)
    ensures Lands(ElabTest(e, s, k), Point(s, k), OfO(e))
    decreases e, 0
  {
    hide ElabE;
    if e.Some? { LandsE(e.value, s, k); }
  }

  lemma {:induction false} LandsEs(es: seq<Ast.Expr>, s: Symbols, k: nat)
    ensures Lands(ElabEs(es, s, k), Point(s, k), OfEs(es))
    decreases es, 0
  {
    hide Then, Plus, ElabE;
    if es == [] {
      LandsHere(Point(s, k));
    } else {
      LandsE(es[0], s, k);
      var a := ElabE(es[0], s, k);
      if a.Good? {
        LandsEs(es[1..], a.symbols, k + |a.consts|);
        ThenThen(Point(s, k), OfE(es[0]), OfEs(es[1..]));
      }
    }
  }

  lemma {:induction false} LandsS(x: Ast.Stmt, s: Symbols, k: nat)
    ensures Lands(ElabS(x, s, k), Point(s, k), OfS(x))
    decreases x, 0
  {
    hide ElabE, ElabO, OfE;
    match x
    case Let(name, init) =>
      LandsO(init, Scopes.Define(s, name).0, k);
      assert [name] + OfO(init).lets == OfS(x).lets;
      DefineMore(s, [name], OfO(init).lets);
    case Return(r) => if r.Some? { LandsE(r.value, s, k); }
    case ExprStmt(e) => LandsE(e, s, k);
    case _ =>
  }

  lemma {:induction false} LandsB(b: seq<Ast.Stmt>, s: Symbols, k: nat)
    ensures Lands(ElabB(b, s, k), Point(s, k), OfB(b))
    decreases b, 0
  {
    hide Then, Plus, ElabS;
    if b == [] {
      LandsHere(Point(s, k));
    } else {
      LandsS(b[0], s, k);
      var a := ElabS(b[0], s, k);
      if a.Good? {
        LandsB(b[1..], a.symbols, k + |a.consts|);
        ThenThen(Point(s, k), OfS(b[0]), OfB(b[1..]));
      }
    }
  }

  // ---- operators of the machine ----

  /** The instruction of an operator between two operands does what the operator means. */
  lemma {:induction false} InfixMeans(op: Ast.Operator, x: SValue, y: SValue, st: Store, room: int)
    requires InfixOp(op).Some?
    ensures Apply(Primitive(InfixOp(op).value, st.heap, [x, y]), st, room) == Given(Result(op, x, y), st, room)
  {
    hide Arithmetic;
    var o := InfixOp(op).value;
    InfixIsBinary(op, st.heap, x, y);
    if x.VInt? && y.VInt? {
      IntegersMean(op, x.n, y.n);
    } else if x.VStr? && y.VStr? {
      StringsMean(op, x.s, y.s);
    } else if x.VBool? && y.VBool? {
      TruthsMean(op, x.b, y.b);
    }
  }

  lemma {:induction false} InfixIsBinary(op: Ast.Operator, h: Heap<Fun>, x: SValue, y: SValue)
    requires InfixOp(op).Some?
    ensures Primitive(InfixOp(op).value, h, [x, y])
         == match BinaryOp(InfixOp(op).value, x, y) case None => None case Some(v) => Some((h, v))
  {
    hide BinaryOp, BuildArray, BuildSlice, IndexGet, IndexSet;
  }

  lemma {:induction false} IntegersMean(op: Ast.Operator, a: int, b: int)
    requires InfixOp(op).Some?
    ensures Arithmetic<Fun>(InfixOp(op).value, a, b) == Result(op, VInt(a), VInt(b))
  {
    hide Quotient, Remainder;
  }

  lemma {:induction false} StringsMean(op: Ast.Operator, a: string, b: string)
    requires InfixOp(op).Some?
    ensures BinaryOp<Fun>(InfixOp(op).value, VStr(a), VStr(b)) == Result(op, VStr(a), VStr(b))
  {
  }

  lemma {:induction false} TruthsMean(op: Ast.Operator, a: bool, b: bool)
    requires InfixOp(op).Some?
    ensures BinaryOp<Fun>(InfixOp(op).value, VBool(a), VBool(b)) == Result(op, VBool(a), VBool(b))
  {
  }

  lemma {:induction false} PrefixMeans(op: Ast.Operator, x: SValue, st: Store, room: int)
    requires PrefixOp(op).Some?
    ensures Apply(Primitive(PrefixOp(op).value, st.heap, [x]), st, room) == Given(Opposite(op, x), st, room)
  {
  }

  lemma {:induction false} PostfixMeans(op: Ast.Operator, x: SValue, h: Heap<Fun>)
    requires PostfixOp(op).Some?
    ensures op == Ast.Add || op == Ast.Subtract
    ensures Primitive(PostfixOp(op).value, h, [x, VInt(1)])
         == match Result(op, x, VInt(1)) case None => None case Some(v) => Some((h, v))
  {
  }

  // ---- operands ----

  lemma {:induction false} OneValue(op: PrimOp, a: Term, st: Store, room: int, depth: nat, fuel: nat)
    ensures EvalT(Prim(op, [a]), st, room, depth, fuel)
         == match EvalT(a, st, room, depth, fuel)
            case Normal(x, st1) => Apply(Primitive(op, st1.heap, [x]), st1, room)
            case r => r
  {
    hide EvalT, Primitive, Apply;
    PrimOf(op, [a], st, room, depth, fuel);
    assert [a] == [a] + [];
    OneMore(a, [], st, room, depth, fuel);
    var r := EvalT(a, st, room, depth, fuel);
    if r.Normal? { assert [r.v] + [] == [r.v]; }
  }

  lemma {:induction false} OneMore(a: Term, ts: seq<Term>, st: Store, room: int, depth: nat, fuel: nat)
    ensures EvalTs([a] + ts, st, room, depth, fuel)
         == match EvalT(a, st, room, depth, fuel)
            case Normal(x, st1) =>
              (match EvalTs(ts, st1, room - 1, depth, fuel) case Values(vs, st2) => Values([x] + vs, st2) case r => r)
            case r => Stopped(r)
  {
    hide EvalT;
    assert ([a] + ts)[0] == a && ([a] + ts)[1..] == ts;
  }

  lemma {:induction false} PrimOf(op: PrimOp, ts: seq<Term>, st: Store, room: int, depth: nat, fuel: nat)
    ensures EvalT(Prim(op, ts), st, room, depth, fuel)
         == match EvalTs(ts, st, room, depth, fuel)
            case Stopped(r) => r
            case Values(vs, st1) => Apply(Primitive(op, st1.heap, vs), st1, room)
  {
    hide EvalTs, Primitive, Apply;
  }

  lemma {:induction false} TwoValues(op: PrimOp, a: Term, b: Term, st: Store, room: int, depth: nat, fuel: nat)
    ensures EvalT(Prim(op, [a, b]), st, room, depth, fuel)
         == match EvalT(a, st, room, depth, fuel)
            case Normal(x, st1) =>
              (match EvalT(b, st1, room - 1, depth, fuel)
               case Normal(y, st2) => Apply(Primitive(op, st2.heap, [x, y]), st2, room)
               case r => r)
            case r => r
  {
    hide EvalT, Primitive, Apply;
    PrimOf(op, [a, b], st, room, depth, fuel);
    assert [a, b] == [a] + [b] && [b] == [b] + [];
    OneMore(a, [b], st, room, depth, fuel);
    var r := EvalT(a, st, room, depth, fuel);
    if r.Normal? {
      OneMore(b, [], r.st, room - 1, depth, fuel);
      var q := EvalT(b, r.st, room - 1, depth, fuel);
      if q.Normal? { assert [r.v] + ([q.v] + []) == [r.v, q.v]; }
    }
  }

  lemma {:induction false} ThreeValues(op: PrimOp, a: Term, b: Term, c: Term, st: Store, room: int, depth: nat,
                                       fuel: nat)
    ensures EvalT(Prim(op, [a, b, c]), st, room, depth, fuel)
         == match EvalT(a, st, room, depth, fuel)
            case Normal(x, st1) =>
              (match EvalT(b, st1, room - 1, depth, fuel)
               case Normal(y, st2) =>
                 (match EvalT(c, st2, room - 2, depth, fuel)
                  case Normal(z, st3) => Apply(Primitive(op, st3.heap, [x, y, z]), st3, room)
                  case r => r)
               case r => r)
            case r => r
  {
    hide EvalT, Primitive, Apply;
    PrimOf(op, [a, b, c], st, room, depth, fuel);
    assert [a, b, c] == [a] + [b, c] && [b, c] == [b] + [c] && [c] == [c] + [];
    OneMore(a, [b, c], st, room, depth, fuel);
    var r := EvalT(a, st, room, depth, fuel);
    if r.Normal? {
      OneMore(b, [c], r.st, room - 1, depth, fuel);
      var q := EvalT(b, r.st, room - 1, depth, fuel);
      if q.Normal? {
        OneMore(c, [], q.st, room - 2, depth, fuel);
        var w := EvalT(c, q.st, room - 2, depth, fuel);
        if w.Normal? { assert [r.v] + ([q.v] + ([w.v] + [])) == [r.v, q.v, w.v]; }
      }
    }
  }

  // ---- the resolved form means what the tree means ----

  lemma {:induction false} MeansE(e: Ast.Expr, s: Symbols, k: nat, st: Store, m: Budget)
    requires ElabE(e, s, k).Good?
    ensures EvalT(ElabE(e, s, k).x, st, m.room, m.depth, m.fuel) == MeaningE(e, Point(s, k), st, m)
    decreases m.fuel, 1, e, 1
  {
    hide Then, Resolve, Load, Save, EvalPrim, EvalApply, EvalFor, EvalBump, EvalPut, EvalCond, EvalLoop, EvalCall,
         EvalTs;
    hide ElabInfix, ElabB, ElabEs, ElabIf, ElabFor, ElabSlice, ElabAssignIndex, ElabBody, PrefixOp, PostfixOp,
         ElabFunction;
    match e
    case IntLit(n) =>
    case StringLit(t) =>
    case BoolLit(b) =>
    case Ident(name) =>
    case Infix(_, _, _) => MeansInfix(e, s, k, st, m);
    case Prefix(_, _) => MeansPrefix(e, s, k, st, m);
    case Postfix(_, _) => MeansPostfix(e, s, k, st, m);
    case Assign(_, _) => MeansAssign(e, s, k, st, m);
    case If(_, _, _) => MeansIf(e, s, k, st, m);
    case While(_, _) => MeansWhile(e, s, k, st, m);
    case For(_, _, _, _) => MeansFor(e, s, k, st, m);
    case Function(_, _) => MeansFunction(e, s, k, st, m);
    case Call(_, _) => MeansCall(e, s, k, st, m);
    case ArrayLit(_) => MeansArray(e, s, k, st, m);
    case Index(_, _) => MeansIndex(e, s, k, st, m);
    case Slice(_, _, _) => MeansSlice(e, s, k, st, m);
    case AssignIndex(_, _, _) => MeansStore(e, s, k, st, m);
  }

  lemma {:induction false} MeansInfix(e: Ast.Expr, s: Symbols, k: nat, st: Store, m: Budget)
    requires e.Infix? && ElabE(e, s, k).Good?
    ensures EvalT(ElabE(e, s, k).x, st, m.room, m.depth, m.fuel) == MeaningE(e, Point(s, k), st, m)
    decreases m.fuel, 1, e, 0
  {
    hide Then, EvalT, Primitive, Apply, Given, Result, InfixOp;
    var Infix(op, l, r) := e;
    var a := ElabE(l, s, k);
    var b := ElabE(r, a.symbols, k + |a.consts|);
    TwoValues(InfixOp(op).value, a.x, b.x, st, m.room, m.depth, m.fuel);
    LandsE(l, s, k);
    MeansE(l, s, k, st, m);
    var x := MeaningE(l, Point(s, k), st, m);
    if x.Normal? {
      MeansE(r, a.symbols, k + |a.consts|, x.st, Less(m, 1));
      var y := MeaningE(r, Then(Point(s, k), OfE(l)), x.st, Less(m, 1));
      if y.Normal? { InfixMeans(op, x.v, y.v, y.st, m.room); }
    }
  }

  lemma {:induction false} MeansPrefix(e: Ast.Expr, s: Symbols, k: nat, st: Store, m: Budget)
    requires e.Prefix? && ElabE(e, s, k).Good?
    ensures EvalT(ElabE(e, s, k).x, st, m.room, m.depth, m.fuel) == MeaningE(e, Point(s, k), st, m)
    decreases m.fuel, 1, e, 0
  {
    hide Then, EvalT, Primitive, Apply, Given, Opposite, PrefixOp;
    var Prefix(op, r) := e;
    var a := ElabE(r, s, k);
    OneValue(PrefixOp(op).value, a.x, st, m.room, m.depth, m.fuel);
    MeansE(r, s, k, st, m);
    var x := MeaningE(r, Point(s, k), st, m);
    if x.Normal? { PrefixMeans(op, x.v, x.st, m.room); }
  }

  lemma {:induction false} MeansPostfix(e: Ast.Expr, s: Symbols, k: nat, st: Store, m: Budget)
    requires e.Postfix? && ElabE(e, s, k).Good?
    ensures EvalT(ElabE(e, s, k).x, st, m.room, m.depth, m.fuel) == MeaningE(e, Point(s, k), st, m)
    decreases m.fuel, 1, e, 0
  {
    hide Primitive, Load, Save, Resolve, PostfixOp, Result;
    var Postfix(op, name) := e;
    var v := Resolve(s, name).value;
    var x := Load(v, st);
    if x.Some? { PostfixMeans(op, x.value, st.heap); }
  }

  lemma {:induction false} MeansAssign(e: Ast.Expr, s: Symbols, k: nat, st: Store, m: Budget)
    requires e.Assign? && ElabE(e, s, k).Good?
    ensures EvalT(ElabE(e, s, k).x, st, m.room, m.depth, m.fuel) == MeaningE(e, Point(s, k), st, m)
    decreases m.fuel, 1, e, 0
  {
    hide Load, Save, Resolve;
    MeansE(e.value, s, k, st, m);
  }

  lemma {:induction false} CondOf(a: Term, b: seq<Cmd>, c: seq<Cmd>, st: Store, m: Budget)
    ensures EvalT(Cond(a, b, c), st, m.room, m.depth, m.fuel)
         == match EvalT(a, st, m.room, m.depth, m.fuel)
            case Normal(v, st1) => EvalB(if IsFalse(v) then c else b, st1, m.room, m.depth, m.fuel)
            case r => r
  {
    hide EvalB;
  }

  lemma {:induction false} MeansIf(e: Ast.Expr, s: Symbols, k: nat, st: Store, m: Budget)
    requires e.If? && ElabIf(e, s, k).Good?
    ensures EvalT(ElabIf(e, s, k).x, st, m.room, m.depth, m.fuel) == MeaningIf(e, Point(s, k), st, m)
    decreases m.fuel, 1, e, 0
  {
    hide Then, ElabB, ElabElse, EvalB, EvalT, MeaningB, MeaningAlt, ElabE, MeaningE, IsFalse;
    var If(c, x, alt) := e;
    var a := ElabE(c, s, k);
    var b := ElabB(x, a.symbols, k + |a.consts|);
    LandsE(c, s, k);
    LandsB(x, a.symbols, k + |a.consts|);
    CondOf(a.x, b.x, ElabElse(alt, b.symbols, k + |a.consts| + |b.consts|).x, st, m);
    MeansE(c, s, k, st, m);
    var v := MeaningE(c, Point(s, k), st, m);
    if v.Normal? {
      if IsFalse(v.v) {
        MeansElse(alt, b.symbols, k + |a.consts| + |b.consts|, v.st, m);
      } else {
        MeansB(x, a.symbols, k + |a.consts|, v.st, m);
      }
    }
  }

  lemma {:induction false} MeansElse(alt: Ast.Alternative, s: Symbols, k: nat, st: Store, m: Budget)
    requires ElabElse(alt, s, k).Good?
    ensures EvalB(ElabElse(alt, s, k).x, st, m.room, m.depth, m.fuel) == MeaningAlt(alt, Point(s, k), st, m)
    decreases m.fuel, 1, alt, 0
  {
    hide ElabB;
    if alt.Else? {
      MeansB(alt.body, s, k, st, m);
    } else {
      NullBlock(st, m);
    }
  }

  lemma {:induction false} NullBlock(st: Store, m: Budget)
    ensures EvalB([Eval(Null)], st, m.room, m.depth, m.fuel) == Leaves(VNull, st, m)
  {
    var b := [Eval(Null)];
    assert b[0] == Eval(Null) && |b| == 1;
    assert EvalC(b[0], st, m.room, m.depth, m.fuel) == EvalT(Null, st, m.room, m.depth, m.fuel);
  }

  lemma {:induction false} MeansWhile(e: Ast.Expr, s: Symbols, k: nat, st: Store, m: Budget)
    requires e.While? && ElabE(e, s, k).Good?
    ensures EvalT(ElabE(e, s, k).x, st, m.room, m.depth, m.fuel) == MeaningE(e, Point(s, k), st, m)
    decreases m.fuel, 1, e, 0
  {
    hide Then, ElabB, EvalLoop, MeaningLoop;
    var While(c, body) := e;
    var a := ElabE(c, s, k);
    var b := ElabB(body, a.symbols, k + |a.consts|);
    LandsE(c, s, k);
    LandsB(body, a.symbols, k + |a.consts|);
    var p := Point(s, k);
    var q := Then(p, OfE(c));
    var l := LoopAt(Some(c), p, body, q, Ast.Empty, Then(q, OfB(body)));
    assert LoopOf(l, Some(a.x), b.x, []);
    MeansLoop(l, Some(a.x), b.x, [], VNull, st, m);
  }

  lemma {:induction false} MeansFor(e: Ast.Expr, s: Symbols, k: nat, st: Store, m: Budget)
    requires e.For? && ElabE(e, s, k).Good?
    ensures EvalT(ElabE(e, s, k).x, st, m.room, m.depth, m.fuel) == MeaningE(e, Point(s, k), st, m)
    decreases m.fuel, 1, e, 0
  {
    hide Then, ElabB, ElabS, ElabTest, EvalB, EvalLoop, MeaningLoop, MeaningS;
    var a := ElabS(e.init, s, k);
    var b := ElabTest(e.test, a.symbols, k + |a.consts|);
    var c := ElabB(e.body, b.symbols, k + |a.consts| + |b.consts|);
    var d := ElabS(e.inc, c.symbols, k + |a.consts| + |b.consts| + |c.consts|);
    LandsS(e.init, s, k);
    LandsTest(e.test, a.symbols, k + |a.consts|);
    LandsB(e.body, b.symbols, k + |a.consts| + |b.consts|);
    if m.room >= 1 {
      MeansS(e.init, s, k, st, Less(m, 1));
      var q := Then(Point(s, k), OfS(e.init));
      var r := Then(q, OfO(e.test));
      var l := LoopAt(e.test, q, e.body, r, e.inc, Then(r, OfB(e.body)));
      assert LoopOf(l, b.x, c.x, d.x);
      var x := MeaningS(e.init, Point(s, k), st, Less(m, 1));
      if x.Normal? { MeansLoop(l, b.x, c.x, d.x, VNull, x.st, m); }
    }
  }

  /** The resolved parts of a loop. */
  ghost predicate LoopOf(l: LoopParts, until: Option<Term>, body: seq<Cmd>, inc: seq<Cmd>) {
    && ElabTest(l.test, l.p.s, l.p.k).Good? && ElabTest(l.test, l.p.s, l.p.k).x == until
    && ElabB(l.body, l.q.s, l.q.k).Good? && ElabB(l.body, l.q.s, l.q.k).x == body
    && ElabS(l.inc, l.r.s, l.r.k).Good? && ElabS(l.inc, l.r.s, l.r.k).x == inc
  }

  lemma {:induction false} MeansLoop(l: LoopParts, until: Option<Term>, body: seq<Cmd>, inc: seq<Cmd>, v: SValue,
                                     st: Store, m: Budget)
    requires LoopOf(l, until, body, inc)
    ensures EvalLoop(until, body, inc, v, st, m.room, m.depth, m.fuel) == MeaningLoop(l, v, st, m)
    decreases m.fuel, 0
  {
    hide ElabB, ElabS, ElabE, EvalB, EvalT, EvalBody, MeaningS, MeaningB, MeaningE;
    if m.fuel > 0 {
      var less := m.(fuel := m.fuel - 1);
      if l.test.Some? {
        MeansE(l.test.value, l.p.s, l.p.k, st, Less(less, 1));
      }
      var t := if l.test.None? then Normal(VBool(true), st) else MeaningE(l.test.value, l.p, st, Less(less, 1));
      if t.Normal? && !IsFalse(t.v) {
        MeansRound(l, body, v, t.st, less);
        var x := if AllSilent(l.body) then Normal(v, t.st) else MeaningB(l.body, l.q, t.st, less);
        if x.Normal? {
          MeansOnward(l, until, body, inc, x.v, x.st, m);
        } else if x.Continued? {
          MeansOnward(l, until, body, inc, VNull, x.st, m);
        }
      }
    }
  }

  lemma {:induction false} MeansRound(l: LoopParts, body: seq<Cmd>, v: SValue, st: Store, m: Budget)
    requires ElabB(l.body, l.q.s, l.q.k).Good? && ElabB(l.body, l.q.s, l.q.k).x == body
    ensures EvalBody(body, v, st, m.room, m.depth, m.fuel)
         == match (if AllSilent(l.body) then Normal(v, st) else MeaningB(l.body, l.q, st, m))
            case Continued(st1) => Normal(VNull, st1)
            case r => r
    decreases m.fuel, 2
  {
    hide ElabB, EvalB, MeaningB, AllSilent;
    SilentIsEmpty(l.body, l.q.s, l.q.k);
    MeansB(l.body, l.q.s, l.q.k, st, m);
  }

  lemma {:induction false} MeansOnward(l: LoopParts, until: Option<Term>, body: seq<Cmd>, inc: seq<Cmd>, w: SValue,
                                       st: Store, m: Budget)
    requires m.fuel > 0 && LoopOf(l, until, body, inc)
    ensures Onward(l, w, st, m)
         == match EvalB(inc, st, m.room - 1, m.depth, m.fuel - 1)
            case Normal(_, st1) => EvalLoop(until, body, inc, w, st1, m.room, m.depth, m.fuel - 1)
            case r => r
    decreases m.fuel - 1, 9
  {
    hide ElabB, ElabS, ElabE, EvalB, EvalLoop, MeaningS, MeaningLoop;
    var less := m.(fuel := m.fuel - 1);
    MeansS(l.inc, l.r.s, l.r.k, st, Less(less, 1));
    var x := MeaningS(l.inc, l.r, st, Less(less, 1));
    if x.Normal? {
      MeansLoop(l, until, body, inc, w, x.st, less);
    }
  }

  lemma {:induction false} MeansFunction(e: Ast.Expr, s: Symbols, k: nat, st: Store, m: Budget)
    requires e.Function? && ElabE(e, s, k).Good?
    ensures EvalT(ElabE(e, s, k).x, st, m.room, m.depth, m.fuel) == MeaningE(e, Point(s, k), st, m)
  {
    hide ElabB, DefineAll;
    LandsB(e.body, DefineAll(Enclosed(s), e.params), k);
  }

  lemma {:induction false} MeansCall(e: Ast.Expr, s: Symbols, k: nat, st: Store, m: Budget)
    requires e.Call? && ElabE(e, s, k).Good?
    ensures EvalT(ElabE(e, s, k).x, st, m.room, m.depth, m.fuel) == MeaningE(e, Point(s, k), st, m)
    decreases m.fuel, 1, e, 0
  {
    hide Then, EvalTs, ElabEs, EvalCall;
    var Call(f, args) := e;
    var a := ElabE(f, s, k);
    var b := ElabEs(args, a.symbols, k + |a.consts|);
    LandsE(f, s, k);
    MeansE(f, s, k, st, m);
    var x := MeaningE(f, Point(s, k), st, m);
    if x.Normal? { MeansEs(args, a.symbols, k + |a.consts|, x.st, Less(m, 1)); }
  }

  lemma {:induction false} MeansArray(e: Ast.Expr, s: Symbols, k: nat, st: Store, m: Budget)
    requires e.ArrayLit? && ElabE(e, s, k).Good?
    ensures EvalT(ElabE(e, s, k).x, st, m.room, m.depth, m.fuel) == MeaningE(e, Point(s, k), st, m)
    decreases m.fuel, 1, e, 0
  {
    hide Then, EvalTs, ElabEs, EvalT, BuildArray;
    var ts := ElabEs(e.elems, s, k).x;
    PrimOf(OpArray, ts, st, m.room, m.depth, m.fuel);
    MeansEs(e.elems, s, k, st, m);
  }

  lemma {:induction false} MeansIndex(e: Ast.Expr, s: Symbols, k: nat, st: Store, m: Budget)
    requires e.Index? && ElabE(e, s, k).Good?
    ensures EvalT(ElabE(e, s, k).x, st, m.room, m.depth, m.fuel) == MeaningE(e, Point(s, k), st, m)
    decreases m.fuel, 1, e, 0
  {
    hide Then, EvalT, IndexGet;
    var Index(l, i) := e;
    var a := ElabE(l, s, k);
    var b := ElabE(i, a.symbols, k + |a.consts|);
    TwoValues(OpIndexGet, a.x, b.x, st, m.room, m.depth, m.fuel);
    LandsE(l, s, k);
    MeansE(l, s, k, st, m);
    var x := MeaningE(l, Point(s, k), st, m);
    if x.Normal? { MeansE(i, a.symbols, k + |a.consts|, x.st, Less(m, 1)); }
  }

  lemma {:induction false} MeansSlice(e: Ast.Expr, s: Symbols, k: nat, st: Store, m: Budget)
    requires e.Slice? && ElabSlice(e, s, k).Good?
    ensures EvalT(ElabSlice(e, s, k).x, st, m.room, m.depth, m.fuel) == MeaningSlice(e, Point(s, k), st, m)
    decreases m.fuel, 1, e, 0
  {
    hide Then, EvalT, BuildSlice, ElabO, ElabE, MeaningE;
    var Slice(l, x, y) := e;
    var a := ElabE(l, s, k);
    var b := ElabO(x, a.symbols, k + |a.consts|);
    var c := ElabO(y, b.symbols, k + |a.consts| + |b.consts|);
    ThreeValues(OpSlice, a.x, b.x, c.x, st, m.room, m.depth, m.fuel);
    LandsE(l, s, k);
    LandsO(x, a.symbols, k + |a.consts|);
    MeansE(l, s, k, st, m);
    var u := MeaningE(l, Point(s, k), st, m);
    if u.Normal? {
      MeansO(x, a.symbols, k + |a.consts|, u.st, Less(m, 1));
      var v := MeaningO(x, Point(a.symbols, k + |a.consts|), u.st, Less(m, 1));
      if v.Normal? { MeansO(y, b.symbols, k + |a.consts| + |b.consts|, v.st, Less(m, 2)); }
    }
  }

  lemma {:induction false} MeansStore(e: Ast.Expr, s: Symbols, k: nat, st: Store, m: Budget)
    requires e.AssignIndex? && ElabAssignIndex(e, s, k).Good?
    ensures EvalT(ElabAssignIndex(e, s, k).x, st, m.room, m.depth, m.fuel) == MeaningStore(e, Point(s, k), st, m)
    decreases m.fuel, 1, e, 0
  {
    hide Then, EvalT, IndexSet, ElabE, MeaningE;
    var AssignIndex(l, i, v) := e;
    var a := ElabE(l, s, k);
    var b := ElabE(i, a.symbols, k + |a.consts|);
    var c := ElabE(v, b.symbols, k + |a.consts| + |b.consts|);
    ThreeValues(OpIndexSet, a.x, b.x, c.x, st, m.room, m.depth, m.fuel);
    LandsE(l, s, k);
    LandsE(i, a.symbols, k + |a.consts|);
    MeansE(l, s, k, st, m);
    var x := MeaningE(l, Point(s, k), st, m);
    if x.Normal? {
      MeansE(i, a.symbols, k + |a.consts|, x.st, Less(m, 1));
      var y := MeaningE(i, Point(a.symbols, k + |a.consts|), x.st, Less(m, 1));
      if y.Normal? { MeansE(v, b.symbols, k + |a.consts| + |b.consts|, y.st, Less(m, 2)); }
    }
  }

  lemma {:induction false} MeansO(e: Option<Ast.Expr>, s: Symbols, k: nat, st: Store, m: Budget)
    requires ElabO(e, s, k).Good?
    ensures EvalT(ElabO(e, s, k).x, st, m.room, m.depth, m.fuel) == MeaningO(e, Point(s, k), st, m)
    decreases m.fuel, 1, e, 2
  {
    hide ElabE, MeaningE;
    if e.Some? { MeansE(e.value, s, k, st, m); }
  }

  lemma {:induction false} MeansEs(es: seq<Ast.Expr>, s: Symbols, k: nat, st: Store, m: Budget)
    requires ElabEs(es, s, k).Good?
    ensures EvalTs(ElabEs(es, s, k).x, st, m.room, m.depth, m.fuel) == MeaningEs(es, Point(s, k), st, m)
    decreases m.fuel, 1, es, 0
  {
    hide Then, ElabE, EvalT, MeaningE;
    if es != [] {
      var a := ElabE(es[0], s, k);
      var b := ElabEs(es[1..], a.symbols, k + |a.consts|);
      OneMore(a.x, b.x, st, m.room, m.depth, m.fuel);
      LandsE(es[0], s, k);
      MeansE(es[0], s, k, st, m);
      var x := MeaningE(es[0], Point(s, k), st, m);
      if x.Normal? { MeansEs(es[1..], a.symbols, k + |a.consts|, x.st, Less(m, 1)); }
    }
  }

  lemma {:induction false} SilentIsEmpty(b: seq<Ast.Stmt>, s: Symbols, k: nat)
    requires ElabB(b, s, k).Good?
    ensures AllSilent(b) <==> ElabB(b, s, k).x == []
    decreases |b|
  {
    hide ElabS, Silent;
    if b != [] {
      var a := ElabS(b[0], s, k);
      SilentIsNone(b[0], s, k);
      SilentIsEmpty(b[1..], a.symbols, k + |a.consts|);
    }
  }

  lemma {:induction false} SilentIsNone(x: Ast.Stmt, s: Symbols, k: nat)
    requires ElabS(x, s, k).Good?
    ensures if Silent(x) then ElabS(x, s, k).x == [] else |ElabS(x, s, k).x| == 1
  {
    hide ElabE, ElabO;
  }

  lemma {:induction false} MeansS(x: Ast.Stmt, s: Symbols, k: nat, st: Store, m: Budget)
    requires ElabS(x, s, k).Good?
    ensures EvalB(ElabS(x, s, k).x, st, m.room, m.depth, m.fuel) == MeaningS(x, Point(s, k), st, m)
    decreases m.fuel, 1, x, 3
  {
    hide ElabE, ElabO, EvalT, MeaningE, MeaningO, Save;
    match x
    case Let(name, init) => MeansO(init, Scopes.Define(s, name).0, k, st, m);
    case Return(r) => if r.Some? { MeansE(r.value, s, k, st, m); }
    case ExprStmt(e) => MeansE(e, s, k, st, m);
    case _ =>
  }

  lemma {:induction false} OneCommand(c: Cmd, rest: seq<Cmd>, st: Store, room: int, depth: nat, fuel: nat)
    ensures EvalB([c] + rest, st, room, depth, fuel)
         == match EvalB([c], st, room, depth, fuel)
            case Normal(v, st1) => if rest == [] then Normal(v, st1) else EvalB(rest, st1, room, depth, fuel)
            case r => r
  {
    hide EvalC;
    assert ([c] + rest)[0] == c && ([c] + rest)[1..] == rest && [c][0] == c;
  }

  lemma {:induction false} MeansB(b: seq<Ast.Stmt>, s: Symbols, k: nat, st: Store, m: Budget)
    requires ElabB(b, s, k).Good?
    ensures EvalB(ElabB(b, s, k).x, st, m.room, m.depth, m.fuel) == MeaningB(b, Point(s, k), st, m)
    decreases m.fuel, 1, b, 5
  {
    hide Then, ElabS, EvalB, EvalC, MeaningS, AllSilent;
    if b == [] {
      NoCommands(st, m);
    } else {
      var a := ElabS(b[0], s, k);
      var c := ElabB(b[1..], a.symbols, k + |a.consts|);
      LandsS(b[0], s, k);
      SilentIsNone(b[0], s, k);
      if Silent(b[0]) {
        assert a.x + c.x == c.x;
        MeansB(b[1..], a.symbols, k + |a.consts|, st, m);
      } else {
        assert a.x == [a.x[0]];
        OneCommand(a.x[0], c.x, st, m.room, m.depth, m.fuel);
        SilentIsEmpty(b[1..], a.symbols, k + |a.consts|);
        MeansS(b[0], s, k, st, m);
        var v := MeaningS(b[0], Point(s, k), st, m);
        if v.Normal? { MeansB(b[1..], a.symbols, k + |a.consts|, v.st, m); }
      }
    }
  }

  lemma {:induction false} NoCommands(st: Store, m: Budget)
    ensures EvalB([], st, m.room, m.depth, m.fuel) == Normal(VNull, st)
  {
  }

  // ---- calls ----

  lemma {:induction false} DefineGrows(s: Symbols, names: seq<string>, name: string)
    ensures var t := DefineAll(s, names);
            && t.size >= s.size && t.outer == s.outer
            && (name in s.store ==> name in t.store && t.store[name] == s.store[name])
    decreases |names|
  {
    if names != [] {
      DefineGrows(Scopes.Define(s, names[0]).0, names[1..], name);
    }
  }

  /** Different names in a function's scope get its slots in their order. */
  lemma {:induction false} InOrder(s: Symbols, names: seq<string>, i: nat)
    requires i < |names| && s.outer.Some? && (forall j | 0 <= j < |names| :: names[j] !in s.store)
    requires forall j, l | 0 <= j < l < |names| :: names[j] != names[l]
    ensures var t := DefineAll(s, names);
            names[i] in t.store && t.store[names[i]] == Local(s.size + i) && t.size == s.size + |names|
    decreases |names|
  {
    var s1, rest := Scopes.Define(s, names[0]).0, names[1..];
    if i > 0 {
      InOrder(s1, rest, i - 1);
    } else {
      DefineGrows(s1, rest, names[0]);
      if |names| > 1 { InOrder(s1, rest, 0); }
    }
  }

  /**
   What a call does, from the function's text: its body runs where the parameters and the
   names of its own are the locals, with the arguments in the first of them; what it ends
   or returns with is the result; globals and arrays are shared, and the caller's locals
   are as they were.
   */
  lemma {:induction false} FunctionMeans(params: seq<string>, body: seq<Ast.Stmt>, p: Point, vs: seq<SValue>, st: Store,
                                         m: Budget)
    requires FunctionAt(params, body, p).Some?
    ensures var f, q := FunctionAt(params, body, p).value, Point(DefineAll(Enclosed(p.s), params), p.k);
            var n := Then(q, OfB(body)).s.size;
            f.numLocals == n && EvalCall(VFun(f), vs, st, m.room, m.depth, m.fuel)
            == if m.fuel == 0 || m.depth == 0 || n > m.room - 1 then Failed else
               match MeaningB(body, q, st.(locals := Parameters(n, vs)),
                 Budget(m.room - 1 - n, m.depth - 1, m.fuel - 1))
               case Normal(v, st1) => Normal(v, st1.(locals := st.locals))
               case Returned(v, st1) => Normal(v, st1.(locals := st.locals))
               case _ => Failed
  {
    hide ElabB, EvalB, MeaningB, DefineAll;
    var q := Point(DefineAll(Enclosed(p.s), params), p.k);
    var n := Then(q, OfB(body)).s.size;
    if m.fuel > 0 && m.depth > 0 && n <= m.room - 1 {
      MeansB(body, q.s, q.k, st.(locals := Parameters(n, vs)), Budget(m.room - 1 - n, m.depth - 1, m.fuel - 1));
    }
  }

  /** Parameters take the slots in their order if and only if no name is given twice. */
  lemma {:induction false} ParametersInOrder(params: seq<string>, s: Symbols)
    ensures (forall i | 0 <= i < |params| :: Resolve(DefineAll(Enclosed(s), params), params[i]) == Some(Local(i)))
       <==> (forall j, l | 0 <= j < l < |params| :: params[j] != params[l])
  {
    hide DefineAll, Resolve;
    var q := DefineAll(Enclosed(s), params);
    if forall j, l | 0 <= j < l < |params| :: params[j] != params[l] {
      forall i | 0 <= i < |params| ensures Resolve(q, params[i]) == Some(Local(i)) {
        InOrder(Enclosed(s), params, i);
        InnerFirst(q, params[i]);
      }
    } else {
      var j, l :| 0 <= j < l < |params| && params[j] == params[l];
      assert Some(Local(j)) != Some(Local(l));
    }
  }

  lemma {:induction false} InnerFirst(s: Symbols, name: string)
    ensures name in s.store ==> Resolve(s, name) == Some(s.store[name])
  {
  }

  /** In a function's body a parameter means the argument in its place; without one it has no value. */
  lemma {:induction false} ParameterMeans(params: seq<string>, body: seq<Ast.Stmt>, p: Point, vs: seq<SValue>,
                                          st: Store,
                                          m: Budget, i: nat)
    requires i < |params| && forall j, l | 0 <= j < l < |params| :: params[j] != params[l]
    ensures var q := Point(DefineAll(Enclosed(p.s), params), p.k);
            var n := Then(q, OfB(body)).s.size;
            MeaningE(Ast.Ident(params[i]), q, st.(locals := Parameters(n, vs)), m)
            == if i < |vs| then Leaves(vs[i], st.(locals := Parameters(n, vs)), m) else Failed
  {
    var s0 := Enclosed(p.s);
    InOrder(s0, params, i);
    var q := DefineAll(s0, params);
    DefineGrows(q, OfB(body).lets, params[i]);
    assert Resolve(q, params[i]) == Some(Local(i));
  }

  /**
   Behind `let name = e` the name means the value of e, and every name with another slot
   means what it meant before the value was stored; a name of a builtin is no variable.
   */
  lemma {:induction false} LetMeans(name: string, e: Ast.Expr, p: Point, st: Store, m: Budget, y: SValue, st1: Store,
                                    other: string)
    requires MeaningE(e, Point(Scopes.Define(p.s, name).0, p.k), st, m) == Normal(y, st1)
    requires !Scopes.Define(p.s, name).1.Builtin?
    ensures var x := Ast.Let(name, Some(e));
            var r, q := MeaningS(x, p, st, m), Then(p, OfS(x));
            r.Normal? ==>
              && r.st.heap == st1.heap && MeaningE(Ast.Ident(name), q, r.st, m) == Leaves(y, r.st, m)
              && (Resolve(q.s, other) != Resolve(q.s, name) ==>
                    match MeaningE(Ast.Ident(other), q, st1, m)
                    case Normal(z, _) => MeaningE(Ast.Ident(other), q, r.st, m) == Normal(z, r.st)
                    case a => MeaningE(Ast.Ident(other), q, r.st, m) == a)
  {
    hide OfE, DefineAll;
    var (s1, v) := Scopes.Define(p.s, name);
    var lets := OfE(e).lets;
    DefineGrows(s1, lets, name);
    var q := DefineAll(s1, lets);
    assert Resolve(q, name) == Some(v);
    var behind := Then(p, OfS(Ast.Let(name, Some(e))));
    BehindLet(name, e, p);
    if Save(v, y, st1).Some? {
      var st2 := Save(v, y, st1).value;
      IdentMeans(name, behind, st2, m);
      IdentMeans(other, behind, st2, m);
      IdentMeans(other, behind, st1, m);
      if Resolve(q, other).Some? { SavedThenRead(v, y, st1, Resolve(q, other).value); }
      SavedThenRead(v, y, st1, v);
    }
  }

  lemma {:induction false} BehindLet(name: string, e: Ast.Expr, p: Point)
    ensures Then(p, OfS(Ast.Let(name, Some(e)))).s == DefineAll(Scopes.Define(p.s, name).0, OfE(e).lets)
  {
    hide OfE, DefineAll;
    var lets := OfE(e).lets;
    assert OfO(Some(e)) == OfE(e);
    assert OfS(Ast.Let(name, Some(e))).lets == [name] + lets;
    DefineMore(p.s, [name], lets);
    OneName(p.s, name);
  }

  lemma {:induction false} OneName(s: Symbols, name: string)
    ensures DefineAll(s, [name]) == Scopes.Define(s, name).0
  {
    assert [name][1..] == [];
    assert DefineAll(Scopes.Define(s, name).0, []) == Scopes.Define(s, name).0;
  }

  lemma {:induction false} IdentMeans(name: string, p: Point, st: Store, m: Budget)
    ensures MeaningE(Ast.Ident(name), p, st, m) == Looked(name, p.s, st, m)
  {
  }

  lemma {:induction false} SavedThenRead(v: Var, x: SValue, st: Store, w: Var)
    requires Save(v, x, st).Some? && !v.Builtin?
    ensures var st1 := Save(v, x, st).value;
            && Load(w, st1) == (if w == v then Some(x) else Load(w, st)) && st1.heap == st.heap
  {
  }

  /** The builtin functions by their names. */
  lemma {:induction false} BuiltinMeans()
    ensures Resolve(Builtins(), "print") == Some(Builtin(PRINT)) && Resolve(Builtins(), "len") == Some(Builtin(LEN))
    ensures Resolve(Builtins(), "type") == Some(Builtin(TYPE)) && Resolve(Builtins(), "int") == Some(Builtin(INT))
    ensures Resolve(Builtins(), "array_pop") == Some(Builtin(ARRAY_POP))
    ensures Resolve(Builtins(), "array_push") == Some(Builtin(ARRAY_PUSH))
    ensures Resolve(Builtins(), "str_split") == Some(Builtin(SPLIT))
    ensures Resolve(Builtins(), "str_contains") == Some(Builtin(CONTAINS))
  {
    hide Resolve, BuiltinsFrom;
    forall i | 0 <= i < |BUILTIN_NAMES| ensures Resolve(Builtins(), BUILTIN_NAMES[i]) == Some(Builtin(i)) {
      BuiltinNumber(i);
    }
  }

  lemma {:induction false} BuiltinNumber(i: nat)
    requires i < |BUILTIN_NAMES|
    ensures Resolve(Builtins(), BUILTIN_NAMES[i]) == Some(Builtin(i))
  {
    BuiltinSet(NO_SYMBOLS, 0, i);
  }

  lemma {:induction false} BuiltinSet(s: Symbols, j: nat, i: nat)
    requires j <= |BUILTIN_NAMES| && i < |BUILTIN_NAMES|
    requires i < j ==> BUILTIN_NAMES[i] in s.store && s.store[BUILTIN_NAMES[i]] == Builtin(i)
    ensures var t := BuiltinsFrom(s, j).store; BUILTIN_NAMES[i] in t && t[BUILTIN_NAMES[i]] == Builtin(i)
    decreases |BUILTIN_NAMES| - j
  {
    if j < |BUILTIN_NAMES| {
      if i != j { OtherName(i, j); }
      BuiltinSet(DefineBuiltin(s, j, BUILTIN_NAMES[j]), j + 1, i);
    }
  }

  lemma {:induction false} OtherName(i: nat, j: nat)
    requires i < |BUILTIN_NAMES| && j < |BUILTIN_NAMES| && i != j
    ensures BUILTIN_NAMES[i] != BUILTIN_NAMES[j]
  {
  }

  // ---- whole programs ----

  /** Null in every global, no arrays, and the machine's whole stack. */
  function MeaningOf(b: seq<Ast.Stmt>, s: Symbols, fuel: nat): Answer {
    MeaningB(b, Point(s, 0), EmptyStore(), Budget(STACK_SIZE, FRAMES_SIZE - 1, fuel))
  }

  /** The last statement that does anything is an expression. */
  predicate EndsInValue(b: seq<Ast.Stmt>) {
    b != [] && if AllSilent(b[1..]) then b[0].ExprStmt? else EndsInValue(b[1..])
  }

  lemma {:induction false} ValueIsLast(b: seq<Ast.Stmt>, s: Symbols, k: nat)
    requires ElabB(b, s, k).Good?
    ensures EndsInEval(ElabB(b, s, k).x) <==> EndsInValue(b)
    decreases |b|
  {
    hide ElabS, ElabE, AllSilent;
    if b != [] {
      var a := ElabS(b[0], s, k);
      var c := ElabB(b[1..], a.symbols, k + |a.consts|);
      SilentIsNone(b[0], s, k);
      SilentIsEmpty(b[1..], a.symbols, k + |a.consts|);
      ValueIsLast(b[1..], a.symbols, k + |a.consts|);
      EvalOnly(b[0], s, k);
      var x := a.x + c.x;
      if c.x != [] {
        assert x[|x| - 1] == c.x[|c.x| - 1];
      } else if a.x != [] {
        assert x[|x| - 1] == a.x[|a.x| - 1];
      }
    }
  }

  lemma {:induction false} EvalOnly(x: Ast.Stmt, s: Symbols, k: nat)
    requires ElabS(x, s, k).Good?
    ensures EndsInEval(ElabS(x, s, k).x) <==> x.ExprStmt?
  {
    hide ElabE, ElabO;
  }

  /** At HALT, with what the program means. */
  predicate EndsAs(m: State, b: seq<Ast.Stmt>, r: Answer)
    requires r.Normal?
  {
    && Shape(m) && Step(m) == Halted && m.sp == 0
    && m.globals == MapVs(Lower, r.st.globals) && m.heap == MapH(Lower, r.st.heap)
    && (EndsInValue(b) ==> m.stack[0] == LowV(r.v))
  }

  /**
   The compiler is right by the syntax tree: what it makes of a program of the fragment
   whose meaning is a normal end runs to HALT with the globals, the arrays and the last value
   of that meaning, and stops in no other way.
   */
  lemma {:induction false} ProgramMeans(b: seq<Ast.Stmt>, v0: View, v1: View, stack: seq<MValue>, fuel: nat, m: State)
    requires v0.code == [] && v0.pool == [] && |stack| == STACK_SIZE
    requires var e := ElabB(b, v0.symbols, 0); e.Good? && FragProgram(e.x) && ProgramDone(e, None, v0, v1)
    requires MeaningOf(b, v0.symbols, fuel).Normal?
    ensures exists m1 :: Reaches(Loaded(v1, stack), m1) && EndsAs(m1, b, MeaningOf(b, v0.symbols, fuel))
    ensures Reaches(Loaded(v1, stack), m) && Advance(m).None? ==> EndsAs(m, b, MeaningOf(b, v0.symbols, fuel))
  {
    hide FragProgram, ElabB, ProgramDone, Reaches, Step, Advance, Loaded, MeaningB, EvalB, EndsInEval, EndsInValue,
         Shape;
    var prog := ElabB(b, v0.symbols, 0).x;
    var r := MeaningOf(b, v0.symbols, fuel);
    MeansB(b, v0.symbols, 0, EmptyStore(), Budget(STACK_SIZE, FRAMES_SIZE - 1, fuel));
    ValueIsLast(b, v0.symbols, 0);
    CompiledIsCode(b, v0, v1, ElabB(b, v0.symbols, 0));
    CompiledProgramRuns(b, v0, v1, prog, stack, fuel, r, m);
    var m1 :| Reaches(Loaded(v1, stack), m1) && Ends(m1, prog, r);
    assert EndsAs(m1, b, r);
  }
}
