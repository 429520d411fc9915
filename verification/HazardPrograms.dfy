/**
 The two programs as texts of the language: what the compiler makes of them is
 the code that the runs are about, so compiled programs of the fragment do meet
 the failing side of the condition for safe executions.
 */
module HazardPrograms {
  import opened Wrappers
  import opened Opcodes
  import opened Core
  import opened Codegen
  import opened Objects
  import opened Machine
  import opened Semantics
  import opened Naturality
  import opened Simulation
  import opened Patching
  import opened Scopes
  import opened Elaboration
  import opened Emission
  import opened Compilation
  import opened Fragment
  import opened StackHeights
  import opened StackDiscipline
  import opened JumpTargets
  import opened Mutators
  import opened CollectorSafety
  import opened CollectedMachine
  import opened CollectorHazards
  import opened CompiledRuns
  import Ast
  import Runs

  // ---- names ----

  predicate IsBuiltinName(name: string) { name in BUILTIN_NAMES }

  lemma {:induction false} BuiltinsBeside(s: Symbols, i: nat, name: string)
    requires i <= |BUILTIN_NAMES| && forall j | i <= j < |BUILTIN_NAMES| :: BUILTIN_NAMES[j] != name
    ensures var r := BuiltinsFrom(s, i);
            && r.size == s.size && r.outer == s.outer && (name in r.store <==> name in s.store)
            && (name in s.store ==> r.store[name] == s.store[name])
    decreases |BUILTIN_NAMES| - i
  {
    if i < |BUILTIN_NAMES| {
      BuiltinsBeside(DefineBuiltin(s, i, BUILTIN_NAMES[i]), i + 1, name);
    }
  }

  /** Names that no builtin has are free in the scope that programs start in. */
  lemma {:induction false} FreeName(name: string)
    requires !IsBuiltinName(name)
    ensures name !in Builtins().store && Builtins().size == 0 && Builtins().outer == None
  {
    BuiltinsBeside(NO_SYMBOLS, 0, name);
  }

  lemma {:induction false} PrintName()
    ensures Resolve(Builtins(), "print") == Some(Builtin(0)) && IsBuiltinName("print")
  {
    BuiltinsBeside(DefineBuiltin(NO_SYMBOLS, 0, "print"), 1, "print");
    assert BUILTIN_NAMES[0] == "print";
  }

  // ---- pieces of the programs ----

  function Twice(g: nat): Term { Prim(OpAdd, [Get(Global(g)), Get(Global(g))]) }

  function Doubled(s: string): Ast.Expr { Ast.Infix(Ast.Add, Ast.Ident(s), Ast.Ident(s)) }

  lemma {:induction false} DoubledElab(s: string, sym: Symbols, k: nat, g: nat)
    requires Resolve(sym, s) == Some(Global(g))
    ensures ElabE(Doubled(s), sym, k) == Good(Twice(g), sym, [])
  {
    var x := Ast.Ident(s);
    assert ElabE(x, sym, k) == Good(Get(Global(g)), sym, []);
  }

  lemma {:induction false} ElabFirst(b: seq<Ast.Stmt>, s: Symbols, k: nat, c: Cmd, s1: Symbols, c1: seq<SValue>,
                                     cs: seq<Cmd>, s2: Symbols, c2: seq<SValue>)
    requires b != [] && ElabS(b[0], s, k) == Good([c], s1, c1) && ElabB(b[1..], s1, k + |c1|) == Good(cs, s2, c2)
    ensures ElabB(b, s, k) == Good([c] + cs, s2, c1 + c2)
  {
    hide ElabS;
  }

  lemma {:induction false} OneElab(x: Ast.Stmt, s: Symbols, k: nat, c: Cmd, s1: Symbols, c1: seq<SValue>)
    requires ElabS(x, s, k) == Good([c], s1, c1)
    ensures ElabB([x], s, k) == Good([c], s1, c1)
  {
    hide ElabS;
    assert [x][1..] == [];
    assert ElabB([], s1, k + |c1|) == Good([], s1, []);
    ElabFirst([x], s, k, c, s1, c1, [], s1, []);
    assert [c] + [] == [c] && c1 + [] == c1;
  }

  lemma {:induction false} TwoElab(x: Ast.Stmt, y: Ast.Stmt, s: Symbols, k: nat, c: Cmd, s1: Symbols, c1: seq<SValue>,
                                   d: Cmd, s2: Symbols, c2: seq<SValue>)
    requires ElabS(x, s, k) == Good([c], s1, c1) && ElabS(y, s1, k + |c1|) == Good([d], s2, c2)
    ensures ElabB([x, y], s, k) == Good([c, d], s2, c1 + c2)
  {
    hide ElabS;
    assert [x, y][1..] == [y];
    OneElab(y, s1, k + |c1|, d, s2, c2);
    ElabFirst([x, y], s, k, c, s1, c1, [d], s2, c2);
    assert [c] + [d] == [c, d];
  }

  lemma {:induction false} FourElab(x: Ast.Stmt, y: Ast.Stmt, z: Ast.Stmt, w: Ast.Stmt, s: Symbols,
                                    c: Cmd, s1: Symbols, c1: seq<SValue>, d: Cmd, s2: Symbols, c2: seq<SValue>,
                                    e: Cmd, s3: Symbols, c3: seq<SValue>, f: Cmd, s4: Symbols, c4: seq<SValue>)
    requires ElabS(x, s, 0) == Good([c], s1, c1) && ElabS(y, s1, |c1|) == Good([d], s2, c2)
    requires ElabS(z, s2, |c1| + |c2|) == Good([e], s3, c3) && ElabS(w, s3, |c1| + |c2| + |c3|) == Good([f], s4, c4)
    ensures ElabB([x, y, z, w], s, 0) == Good([c, d, e, f], s4, c1 + (c2 + (c3 + c4)))
  {
    hide ElabS;
    assert [x, y, z, w][1..] == [y, z, w] && [y, z, w][1..] == [z, w];
    TwoElab(z, w, s2, |c1| + |c2|, e, s3, c3, f, s4, c4);
    ElabFirst([y, z, w], s1, |c1|, d, s2, c2, [e, f], s4, c3 + c4);
    assert [d] + [e, f] == [d, e, f] && [c] + [d, e, f] == [c, d, e, f];
    ElabFirst([x, y, z, w], s, 0, c, s1, c1, [d, e, f], s4, c2 + (c3 + c4));
  }

  // ---- where their code is ----

  lemma {:induction false} InstrIn(fn: Compiled, p: nat, i: Instr, rest: seq<byte>)
    requires At(fn, p, Encode(i) + rest) && Fits(i)
    ensures Fetch(fn.code, p) == Some(i) && At(fn, p + Size(i), rest)
  {
    hide At, Fetch, Encode;
    AtCat(fn, p, Encode(i), rest);
    AtFetch(fn, p, i);
  }

  lemma {:induction false} CommandIn(fn: Compiled, p: nat, c: Cmd, rest: seq<Cmd>)
    requires At(fn, p, CodeB([c] + rest, p, BRK, CONT))
    ensures At(fn, p, CodeC(c, p, BRK, CONT)) && At(fn, p + LenC(c), CodeB(rest, p + LenC(c), BRK, CONT))
  {
    hide At, CodeC, LenC;
    assert ([c] + rest)[1..] == rest;
    AtCat(fn, p, CodeC(c, p, BRK, CONT), CodeB(rest, p + LenC(c), BRK, CONT));
  }

  lemma {:induction false} FourIn(fn: Compiled, c: Cmd, d: Cmd, e: Cmd, f: Cmd)
    requires fn.code == CodeP([c, d, e, f])
    ensures At(fn, 0, CodeC(c, 0, BRK, CONT)) && At(fn, LenC(c), CodeC(d, LenC(c), BRK, CONT))
    ensures At(fn, LenC(c) + LenC(d), CodeC(e, LenC(c) + LenC(d), BRK, CONT))
    ensures var p := LenC(c) + LenC(d) + LenC(e);
            At(fn, p, CodeC(f, p, BRK, CONT)) && |fn.code| == p + LenC(f) + 1
  {
    hide At, CodeB, CodeC, LenC;
    AtWhole(fn);
    AtCat(fn, 0, CodeB([c, d, e, f], 0, BRK, CONT), Encode(Plain(OpHalt)));
    assert [c, d, e, f] == [c] + [d, e, f] && [d, e, f] == [d] + [e, f] && [e, f] == [e] + [f] && [f] == [f] + [];
    CommandIn(fn, 0, c, [d, e, f]);
    CommandIn(fn, LenC(c), d, [e, f]);
    CommandIn(fn, LenC(c) + LenC(d), e, [f]);
    CommandIn(fn, LenC(c) + LenC(d) + LenC(e), f, []);
    FourLen(c, d, e, f);
  }

  lemma {:induction false} FourLen(c: Cmd, d: Cmd, e: Cmd, f: Cmd)
    ensures LenB([c, d, e, f]) == LenC(c) + LenC(d) + LenC(e) + LenC(f)
  {
    hide LenC;
    assert [c, d, e, f][1..] == [d, e, f] && [d, e, f][1..] == [e, f] && [e, f][1..] == [f] && [f][1..] == [];
    assert LenB([]) == 0 && LenB([f]) == LenC(f);
    assert LenB([e, f]) == LenC(e) + LenC(f);
  }

  lemma {:induction false} DefineIn(fn: Compiled, p: nat, g: nat, e: Term)
    requires At(fn, p, CodeC(Core.Define(Global(g), e), p, BRK, CONT)) && g < LIMIT
    ensures At(fn, p, CodeT(e, p, BRK, CONT)) && Fetch(fn.code, p + LenT(e)) == Some(Instr(OpSetGlobal, g))
    ensures LenC(Core.Define(Global(g), e)) == LenT(e) + 3
  {
    hide At, Fetch, Encode, CodeT, LenT;
    AtCat(fn, p, CodeT(e, p, BRK, CONT), Encode(Instr(OpSetGlobal, g)));
    AtFetch(fn, p + LenT(e), Instr(OpSetGlobal, g));
  }

  lemma {:induction false} EvalIn(fn: Compiled, p: nat, e: Term, brk: nat, cont: nat)
    requires At(fn, p, CodeC(Eval(e), p, brk, cont))
    ensures At(fn, p, CodeT(e, p, brk, cont)) && Fetch(fn.code, p + LenT(e)) == Some(Plain(OpPop))
    ensures LenC(Eval(e)) == LenT(e) + 1
  {
    hide At, Fetch, Encode, CodeT, LenT;
    AtCat(fn, p, CodeT(e, p, brk, cont), Encode(Plain(OpPop)));
    AtFetch(fn, p + LenT(e), Plain(OpPop));
  }

  lemma {:induction false} TwiceIn(fn: Compiled, p: nat, g: nat, brk: nat, cont: nat)
    requires At(fn, p, CodeT(Twice(g), p, brk, cont)) && g < LIMIT
    ensures DoublesAt(fn.code, p, g)
  {
    hide At, Fetch, Encode;
    var get := Get(Global(g));
    var a, i := Encode(Instr(OpGetGlobal, g)), Plain(OpAdd);
    TwoOperandCode(get, p, brk, cont);
    AtCat(fn, p, a + a, Encode(i));
    AtCat(fn, p, a, a);
    AtFetch(fn, p, Instr(OpGetGlobal, g));
    AtFetch(fn, p + 3, Instr(OpGetGlobal, g));
    AtFetch(fn, p + 6, i);
  }

  lemma {:induction false} TwoOperandCode(e: Term, p: nat, brk: nat, cont: nat)
    requires e.Get? && e.v.Global?
    ensures CodeTs([e, e], p, brk, cont) == Encode(GetOp(e.v)) + Encode(GetOp(e.v)) && LenTs([e, e]) == 6
  {
    hide Encode;
    assert [e, e][1..] == [e] && [e][1..] == [];
    assert CodeTs([e], p + 3, brk, cont) == Encode(GetOp(e.v)) + [];
  }

  lemma {:induction false} TwiceLen(g: nat)
    ensures LenT(Twice(g)) == 7
  {
    TwoOperandCode(Get(Global(g)), 0, 0, 0);
  }

  /** A loop whose test is a truth value. */
  lemma {:induction false} LoopIn(fn: Compiled, p: nat, t: bool, body: seq<Cmd>, brk: nat, cont: nat)
    requires At(fn, p, CodeT(Loop(Truth(t), body), p, brk, cont)) && p + LenT(Loop(Truth(t), body)) < LIMIT
    ensures var after := p + 8 + LenL(body);
            && Fetch(fn.code, p) == Some(Plain(OpNull))
            && Fetch(fn.code, p + 1) == Some(Plain(if t then OpTrue else OpFalse))
            && Fetch(fn.code, p + 2) == Some(Instr(OpJumpNotTrue, after))
            && At(fn, p + 5, CodeL(body, p + 5, after, p + 1))
            && Fetch(fn.code, p + 5 + LenL(body)) == Some(Instr(OpJump, p + 1))
            && LenT(Loop(Truth(t), body)) == 8 + LenL(body)
  {
    hide At, Fetch, Encode, CodeL, LenL;
    var after := p + 8 + LenL(body);
    var first, test, exit, back := Plain(OpNull), Plain(if t then OpTrue else OpFalse), Instr(OpJumpNotTrue, after),
      Instr(OpJump, p + 1);
    assert CodeT(Truth(t), p + 1, brk, cont) == Encode(test) && LenT(Truth(t)) == 1;
    AtFour(fn, p, Encode(first), Encode(test), Encode(exit), CodeL(body, p + 5, after, p + 1), Encode(back));
    AtFetch(fn, p, first);
    AtFetch(fn, p + 1, test);
    AtFetch(fn, p + 2, exit);
    AtFetch(fn, p + 5 + LenL(body), back);
  }

  lemma {:induction false} BodyIn(fn: Compiled, p: nat, e: Term, brk: nat, cont: nat)
    requires At(fn, p, CodeL([Eval(e)], p, brk, cont))
    ensures Fetch(fn.code, p) == Some(Plain(OpPop)) && At(fn, p + 1, CodeT(e, p + 1, brk, cont))
    ensures LenL([Eval(e)]) == 1 + LenT(e)
  {
    hide At, Fetch, Encode, CodeT, LenT;
    assert CodeV([Eval(e)], p + 1, brk, cont) + [] == CodeT(e, p + 1, brk, cont);
    InstrIn(fn, p, Plain(OpPop), CodeT(e, p + 1, brk, cont));
  }

  // ---- the fragment ----

  lemma {:induction false} FourFrag(c: Cmd, d: Cmd, e: Cmd, f: Cmd)
    ensures FragB([c, d, e, f], false)
      == (FragC(c, false) && FragC(d, false) && FragC(e, false) && FragC(f, false))
    ensures SlotsB([c, d, e, f], 0, true)
         == (SlotsC(c, 0, true) && SlotsC(d, 0, true) && SlotsC(e, 0, true) && SlotsC(f, 0, true))
  {
    hide FragC, SlotsC;
    assert [c, d, e, f][1..] == [d, e, f];
    TwoFrag(e, f, 0, true, false);
    assert [d, e, f][1..] == [e, f];
  }

  lemma {:induction false} TwoFrag(e: Cmd, f: Cmd, n: nat, main: bool, lp: bool)
    ensures FragB([e, f], lp) == (FragC(e, lp) && FragC(f, lp))
    ensures SlotsB([e, f], n, main) == (SlotsC(e, n, main) && SlotsC(f, n, main))
  {
    hide FragC, SlotsC;
    assert [e, f][1..] == [f];
    OneFrag(f, n, main, lp);
  }

  lemma {:induction false} OneFrag(f: Cmd, n: nat, main: bool, lp: bool)
    ensures FragB([f], lp) == FragC(f, lp) && SlotsB([f], n, main) == SlotsC(f, n, main)
  {
    hide FragC, SlotsC;
    assert [f][1..] == [];
  }

  lemma {:induction false} TwiceFrag(g: nat, n: nat, main: bool, lp: bool)
    requires g < LIMIT
    ensures FragT(Twice(g), lp) && SlotsT(Twice(g), n, main)
  {
    TwoOperands(Get(Global(g)), Get(Global(g)), lp, []);
    TwoSlots(Get(Global(g)), n, main);
  }

  lemma {:induction false} TwoSlots(e: Term, n: nat, main: bool)
    ensures SlotsTs([e, e], n, main) == SlotsT(e, n, main)
  {
    hide SlotsT;
    assert [e, e][1..] == [e] && [e][1..] == [];
    assert SlotsTs([], n, main) && SlotsTs([e], n, main) == SlotsT(e, n, main);
  }

  // ---- a null before an assigned global ----

  /** `let a; let s = "..."; let b = s + s; while (true) { s + s; }` */
  function HoleProgram(a: string, s: string, b: string, text: string): seq<Ast.Stmt> {
    [Ast.Let(a, None), Ast.Let(s, Some(Ast.StringLit(text))), Ast.Let(b, Some(Doubled(s))),
     Ast.ExprStmt(Ast.While(Ast.BoolLit(true), [Ast.ExprStmt(Doubled(s))]))]
  }

  function HoleCore(text: string): seq<Cmd> {
    [Core.Define(Global(0), Null), Core.Define(Global(1), Const(0, StrLit(text))), Core.Define(Global(2), Twice(1)),
     Eval(Loop(Truth(true), [Eval(Twice(1))]))]
  }

  lemma {:induction false} LoopElab(t: bool, body: seq<Ast.Stmt>, s: Symbols, k: nat, c: seq<Cmd>, cs: seq<SValue>,
                                    s': Symbols)
    requires ElabB(body, s, k) == Good(c, s', cs)
    ensures ElabS(Ast.ExprStmt(Ast.While(Ast.BoolLit(t), body)), s, k) == Good([Eval(Loop(Truth(t), c))], s', cs)
  {
    hide ElabB;
    assert ElabE(Ast.BoolLit(t), s, k) == Good(Truth(t), s, []);
    assert [] + cs == cs;
  }

  lemma {:induction false} LetElab(name: string, e: Ast.Expr, s: Symbols, k: nat, x: Term, cs: seq<SValue>)
    requires var (s1, v) := Scopes.Define(s, name); ElabE(e, s1, k) == Good(x, s1, cs)
    ensures var (s1, v) := Scopes.Define(s, name);
            ElabS(Ast.Let(name, Some(e)), s, k) == Good([Core.Define(v, x)], s1, cs)
  {
    hide ElabE;
  }

  lemma {:induction false} HoleElab(a: string, s: string, b: string, text: string, s0: Symbols)
                                    returns (s3: Symbols)
    requires a !in s0.store && s !in s0.store && b !in s0.store && a != s && s != b && a != b
    requires s0.size == 0 && s0.outer == None
    ensures ElabB(HoleProgram(a, s, b, text), s0, 0) == Good(HoleCore(text), s3, [VStr(text)])
  {
    hide ElabE, ElabB, ElabS;
    var s1 := Scopes.Define(s0, a).0;
    var s2 := Scopes.Define(s1, s).0;
    s3 := Scopes.Define(s2, b).0;
    var lit := Ast.StringLit(text);
    NullElab(a, s0, 0);
    StringElab(text, s2);
    LetElab(s, lit, s1, 0, Const(0, StrLit(text)), [VStr(text)]);
    DoubledElab(s, s3, 1, 1);
    LetElab(b, Doubled(s), s2, 1, Twice(1), []);
    DoubledEval(s, s3, 1, 1);
    OneElab(Ast.ExprStmt(Doubled(s)), s3, 1, Eval(Twice(1)), s3, []);
    LoopElab(true, [Ast.ExprStmt(Doubled(s))], s3, 1, [Eval(Twice(1))], [], s3);
    FourElab(Ast.Let(a, None), Ast.Let(s, Some(lit)), Ast.Let(b, Some(Doubled(s))),
             Ast.ExprStmt(Ast.While(Ast.BoolLit(true), [Ast.ExprStmt(Doubled(s))])), s0,
             Core.Define(Global(0), Null), s1, [], Core.Define(Global(1), Const(0, StrLit(text))), s2, [VStr(text)],
             Core.Define(Global(2), Twice(1)), s3, [], Eval(Loop(Truth(true), [Eval(Twice(1))])), s3, []);
    var consts: seq<SValue> := [VStr(text)];
    assert [] + (consts + ([] + [])) == consts;
  }

  lemma {:induction false} NullElab(name: string, s: Symbols, k: nat)
    ensures var (s1, v) := Scopes.Define(s, name);
            ElabS(Ast.Let(name, None), s, k) == Good([Core.Define(v, Null)], s1, [])
  {
  }

  lemma {:induction false} StringElab(text: string, s: Symbols)
    ensures ElabE(Ast.StringLit(text), s, 0) == Good(Const(0, StrLit(text)), s, [VStr(text)])
  {
  }

  lemma {:induction false} DoubledEval(s: string, sym: Symbols, k: nat, g: nat)
    requires Resolve(sym, s) == Some(Global(g))
    ensures ElabS(Ast.ExprStmt(Doubled(s)), sym, k) == Good([Eval(Twice(g))], sym, [])
  {
    hide ElabE;
    DoubledElab(s, sym, k, g);
  }

  lemma {:induction false} LetNullIn(fn: Compiled, p: nat, g: nat)
    requires At(fn, p, CodeC(Core.Define(Global(g), Null), p, BRK, CONT)) && g < LIMIT
    ensures Fetch(fn.code, p) == Some(Plain(OpNull)) && Fetch(fn.code, p + 1) == Some(Instr(OpSetGlobal, g))
    ensures LenC(Core.Define(Global(g), Null)) == 4
  {
    hide At, Fetch, Encode, CodeC, LenC;
    DefineIn(fn, p, g, Null);
    AtFetch(fn, p, Plain(OpNull));
  }

  lemma {:induction false} LetConstIn(fn: Compiled, p: nat, g: nat, e: Term)
    requires At(fn, p, CodeC(Core.Define(Global(g), e), p, BRK, CONT)) && g < LIMIT
    requires (e.Const? || e.Lambda?) && e.k < LIMIT
    ensures Fetch(fn.code, p) == Some(Instr(OpConst, e.k)) && Fetch(fn.code, p + 3) == Some(Instr(OpSetGlobal, g))
    ensures LenC(Core.Define(Global(g), e)) == 6
  {
    hide At, Fetch, Encode, CodeC, LenC;
    DefineIn(fn, p, g, e);
    AtFetch(fn, p, Instr(OpConst, e.k));
  }

  lemma {:induction false} LetTwiceIn(fn: Compiled, p: nat, h: nat, g: nat)
    requires At(fn, p, CodeC(Core.Define(Global(h), Twice(g)), p, BRK, CONT)) && g < LIMIT && h < LIMIT
    ensures DoublesAt(fn.code, p, g) && Fetch(fn.code, p + 7) == Some(Instr(OpSetGlobal, h))
    ensures LenC(Core.Define(Global(h), Twice(g))) == 10
  {
    hide At, Fetch, Encode, CodeC, LenC, Twice, DoublesAt;
    DefineIn(fn, p, h, Twice(g));
    TwiceIn(fn, p, g, BRK, CONT);
    TwiceLen(g);
  }

  lemma {:induction false} HoleLoopIn(fn: Compiled, p: nat, g: nat)
    requires At(fn, p, CodeC(Eval(Loop(Truth(true), [Eval(Twice(g))])), p, BRK, CONT)) && g < LIMIT && p + 16 < LIMIT
    ensures Fetch(fn.code, p) == Some(Plain(OpNull)) && HoleLoopAt(fn.code, p + 1, g, p + 16)
    ensures LenC(Eval(Loop(Truth(true), [Eval(Twice(g))]))) == 17
  {
    hide At, Fetch, Encode, CodeC, CodeL, LenC, LenT, LenL, Twice, DoublesAt;
    var e := Twice(g);
    var body := [Eval(e)];
    TwiceLen(g);
    OneBody(e);
    LoopLen(true, body);
    EvalIn(fn, p, Loop(Truth(true), body), BRK, CONT);
    LoopIn(fn, p, true, body, BRK, CONT);
    BodyIn(fn, p + 5, e, p + 16, p + 1);
    TwiceIn(fn, p + 6, g, p + 16, p + 1);
  }

  lemma {:induction false} HoleIn(fn: Compiled, text: string)
    requires fn.code == CodeP(HoleCore(text))
    ensures HoleCode(fn.code) && |fn.code| == 38
  {
    hide Fetch, CodeP, CodeC, LenC, Twice, DoublesAt, HoleLoopAt;
    var lit, body := Const(0, StrLit(text)), [Eval(Twice(1))];
    FourIn(fn, Core.Define(Global(0), Null), Core.Define(Global(1), lit), Core.Define(Global(2), Twice(1)),
           Eval(Loop(Truth(true), body)));
    LetNullIn(fn, 0, 0);
    LetConstIn(fn, 4, 1, lit);
    LetTwiceIn(fn, 10, 2, 1);
    HoleLoopIn(fn, 20, 1);
  }

  lemma {:induction false} OneBody(e: Term)
    ensures LenL([Eval(e)]) == 1 + LenT(e)
  {
    hide LenT;
    var b := [Eval(e)];
    assert LenV(b) == LenCV(b[0]) == LenT(e) && EndsInEval(b);
  }

  lemma {:induction false} LoopLen(t: bool, body: seq<Cmd>)
    ensures LenT(Loop(Truth(t), body)) == 8 + LenL(body)
  {
    hide LenL;
  }

  lemma {:induction false} HoleFrag(text: string)
    requires |CodeP(HoleCore(text))| <= CODE_MAX
    ensures FragProgram(HoleCore(text)) && SlotsProgram(HoleCore(text), [VStr(text)])
  {
    hide CodeP, FragB, SlotsB, FragT, SlotsT, Twice;
    var lit, body := Const(0, StrLit(text)), [Eval(Twice(1))];
    FourFrag(Core.Define(Global(0), Null), Core.Define(Global(1), lit), Core.Define(Global(2), Twice(1)),
             Eval(Loop(Truth(true), body)));
    TwiceFrag(1, 0, true, false);
    TwiceFrag(1, 0, true, true);
    OneFrag(Eval(Twice(1)), 0, true, true);
    AtomFrag(text, true, body);
  }

  lemma {:induction false} AtomFrag(text: string, t: bool, body: seq<Cmd>)
    ensures FragT(Null, false) && SlotsT(Null, 0, true)
    ensures FragT(Const(0, StrLit(text)), false) && SlotsT(Const(0, StrLit(text)), 0, true)
    ensures FragT(Loop(Truth(t), body), false) == FragB(body, true)
    ensures forall n, main :: SlotsT(Loop(Truth(t), body), n, main) == SlotsB(body, n, main)
  {
    hide FragB, SlotsB;
  }

  /** Where a compiled program starts, to the collector and to the machine. */
  lemma {:induction false} LoadedFresh(v1: View, stack: seq<MValue>)
    requires |stack| == STACK_SIZE && Unreferring(stack) && |v1.pool| <= CONSTANTS_SIZE && NoArrays(v1.pool)
    ensures var m := Loaded(v1, stack);
            && Fresh(Pair(m, StartOf(m)), Frame(Compiled(v1.code, 0), 0, 0))
            && AllOld(StartOf(m).globals, StartOf(m).next) && m.constants == v1.pool
  {
    hide AllOld;
    VmStarts(Loaded(v1, stack));
    assert [] + [Frame(Compiled(v1.code, 0), 0, 0)] == [Frame(Compiled(v1.code, 0), 0, 0)];
  }

  /** Steps of the two together, as an execution with the collector's run beside it. */
  lemma {:induction false} SeenRun(m: State, c: Pair) returns (ms: seq<State>, run: seq<Move>)
    requires Shape(m) && m.heap == [] && Steady(m) && CollectedMachine.View(m, StartOf(m))
    requires Goes(Pair(m, StartOf(m)), c)
    ensures Execution(ms) && ms[0] == m && ms[|ms| - 1] == c.m && |ms| == |run| + 1
    ensures Beside(ms, StartOf(m), run) && Timely(StartOf(m), run)
    ensures StateAt(StartOf(m), run, |run|) == c.a && CollectedMachine.View(c.m, c.a)
  {
    hide Tick, Steady, Run, StartOf, Timely;
    var n: nat :| Runs.Steps(Tick, Pair(m, StartOf(m)), n, c);
    ms, run := InStep(Pair(m, StartOf(m)), n, c);
    ExecutionSeen(ms, StartOf(m), run, |run|);
  }

  /** An execution of what the compiler left, and its collector, which collects whenever that is due. */
  ghost predicate RunOf(v1: View, stack: seq<MValue>, ms: seq<State>, run: seq<Move>) {
    && |stack| == STACK_SIZE && |v1.pool| <= CONSTANTS_SIZE && Execution(ms) && ms[0] == Loaded(v1, stack)
    && Beside(ms, StartOf(ms[0]), run) && Timely(StartOf(ms[0]), run)
  }

  /** Three names for the program to use. */
  predicate FreeNames(a: string, s: string, b: string) {
    !IsBuiltinName(a) && !IsBuiltinName(s) && !IsBuiltinName(b) && a != s && s != b && a != b
  }

  /** What the compiler leaves for it. */
  lemma {:induction false} HoleCompiled(a: string, s: string, b: string, text: string, v0: View, v1: View,
                                        r: Elab<seq<Cmd>>)
    requires FreeNames(a, s, b) && v0.code == [] && v0.pool == [] && v0.symbols == Builtins()
    requires r == ElabB(HoleProgram(a, s, b, text), v0.symbols, 0) && ProgramDone(r, None, v0, v1)
    ensures r.Good? && FragProgram(r.x) && SlotsProgram(r.x, r.consts)
    ensures HoleCode(v1.code) && v1.pool == [VStr(text)]
  {
    hide ElabB, FragProgram, SlotsProgram, HoleCode, CodeP, Builtins, ShortB, FragB, OkB;
    FreeName(a);
    FreeName(s);
    FreeName(b);
    var s3 := HoleElab(a, s, b, text, v0.symbols);
    var fn := Compiled(CodeP(HoleCore(text)), 0);
    HoleIn(fn, text);
    HoleFrag(text);
    CompiledIsCode(HoleProgram(a, s, b, text), v0, v1, r);
    assert MapVs(Lower, r.consts) == [VStr(text)];
  }

  /**
   `let a; let s = "..."; let b = s + s; while (true) { s + s; }` is in the fragment,
   and its run comes to a collection that stops marking at the null in the first
   global and frees the string in the third, which is still in use.
   */
  lemma {:induction false} HoleRun(a: string, s: string, b: string, text: string, v0: View, v1: View,
                                   r: Elab<seq<Cmd>>, stack: seq<MValue>)
                                   returns (ms: seq<State>, run: seq<Move>)
    requires FreeNames(a, s, b) && v0.code == [] && v0.pool == [] && v0.symbols == Builtins()
    requires r == ElabB(HoleProgram(a, s, b, text), v0.symbols, 0) && ProgramDone(r, None, v0, v1)
    requires |stack| == STACK_SIZE && Unreferring(stack)
    ensures r.Good? && FragProgram(r.x) && SlotsProgram(r.x, r.consts) && RunOf(v1, stack, ms, run)
    ensures var m, c := ms[|ms| - 1], StateAt(StartOf(ms[0]), run, |run|);
            && CollectedMachine.View(m, c) && |m.globals| == |c.globals| == GLOBALS_SIZE
            && m.globals[2].VStr? && c.globals[2] in c.freed && !Live(m, c)
    ensures exists k :: 0 <= k < |run| && !Watched(StartOf(ms[0]), run, k)
  {
    hide ElabB, FragProgram, SlotsProgram, ProgramDone, HoleCode, StartOf, Steady, Goes, HoleProgram, Execution, Beside,
         Timely, Watched, Fresh, Builtins, Unreferring, NoArrays;
    HoleCompiled(a, s, b, text, v0, v1, r);
    PoolOf(v0, v1, r);
    LoadedFresh(v1, stack);
    UnreferringIsFlat(stack);
    CompiledStartsSteady(HoleProgram(a, s, b, text), v0, v1, r, stack);
    var m := Loaded(v1, stack);
    LoadedSeen(v1, stack);
    var c := HoleGoes(Pair(m, StartOf(m)), Frame(Compiled(v1.code, 0), 0, 0));
    ms, run := SeenRun(m, c);
    assert !Alive(c.a.globals[2], c.a.freed);
    CompiledExecutionSafeIff(HoleProgram(a, s, b, text), v0, v1, r, stack, ms, run);
  }

  lemma {:induction false} LoadedSeen(v1: View, stack: seq<MValue>)
    requires |stack| == STACK_SIZE && Unreferring(stack) && |v1.pool| <= CONSTANTS_SIZE && NoArrays(v1.pool)
    ensures var m := Loaded(v1, stack); Shape(m) && m.heap == [] && CollectedMachine.View(m, StartOf(m))
  {
    VmStarts(Loaded(v1, stack));
  }

  // ---- a stale slot ----

  /** `while (false) { let p; let q; }` */
  function IdleBody(p: string, q: string): seq<Ast.Stmt> {
    [Ast.ExprStmt(Ast.While(Ast.BoolLit(false), [Ast.Let(p, None), Ast.Let(q, None)]))]
  }

  /** `let s = "..."; let f = fn() { ... }; print(1, s + s); while (true) { s + s; f(); }` */
  function StaleProgram(s: string, f: string, p: string, q: string, text: string): seq<Ast.Stmt> {
    [Ast.Let(s, Some(Ast.StringLit(text))), Ast.Let(f, Some(Ast.Function([], IdleBody(p, q)))),
     Ast.ExprStmt(Ast.Call(Ast.Ident("print"), [Ast.IntLit(1), Doubled(s)])),
     Ast.ExprStmt(Ast.While(Ast.BoolLit(true), [Ast.ExprStmt(Doubled(s)), Ast.ExprStmt(Ast.Call(Ast.Ident(f), []))]))]
  }

  function TwoLets(): seq<Cmd> { [Core.Define(Local(0), Null), Core.Define(Local(1), Null)] }

  function Idle(): Fun { Fun(2, [Eval(Loop(Truth(false), TwoLets()))]) }

  function PrintBoth(): Term { Core.Call(Get(Builtin(0)), [Const(2, IntLit(1)), Twice(0)]) }

  function CallIt(): Term { Core.Call(Get(Global(1)), []) }

  function StaleBody(): seq<Cmd> { [Eval(Twice(0)), Eval(CallIt())] }

  function StaleCore(text: string): seq<Cmd> {
    [Core.Define(Global(0), Const(0, StrLit(text))), Core.Define(Global(1), Lambda(1, Idle())), Eval(PrintBoth()),
     Eval(Loop(Truth(true), StaleBody()))]
  }

  lemma {:induction false} IdleElab(p: string, q: string, s: Symbols, k: nat)
    requires p != q && s.outer == None && k < CONSTANTS_SIZE
    ensures ElabE(Ast.Function([], IdleBody(p, q)), s, k) == Good(Lambda(k, Idle()), s, [VFun(Idle())])
  {
    hide ElabB, ElabS, TwoLets;
    var s0 := Enclosed(s);
    var s1 := Scopes.Define(s0, p).0;
    var s2 := Scopes.Define(s1, q).0;
    var x := Ast.While(Ast.BoolLit(false), [Ast.Let(p, None), Ast.Let(q, None)]);
    NullElab(p, s0, k);
    NullElab(q, s1, k);
    TwoElab(Ast.Let(p, None), Ast.Let(q, None), s0, k, Core.Define(Local(0), Null), s1, [],
            Core.Define(Local(1), Null), s2, []);
    LetsTwo();
    LoopElab(false, [Ast.Let(p, None), Ast.Let(q, None)], s0, k, TwoLets(), [], s2);
    OneElab(Ast.ExprStmt(x), s0, k, Eval(Loop(Truth(false), TwoLets())), s2, []);
    FunctionElab(IdleBody(p, q), s, k, [Eval(Loop(Truth(false), TwoLets()))], s2);
  }

  lemma {:induction false} LetsTwo()
    ensures TwoLets() == [Core.Define(Local(0), Null), Core.Define(Local(1), Null)]
  {
  }

  lemma {:induction false} FunctionElab(b: seq<Ast.Stmt>, s: Symbols, k: nat, c: seq<Cmd>, s2: Symbols)
    requires s.outer == None && ElabB(b, Enclosed(s), k) == Good(c, s2, []) && k < CONSTANTS_SIZE
    ensures var f := Fun(s2.size, c);
            ElabE(Ast.Function([], b), s, k) == Good(Lambda(k, f), s, [VFun(f)])
  {
    hide ElabB;
    var f := Fun(s2.size, c);
    var cs: seq<SValue> := [];
    assert Levels(s) == 1 && cs + [VFun(f)] == [VFun(f)];
    assert DefineAll(Enclosed(s), []) == Enclosed(s);
    assert ElabBody([], b, s, k) == Good(c, s2, []);
  }

  lemma {:induction false} CallElab(name: string, v: Var, args: seq<Ast.Expr>, s: Symbols, k: nat, ts: seq<Term>,
                                    cs: seq<SValue>)
    requires Resolve(s, name) == Some(v) && ElabEs(args, s, k) == Good(ts, s, cs)
    ensures ElabS(Ast.ExprStmt(Ast.Call(Ast.Ident(name), args)), s, k) == Good([Eval(Core.Call(Get(v), ts))], s, cs)
  {
    hide ElabEs;
    assert ElabE(Ast.Ident(name), s, k) == Good(Get(v), s, []);
    assert [] + cs == cs;
  }

  lemma {:induction false} PrintElab(s: string, sym: Symbols)
    requires Resolve(sym, s) == Some(Global(0))
    ensures ElabEs([Ast.IntLit(1), Doubled(s)], sym, 2) == Good([Const(2, IntLit(1)), Twice(0)], sym, [VInt(1)])
  {
    hide ElabE, Twice;
    DoubledElab(s, sym, 3, 0);
    OneElabE(Doubled(s), sym, 3, Twice(0));
    IntElab(1, sym, 2);
    FirstElabE(Ast.IntLit(1), [Doubled(s)], sym, 2, Const(2, IntLit(1)), [VInt(1)], [Twice(0)]);
    assert [Ast.IntLit(1)] + [Doubled(s)] == [Ast.IntLit(1), Doubled(s)];
    assert [Const(2, IntLit(1))] + [Twice(0)] == [Const(2, IntLit(1)), Twice(0)];
  }

  lemma {:induction false} IntElab(n: int, s: Symbols, k: nat)
    requires k < CONSTANTS_SIZE
    ensures ElabE(Ast.IntLit(n), s, k) == Good(Const(k, IntLit(n)), s, [VInt(n)])
  {
  }

  lemma {:induction false} OneElabE(e: Ast.Expr, s: Symbols, k: nat, t: Term)
    requires ElabE(e, s, k) == Good(t, s, [])
    ensures ElabEs([e], s, k) == Good([t], s, [])
  {
    hide ElabE;
    assert [e][1..] == [] && ElabEs([], s, k) == Good([], s, []);
    assert [t] + [] == [t];
  }

  lemma {:induction false} FirstElabE(e: Ast.Expr, es: seq<Ast.Expr>, s: Symbols, k: nat, t: Term, cs: seq<SValue>,
                                      ts: seq<Term>)
    requires ElabE(e, s, k) == Good(t, s, cs) && ElabEs(es, s, k + |cs|) == Good(ts, s, [])
    ensures ElabEs([e] + es, s, k) == Good([t] + ts, s, cs)
  {
    hide ElabE;
    assert ([e] + es)[1..] == es && cs + [] == cs;
  }

  lemma {:induction false} StaleElab(s: string, f: string, p: string, q: string, text: string, s0: Symbols)
                                     returns (s2: Symbols)
    requires s !in s0.store && f !in s0.store && s != f && p != q && s0.size == 0 && s0.outer == None
    requires s != "print" && f != "print" && Resolve(s0, "print") == Some(Builtin(0))
    ensures ElabB(StaleProgram(s, f, p, q, text), s0, 0)
            == Good(StaleCore(text), s2, [VStr(text), VFun(Idle()), VInt(1)])
  {
    hide ElabE, ElabB, ElabS, ElabEs, Twice, IdleBody, Idle, TwoLets;
    var s1 := Scopes.Define(s0, s).0;
    s2 := Scopes.Define(s1, f).0;
    var lit, fun := Ast.StringLit(text), Ast.Function([], IdleBody(p, q));
    var show, call := Ast.Call(Ast.Ident("print"), [Ast.IntLit(1), Doubled(s)]), Ast.Call(Ast.Ident(f), []);
    var body := [Ast.ExprStmt(Doubled(s)), Ast.ExprStmt(call)];
    StringElab(text, s1);
    LetElab(s, lit, s0, 0, Const(0, StrLit(text)), [VStr(text)]);
    IdleElab(p, q, s2, 1);
    LetElab(f, fun, s1, 1, Lambda(1, Idle()), [VFun(Idle())]);
    PrintElab(s, s2);
    CallElab("print", Builtin(0), [Ast.IntLit(1), Doubled(s)], s2, 2, [Const(2, IntLit(1)), Twice(0)], [VInt(1)]);
    DoubledEval(s, s2, 3, 0);
    NoElab(s2, 3);
    CallElab(f, Global(1), [], s2, 3, [], []);
    TwoElab(Ast.ExprStmt(Doubled(s)), Ast.ExprStmt(call), s2, 3, Eval(Twice(0)), s2, [], Eval(CallIt()), s2, []);
    LoopElab(true, body, s2, 3, StaleBody(), [], s2);
    FourElab(Ast.Let(s, Some(lit)), Ast.Let(f, Some(fun)), Ast.ExprStmt(show),
             Ast.ExprStmt(Ast.While(Ast.BoolLit(true), body)), s0,
             Core.Define(Global(0), Const(0, StrLit(text))), s1, [VStr(text)],
             Core.Define(Global(1), Lambda(1, Idle())), s2, [VFun(Idle())],
             Eval(PrintBoth()), s2, [VInt(1)], Eval(Loop(Truth(true), StaleBody())), s2, []);
    var c1: seq<SValue>, c2: seq<SValue>, c3: seq<SValue> := [VStr(text)], [VFun(Idle())], [VInt(1)];
    assert c1 + (c2 + (c3 + [])) == [VStr(text), VFun(Idle()), VInt(1)];
  }

  lemma {:induction false} NoElab(s: Symbols, k: nat)
    ensures ElabEs([], s, k) == Good([], s, [])
  {
  }

  lemma {:induction false} TwoLetsLen()
    ensures LenL(TwoLets()) == 8
  {
    hide LenT;
    var b := TwoLets();
    assert b[1..] == [b[1]] && !EndsInEval(b);
    LetNullLen(0);
    LetNullLen(1);
    assert LenV(b) == LenC(b[0]) + LenV(b[1..]) && LenV(b[1..]) == LenCV(b[1]) == LenC(b[1]);
  }

  lemma {:induction false} LetNullLen(i: nat)
    ensures LenC(Core.Define(Local(i), Null)) == 3
  {
  }

  lemma {:induction false} IdleIn()
    ensures IdleCode(Lower(Idle()).code, 16) && |CodeF(Idle().body)| == 17 && Lower(Idle()).numLocals == 2
  {
    hide At, Fetch, Encode, CodeT, CodeL, LenT, LenL, TwoLets;
    var loop, fn := Loop(Truth(false), TwoLets()), Lower(Idle());
    var b := [Eval(loop)];
    TwoLetsLen();
    LoopLen(false, TwoLets());
    assert EndsInEval(b) && CodeV(b, 0, BRK, CONT) == CodeT(loop, 0, BRK, CONT);
    AtWhole(fn);
    AtCat(fn, 0, CodeT(loop, 0, BRK, CONT), Encode(Plain(OpReturnValue)));
    AtFetch(fn, 16, Plain(OpReturnValue));
    LoopIn(fn, 0, false, TwoLets(), BRK, CONT);
  }

  lemma {:induction false} PrintIn(fn: Compiled, p: nat)
    requires At(fn, p, CodeC(Eval(PrintBoth()), p, BRK, CONT))
    ensures Fetch(fn.code, p) == Some(Instr(OpGetBuiltin, 0)) && Fetch(fn.code, p + 2) == Some(Instr(OpConst, 2))
    ensures DoublesAt(fn.code, p + 5, 0) && Fetch(fn.code, p + 12) == Some(Instr(OpCall, 2))
    ensures Fetch(fn.code, p + 14) == Some(Plain(OpPop)) && LenC(Eval(PrintBoth())) == 15
  {
    hide At, Fetch, Encode, CodeC, CodeT, LenC, LenT, Twice, DoublesAt;
    var one, two := Const(2, IntLit(1)), Twice(0);
    TwiceLen(0);
    PrintCode(one, two, p);
    EvalIn(fn, p, PrintBoth(), BRK, CONT);
    InstrIn(fn, p, Instr(OpGetBuiltin, 0), Encode(Instr(OpConst, 2)) + CodeT(two, p + 5, BRK, CONT)
            + Encode(Instr(OpCall, 2)));
    AtCat(fn, p + 2, Encode(Instr(OpConst, 2)) + CodeT(two, p + 5, BRK, CONT), Encode(Instr(OpCall, 2)));
    InstrIn(fn, p + 2, Instr(OpConst, 2), CodeT(two, p + 5, BRK, CONT));
    AtFetch(fn, p + 12, Instr(OpCall, 2));
    TwiceIn(fn, p + 5, 0, BRK, CONT);
  }

  lemma {:induction false} PrintCode(one: Term, two: Term, p: nat)
    requires one.Const? && LenT(two) == 7
    ensures var t := Core.Call(Get(Builtin(0)), [one, two]);
            && LenT(t) == 14
            && CodeT(t, p, BRK, CONT) == Encode(Instr(OpGetBuiltin, 0))
               + (Encode(Instr(OpConst, one.k)) + CodeT(two, p + 5, BRK, CONT) + Encode(Instr(OpCall, 2)))
  {
    hide Encode;
    var ts := [one, two];
    assert ts[1..] == [two] && [two][1..] == [];
    assert CodeTs([], p + 12, BRK, CONT) == [] && LenTs([]) == 0;
    assert CodeTs([two], p + 5, BRK, CONT) == CodeT(two, p + 5, BRK, CONT) + [];
    assert LenTs([two]) == 7;
    assert CodeTs(ts, p + 2, BRK, CONT) == CodeT(one, p + 2, BRK, CONT) + CodeTs([two], p + 5, BRK, CONT);
  }

  lemma {:induction false} StaleBodyIn(fn: Compiled, p: nat, brk: nat, cont: nat)
    requires At(fn, p, CodeL(StaleBody(), p, brk, cont))
    ensures Fetch(fn.code, p) == Some(Plain(OpPop)) && DoublesAt(fn.code, p + 1, 0)
    ensures Fetch(fn.code, p + 8) == Some(Plain(OpPop)) && Fetch(fn.code, p + 9) == Some(Instr(OpGetGlobal, 1))
    ensures Fetch(fn.code, p + 12) == Some(Instr(OpCall, 0)) && LenL(StaleBody()) == 14
  {
    hide At, Fetch, Encode, CodeC, CodeT, LenC, LenT, Twice, CallIt, DoublesAt;
    var b, e, call := StaleBody(), Twice(0), CallIt();
    TwiceLen(0);
    CallItCode(p + 9, brk, cont);
    ValuePair(e, call, p + 1, brk, cont);
    assert EndsInEval(b);
    InstrIn(fn, p, Plain(OpPop), CodeV(b, p + 1, brk, cont) + []);
    AtCat(fn, p + 1, CodeV(b, p + 1, brk, cont), []);
    EvalLen(e);
    AtCat(fn, p + 1, CodeC(Eval(e), p + 1, brk, cont), CodeT(call, p + 9, brk, cont));
    EvalIn(fn, p + 1, e, brk, cont);
    TwiceIn(fn, p + 1, 0, brk, cont);
    InstrIn(fn, p + 9, Instr(OpGetGlobal, 1), Encode(Instr(OpCall, 0)));
    AtFetch(fn, p + 12, Instr(OpCall, 0));
  }

  lemma {:induction false} CallItCode(p: nat, brk: nat, cont: nat)
    ensures CodeT(CallIt(), p, brk, cont) == Encode(Instr(OpGetGlobal, 1)) + Encode(Instr(OpCall, 0))
    ensures LenT(CallIt()) == 5
  {
    hide Encode;
    assert CodeTs([], p + 3, brk, cont) == [] && LenTs([]) == 0;
    assert [] + Encode(Instr(OpCall, 0)) == Encode(Instr(OpCall, 0));
  }

  lemma {:induction false} EvalLen(e: Term)
    ensures LenC(Eval(e)) == LenT(e) + 1
  {
    hide LenT;
  }

  lemma {:induction false} ValuePair(e: Term, f: Term, p: nat, brk: nat, cont: nat)
    ensures var b := [Eval(e), Eval(f)];
            && LenV(b) == LenC(Eval(e)) + LenT(f) && EndsInEval(b)
            && CodeV(b, p, brk, cont) == CodeC(Eval(e), p, brk, cont) + CodeT(f, p + LenC(Eval(e)), brk, cont)
  {
    hide CodeC, LenC, CodeT, LenT;
    var b, c := [Eval(e), Eval(f)], [Eval(f)];
    assert b[1..] == c;
    assert LenV(c) == LenCV(c[0]) == LenT(f);
    assert CodeV(c, p + LenC(Eval(e)), brk, cont) == CodeT(f, p + LenC(Eval(e)), brk, cont);
  }

  lemma {:induction false} StaleLoopIn(fn: Compiled, p: nat)
    requires At(fn, p, CodeC(Eval(Loop(Truth(true), StaleBody())), p, BRK, CONT)) && p + 22 < LIMIT
    ensures Fetch(fn.code, p) == Some(Plain(OpNull)) && StaleLoopAt(fn.code, p + 1, p + 22)
    ensures LenC(Eval(Loop(Truth(true), StaleBody()))) == 23
  {
    hide At, Fetch, Encode, CodeC, CodeL, CodeT, LenC, LenT, LenL, StaleBody, DoublesAt;
    var loop, code := Loop(Truth(true), StaleBody()), CodeL(StaleBody(), p + 5, p + 22, p + 1);
    StaleBodyLen();
    LoopLen(true, StaleBody());
    EvalIn(fn, p, loop, BRK, CONT);
    LoopIn(fn, p, true, StaleBody(), BRK, CONT);
    StaleBodyIn(fn, p + 5, p + 22, p + 1);
  }

  lemma {:induction false} StaleBodyLen()
    ensures LenL(StaleBody()) == 14
  {
    hide LenC, LenT, Twice, CallIt;
    ValuePair(Twice(0), CallIt(), 0, 0, 0);
    TwiceLen(0);
    EvalLen(Twice(0));
    CallItCode(0, 0, 0);
  }

  lemma {:induction false} StaleIn(fn: Compiled, text: string)
    requires fn.code == CodeP(StaleCore(text))
    ensures StaleCode(fn.code) && |fn.code| == 51
  {
    hide Fetch, CodeP, CodeC, LenC, DoublesAt, StaleLoopAt, Idle, PrintBoth, StaleBody;
    var lit, loop := Const(0, StrLit(text)), Loop(Truth(true), StaleBody());
    FourIn(fn, Core.Define(Global(0), lit), Core.Define(Global(1), Lambda(1, Idle())), Eval(PrintBoth()), Eval(loop));
    LetConstIn(fn, 0, 0, lit);
    LetConstIn(fn, 6, 1, Lambda(1, Idle()));
    PrintIn(fn, 12);
    StaleLoopIn(fn, 27);
  }

  lemma {:induction false} IdleFrag()
    ensures FlatF(Idle()) && FragT(Lambda(1, Idle()), false) && SlotsT(Lambda(1, Idle()), 0, true)
  {
    hide FragB, SlotsB, CodeF, TwoLets;
    IdleIn();
    var loop := Loop(Truth(false), TwoLets());
    LetsFrag();
    AtomFrag("", false, TwoLets());
    OneFrag(Eval(loop), 2, false, false);
  }

  lemma {:induction false} LetsFrag()
    ensures FragB(TwoLets(), true) && SlotsB(TwoLets(), 2, false)
  {
    hide FragB, SlotsB, FragC, SlotsC;
    LetFrag(0, 2);
    LetFrag(1, 2);
    TwoFrag(Core.Define(Local(0), Null), Core.Define(Local(1), Null), 2, false, true);
  }

  lemma {:induction false} LetFrag(i: nat, n: nat)
    requires i < n <= 256
    ensures FragC(Core.Define(Local(i), Null), true) && SlotsC(Core.Define(Local(i), Null), n, false)
  {
  }

  lemma {:induction false} PrintFrag()
    ensures FragT(PrintBoth(), false) && SlotsT(PrintBoth(), 0, true)
  {
    hide FragTs, SlotsTs, Twice;
    var one, two := Const(2, IntLit(1)), Twice(0);
    TwiceFrag(0, 0, true, false);
    TwoOperands(one, two, false, []);
    TwoSlotsOf(one, two, 0, true);
  }

  lemma {:induction false} TwoSlotsOf(d: Term, e: Term, n: nat, main: bool)
    ensures SlotsTs([d, e], n, main) == (SlotsT(d, n, main) && SlotsT(e, n, main))
  {
    hide SlotsT;
    assert [d, e][1..] == [e] && [e][1..] == [];
    assert SlotsTs([], n, main) && SlotsTs([e], n, main) == SlotsT(e, n, main);
  }

  lemma {:induction false} StaleBodyFrag()
    ensures FragB(StaleBody(), true) && SlotsB(StaleBody(), 0, true)
  {
    hide FragB, SlotsB, Twice, FragTs, SlotsTs;
    TwiceFrag(0, 0, true, true);
    NoFrag();
    TwoFrag(Eval(Twice(0)), Eval(CallIt()), 0, true, true);
  }

  lemma {:induction false} NoFrag()
    ensures FragTs([], false) && SlotsTs([], 0, true)
  {
  }

  lemma {:induction false} StaleFrag(text: string)
    requires |CodeP(StaleCore(text))| <= CODE_MAX
    ensures FragProgram(StaleCore(text)) && SlotsProgram(StaleCore(text), [VStr(text), VFun(Idle()), VInt(1)])
  {
    hide CodeP, FragB, SlotsB, FragT, SlotsT, FlatF, Idle, PrintBoth, StaleBody;
    var lit := Const(0, StrLit(text));
    IdleFrag();
    PrintFrag();
    StaleBodyFrag();
    AtomFrag(text, true, StaleBody());
    FourFrag(Core.Define(Global(0), lit), Core.Define(Global(1), Lambda(1, Idle())), Eval(PrintBoth()),
             Eval(Loop(Truth(true), StaleBody())));
  }

  /** Names that are not builtins, and different ones in each scope. */
  predicate StaleNames(s: string, f: string, p: string, q: string) {
    !IsBuiltinName(s) && !IsBuiltinName(f) && s != f && p != q
  }

  lemma {:induction false} StaleCompiled(s: string, f: string, p: string, q: string, text: string, v0: View, v1: View,
                                         r: Elab<seq<Cmd>>)
    requires StaleNames(s, f, p, q) && v0.code == [] && v0.pool == [] && v0.symbols == Builtins()
    requires r == ElabB(StaleProgram(s, f, p, q, text), v0.symbols, 0) && ProgramDone(r, None, v0, v1)
    ensures r.Good? && FragProgram(r.x) && SlotsProgram(r.x, r.consts)
    ensures StaleCode(v1.code) && v1.pool == [VStr(text), VFun(Lower(Idle())), VInt(1)]
  {
    hide ElabB, FragProgram, SlotsProgram, StaleCode, CodeP, Builtins, ShortB, FragB, OkB, Idle, StaleProgram;
    FreeName(s);
    FreeName(f);
    PrintName();
    var s2 := StaleElab(s, f, p, q, text, v0.symbols);
    var fn := Compiled(CodeP(StaleCore(text)), 0);
    StaleIn(fn, text);
    StaleFrag(text);
    CompiledIsCode(StaleProgram(s, f, p, q, text), v0, v1, r);
    assert MapVs(Lower, r.consts) == [VStr(text), VFun(Lower(Idle())), VInt(1)];
  }

  /**
   `let s = "..."; let f = fn() { while (false) { let p; let q; } }; print(1, s + s); while (true) { s + s; f(); }`
   is in the fragment, and its run comes to a call of f that makes a local slot of
   what `print` left on the stack: a string freed by the collection before.
   */
  lemma {:induction false} StaleRun(s: string, f: string, p: string, q: string, text: string, v0: View, v1: View,
                                    r: Elab<seq<Cmd>>, stack: seq<MValue>)
                                    returns (ms: seq<State>, run: seq<Move>)
    requires StaleNames(s, f, p, q) && v0.code == [] && v0.pool == [] && v0.symbols == Builtins()
    requires r == ElabB(StaleProgram(s, f, p, q, text), v0.symbols, 0) && ProgramDone(r, None, v0, v1)
    requires |stack| == STACK_SIZE && Unreferring(stack)
    ensures r.Good? && FragProgram(r.x) && SlotsProgram(r.x, r.consts) && RunOf(v1, stack, ms, run)
    ensures var m, c := ms[|ms| - 1], StateAt(StartOf(ms[0]), run, |run|);
            && CollectedMachine.View(m, c) && m.sp == 3 && |c.stack| == STACK_SIZE
            && c.stack[2] in c.freed && !Live(m, c)
    ensures exists k :: 0 <= k < |run| && !Watched(StartOf(ms[0]), run, k)
  {
    hide ElabB, FragProgram, SlotsProgram, ProgramDone, StaleCode, StartOf, Steady, Goes, StaleProgram, Execution,
         Beside, Timely, Watched, Fresh, Builtins, Unreferring, NoArrays, Idle, IdleCode, AllOld;
    StaleCompiled(s, f, p, q, text, v0, v1, r);
    PoolOf(v0, v1, r);
    LoadedFresh(v1, stack);
    UnreferringIsFlat(stack);
    CompiledStartsSteady(StaleProgram(s, f, p, q, text), v0, v1, r, stack);
    var m := Loaded(v1, stack);
    LoadedSeen(v1, stack);
    IdleIn();
    var c := StaleGoes(Pair(m, StartOf(m)), Frame(Compiled(v1.code, 0), 0, 0), Lower(Idle()), 16);
    ms, run := SeenRun(m, c);
    assert !Alive(c.a.stack[2], c.a.freed);
    CompiledExecutionSafeIff(StaleProgram(s, f, p, q, text), v0, v1, r, stack, ms, run);
  }
}
