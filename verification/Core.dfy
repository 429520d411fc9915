/**
 The tree the compiler works on once names are resolved: variables are slots,
 literals know their index in the constant pool, an absent `else`, slice bound
 or initial value is an explicit null, and a statement that compiles to no code
 (a bare `return;`, an absent `for` clause) is gone.
 */
module Core {
  import opened Wrappers
  import opened Opcodes

  datatype Var = Global(i: nat) | Local(i: nat) | Builtin(i: nat)

  datatype Lit = IntLit(n: int) | StrLit(s: string)

  /** Operators, indexing, slicing and array literals: operands first, then one instruction. */
  type PrimOp = op: Opcode | IsOperator(op) witness OpAdd

  /** The operators of `x++` and `x--`. */
  type StepOp = op: Opcode | op == OpAdd || op == OpSubtract witness OpAdd

  datatype Term =
    | Const(k: nat, lit: Lit)
    | Lambda(k: nat, fun: Fun)
    | Null
    | Truth(b: bool)
    | Get(v: Var)
    | Prim(op: PrimOp, args: seq<Term>)
    | Bump(step: StepOp, v: Var, k: nat)
    | Put(v: Var, value: Term)
    | Cond(test: Term, conseq: seq<Cmd>, alt: seq<Cmd>)
    | Loop(test: Term, body: seq<Cmd>)
    | ForLoop(init: seq<Cmd>, until: Option<Term>, inc: seq<Cmd>, body: seq<Cmd>)
    | Call(callee: Term, args: seq<Term>)

  datatype Cmd =
    | Define(v: Var, value: Term)
    | Return(value: Term)
    | Eval(e: Term)
    | Break
    | Continue

  datatype Fun = Fun(numLocals: nat, body: seq<Cmd>)

  predicate EndsInEval(b: seq<Cmd>) {
    b != [] && b[|b| - 1].Eval?
  }

  predicate EndsInReturn(b: seq<Cmd>) {
    b != [] && b[|b| - 1].Return?
  }
}

/**
 What the finished bytecode of a term is, with every jump target in place: the
 specification of the one-pass compiler (src/compiler.c:202-693). Positions are
 byte offsets. `brk` and `cont` are the targets of a `break` or `continue` that
 belongs to a loop outside the term; while the compiler is still inside that
 loop they are the two placeholders.
 */
module Codegen {
  import opened Opcodes
  import opened Core

  const JUMP_PLACEHOLDER_BREAK: nat := 9999
  const JUMP_PLACEHOLDER_CONTINUE: nat := 9998

  function GetOp(v: Var): Instr {
    match v
    case Global(i) => Instr(OpGetGlobal, i)
    case Local(i) => Instr(OpGetLocal, i)
    case Builtin(i) => Instr(OpGetBuiltin, i)
  }

  /** A name that is not global is stored through OPCODE_SET_LOCAL, builtins included. */
  function SetOp(v: Var): Instr {
    match v
    case Global(i) => Instr(OpSetGlobal, i)
    case Local(i) => Instr(OpSetLocal, i)
    case Builtin(i) => Instr(OpSetLocal, i)
  }

  function Operator(op: PrimOp, n: nat): Instr { Instr(op, if op == OpArray then n else 0) }

  // ---- lengths in bytes ----

  function LenT(t: Term): nat
    decreases t, 0
  {
    match t
    case Const(_, _) => 3
    case Lambda(_, _) => 3
    case Null => 1
    case Truth(_) => 1
    case Get(v) => Size(GetOp(v))
    case Prim(op, args) => LenTs(args) + 1 + Width(op)
    case Bump(_, v, _) => 2 * Size(GetOp(v)) + 4 + Size(SetOp(v))
    case Put(v, e) => LenT(e) + Size(SetOp(v)) + Size(GetOp(v))
    case Cond(c, x, y) => LenT(c) + 3 + LenV(x) + 3 + LenV(y)
    case Loop(c, body) => 1 + LenT(c) + 3 + LenL(body) + 3
    case ForLoop(init, until, inc, body) =>
      1 + LenB(init) + (match until case None => 0 case Some(c) => LenT(c) + 3)
      + LenL(body) + LenB(inc) + 3
    case Call(f, args) => LenT(f) + LenTs(args) + 2
  }

  function LenTs(ts: seq<Term>): nat
    decreases ts, 0
  {
    if ts == [] then 0 else LenT(ts[0]) + LenTs(ts[1..])
  }

  function LenC(c: Cmd): (n: nat)
    ensures c.Eval? ==> n >= 1
    decreases c, 0
  {
    match c
    case Define(v, e) => LenT(e) + Size(SetOp(v))
    case Return(e) => LenT(e) + 1
    case Eval(e) => LenT(e) + 1
    case Break => 4
    case Continue => 4
  }

  function LenB(b: seq<Cmd>): nat
    decreases b, 0
  {
    if b == [] then 0 else LenC(b[0]) + LenB(b[1..])
  }

  /** A command in value position: an expression statement without its POP. */
  function LenCV(c: Cmd): nat
    decreases c, 1
  {
    if c.Eval? then LenT(c.e) else LenC(c)
  }

  /** A block in value position: its last command is. */
  function LenV(b: seq<Cmd>): nat
    decreases b, 0
  {
    if b == [] then 0
    else if |b| == 1 then LenCV(b[0])
    else LenC(b[0]) + LenV(b[1..])
  }

  /** A loop body with the POP in front of it and the value it leaves. */
  function LenL(b: seq<Cmd>): nat
    decreases b, 1
  {
    if b == [] then 0 else 1 + LenV(b) + (if EndsInEval(b) then 0 else 1)
  }

  // ---- code ----

  function CodeT(t: Term, p: nat, brk: nat, cont: nat): (code: seq<byte>)
    ensures |code| == LenT(t)
    decreases t, 1
  {
    match t
    case Const(k, _) => Encode(Instr(OpConst, k))
    case Lambda(k, _) => Encode(Instr(OpConst, k))
    case Null => Encode(Plain(OpNull))
    case Truth(b) => Encode(Plain(if b then OpTrue else OpFalse))
    case Get(v) => Encode(GetOp(v))
    case Prim(op, args) => CodeTs(args, p, brk, cont) + Encode(Operator(op, |args|))
    case Bump(step, v, k) =>
      Encode(GetOp(v)) + (Encode(GetOp(v)) + (Encode(Instr(OpConst, k)) + (Encode(Plain(step)) + Encode(SetOp(v)))))
    case Put(v, e) => CodeT(e, p, brk, cont) + (Encode(SetOp(v)) + Encode(GetOp(v)))
    case Cond(_, _, _) => CodeCond(t, p, brk, cont)
    case Loop(_, _) => CodeLoop(t, p, brk, cont)
    case ForLoop(_, _, _, _) => CodeFor(t, p, brk, cont)
    case Call(f, args) =>
      CodeT(f, p, brk, cont) + (CodeTs(args, p + LenT(f), brk, cont) + Encode(Instr(OpCall, |args|)))
  }

  function CodeCond(t: Term, p: nat, brk: nat, cont: nat): (code: seq<byte>)
    requires t.Cond?
    ensures |code| == LenT(t)
    decreases t, 0
  {
    var Cond(c, x, y) := t;
    var conseq := p + LenT(c) + 3;
    var alt := conseq + LenV(x) + 3;
    CodeT(c, p, brk, cont)
    + (Encode(Instr(OpJumpNotTrue, alt))
    + (CodeV(x, conseq, brk, cont)
    + (Encode(Instr(OpJump, alt + LenV(y)))
    + CodeV(y, alt, brk, cont))))
  }

  function CodeLoop(t: Term, p: nat, brk: nat, cont: nat): (code: seq<byte>)
    requires t.Loop?
    ensures |code| == LenT(t)
    decreases t, 0
  {
    var Loop(c, body) := t;
    var before := p + 1;
    var start := before + LenT(c) + 3;
    var after := start + LenL(body) + 3;
    Encode(Plain(OpNull))
    + (CodeT(c, before, brk, cont)
    + (Encode(Instr(OpJumpNotTrue, after))
    + (CodeL(body, start, after, before)
    + Encode(Instr(OpJump, before)))))
  }

  function CodeFor(t: Term, p: nat, brk: nat, cont: nat): (code: seq<byte>)
    requires t.ForLoop?
    ensures |code| == LenT(t)
    decreases t, 0
  {
    var ForLoop(init, until, inc, body) := t;
    var before := p + 1 + LenB(init);
    var start := before + (match until case None => 0 case Some(c) => LenT(c) + 3);
    var next := start + LenL(body);
    var after := next + LenB(inc) + 3;
    Encode(Plain(OpNull))
    + (CodeB(init, p + 1, brk, cont)
    + ((match until
        case None => []
        case Some(c) => CodeT(c, before, brk, cont) + Encode(Instr(OpJumpNotTrue, after)))
    + (CodeL(body, start, after, next)
    + (CodeB(inc, next, brk, cont)
    + Encode(Instr(OpJump, before))))))
  }

  function CodeTs(ts: seq<Term>, p: nat, brk: nat, cont: nat): (code: seq<byte>)
    ensures |code| == LenTs(ts)
    decreases ts, 0
  {
    if ts == [] then []
    else CodeT(ts[0], p, brk, cont) + CodeTs(ts[1..], p + LenT(ts[0]), brk, cont)
  }

  /** `break` and `continue` leave a null for the value of the loop. */
  function CodeC(c: Cmd, p: nat, brk: nat, cont: nat): (code: seq<byte>)
    ensures |code| == LenC(c)
    decreases c, 0
  {
    match c
    case Define(v, e) => CodeT(e, p, brk, cont) + Encode(SetOp(v))
    case Return(e) => CodeT(e, p, brk, cont) + Encode(Plain(OpReturnValue))
    case Eval(e) => CodeT(e, p, brk, cont) + Encode(Plain(OpPop))
    case Break => Encode(Plain(OpNull)) + Encode(Instr(OpJump, brk))
    case Continue => Encode(Plain(OpNull)) + Encode(Instr(OpJump, cont))
  }

  function CodeCV(c: Cmd, p: nat, brk: nat, cont: nat): (code: seq<byte>)
    ensures |code| == LenCV(c)
    decreases c, 1
  {
    if c.Eval? then CodeT(c.e, p, brk, cont) else CodeC(c, p, brk, cont)
  }

  function CodeB(b: seq<Cmd>, p: nat, brk: nat, cont: nat): (code: seq<byte>)
    ensures |code| == LenB(b)
    decreases b, 0
  {
    if b == [] then []
    else CodeC(b[0], p, brk, cont) + CodeB(b[1..], p + LenC(b[0]), brk, cont)
  }

  function CodeV(b: seq<Cmd>, p: nat, brk: nat, cont: nat): (code: seq<byte>)
    ensures |code| == LenV(b)
    decreases b, 0
  {
    if b == [] then []
    else if |b| == 1 then CodeCV(b[0], p, brk, cont)
    else CodeC(b[0], p, brk, cont) + CodeV(b[1..], p + LenC(b[0]), brk, cont)
  }

  /** The POP drops what the previous round left; an empty body leaves that in place. */
  function CodeL(b: seq<Cmd>, p: nat, brk: nat, cont: nat): (code: seq<byte>)
    ensures |code| == LenL(b)
    decreases b, 1
  {
    if b == [] then []
    else Encode(Plain(OpPop))
         + (CodeV(b, p + 1, brk, cont) + (if EndsInEval(b) then [] else Encode(Plain(OpNull))))
  }

  /** A function body returns its last expression statement, or null. */
  function CodeF(b: seq<Cmd>): (code: seq<byte>) {
    CodeV(b, 0, JUMP_PLACEHOLDER_BREAK, JUMP_PLACEHOLDER_CONTINUE)
    + (if EndsInEval(b) then Encode(Plain(OpReturnValue))
       else if EndsInReturn(b) then []
       else Encode(Plain(OpReturn)))
  }

  /** A whole program ends in HALT. */
  function CodeP(b: seq<Cmd>): (code: seq<byte>) {
    CodeB(b, 0, JUMP_PLACEHOLDER_BREAK, JUMP_PLACEHOLDER_CONTINUE) + Encode(Plain(OpHalt))
  }

  lemma {:induction false} LastIsValueThenPop(c: Cmd, p: nat, brk: nat, cont: nat)
    ensures CodeC(c, p, brk, cont) == CodeCV(c, p, brk, cont) + (if c.Eval? then Encode(Plain(OpPop)) else [])
  {
    hide CodeT, Encode;
    if !c.Eval? {
      assert CodeC(c, p, brk, cont) == CodeC(c, p, brk, cont) + [];
    }
  }

  lemma {:induction false} CodeBFirst(b: seq<Cmd>, p: nat, brk: nat, cont: nat)
    requires b != []
    ensures CodeB(b, p, brk, cont) == CodeC(b[0], p, brk, cont) + CodeB(b[1..], p + LenC(b[0]), brk, cont)
  {
  }

  lemma {:induction false} CodeVFirst(b: seq<Cmd>, p: nat, brk: nat, cont: nat)
    requires |b| > 1
    ensures CodeV(b, p, brk, cont) == CodeC(b[0], p, brk, cont) + CodeV(b[1..], p + LenC(b[0]), brk, cont)
  {
  }

  lemma {:induction false} OneCommand(b: seq<Cmd>, p: nat, brk: nat, cont: nat)
    requires |b| == 1
    ensures CodeB(b, p, brk, cont) == CodeC(b[0], p, brk, cont) && CodeV(b, p, brk, cont) == CodeCV(b[0], p, brk, cont)
  {
    hide CodeC, CodeCV;
    var only := CodeC(b[0], p, brk, cont);
    NoCode(b[1..], p + LenC(b[0]), brk, cont);
    assert only + [] == only;
  }

  /** A block is its value form followed by the POP that the value form drops. */
  lemma {:induction false} BlockIsValueThenPop(b: seq<Cmd>, p: nat, brk: nat, cont: nat)
    ensures CodeB(b, p, brk, cont)
         == CodeV(b, p, brk, cont) + (if EndsInEval(b) then Encode(Plain(OpPop)) else [])
    decreases |b|
  {
    hide CodeB, CodeV, CodeC, CodeCV, LenC, Encode;
    var pop := if EndsInEval(b) then Encode(Plain(OpPop)) else [];
    if |b| > 1 {
      var rest, q := b[1..], p + LenC(b[0]);
      BlockIsValueThenPop(rest, q, brk, cont);
      assert EndsInEval(b) == EndsInEval(rest);
      CodeBFirst(b, p, brk, cont);
      CodeVFirst(b, p, brk, cont);
      Reassociate(CodeC(b[0], p, brk, cont), CodeV(rest, q, brk, cont), pop);
    } else if |b| == 1 {
      LastIsValueThenPop(b[0], p, brk, cont);
      OneCommand(b, p, brk, cont);
    } else {
      NoCode(b, p, brk, cont);
    }
  }

  lemma {:induction false} NoCode(b: seq<Cmd>, p: nat, brk: nat, cont: nat)
    requires b == []
    ensures CodeB(b, p, brk, cont) == [] && CodeV(b, p, brk, cont) == []
  {
  }

  lemma {:induction false} Reassociate(a: seq<byte>, b: seq<byte>, c: seq<byte>)
    ensures a + (b + c) == (a + b) + c
  {
  }
}
