/** The induction behind compiler correctness, and the theorems it gives. */
module Correctness {
  import opened Wrappers
  import opened Opcodes
  import opened Core
  import opened Codegen
  import opened Objects
  import opened Naturality
  import opened Semantics
  import opened Machine
  import opened Simulation
  import opened InstructionSteps
  import Runs

  /** The budgets of the semantics: what is left of the stack and of the frames. */
  function Room(m: State): int { STACK_SIZE - m.sp }

  function Depth(c: Place): nat {
    if |c.below| < FRAMES_SIZE then FRAMES_SIZE - 1 - |c.below| else 0
  }

  /** What a normal end says. */
  lemma {:induction false} Normally(v: SValue, st1: Store, st: Store, m: State, m1: State, q: nat, c: Place, k: nat)
    requires Done(Normal(v, st1), st, m, m1, q, c, k)
    ensures After(st, m, st1, m1, q, c, k) && Rel(m1, st1, q, c) && Rel(m1, st1, q, Inner(c)) && GoodV(v, c.pool)
    ensures m1.sp == m.sp + k && m1.sp <= STACK_SIZE
    ensures k > 0 ==> m1.stack[m.sp] == LowV(v)
  {
  }

  lemma {:induction false} Following(st: Store, m: State, st1: Store, m1: State, q: nat, c: Place, k: nat)
    requires After(st, m, st1, m1, q, c, k)
    ensures Rel(m1, st1, q, c) && m1.sp == m.sp + k
  {
  }

  lemma {:induction false} NormalDone(v: SValue, st1: Store, st: Store, m: State, m1: State, q: nat, c: Place, k: nat)
    requires After(st, m, st1, m1, q, c, k) && GoodV(v, c.pool)
    requires k > 0 ==> m1.stack[m.sp] == LowV(v)
    ensures Done(Normal(v, st1), st, m, m1, q, c, k)
  {
  }

  // ---- one level of the definitions, construct by construct ----

  lemma {:induction false} OpenPrim(t: Term, st: Store, fuel: nat, m: State, p: nat, c: Place, r: Answer)
    requires t.Prim?
    requires Rel(m, st, p, c) && At(c.fn, p, CodeT(t, p, c.brk, c.cont)) && OkT(t, c.lp, c.pool)
    requires r == EvalT(t, st, Room(m), Depth(c), fuel) && r != Failed
    ensures At(c.fn, p, CodeTs(t.args, p, c.brk, c.cont)) && OkTs(t.args, c.lp, c.pool)
    ensures Fetch(c.fn.code, p + LenTs(t.args)) == Some(Operator(t.op, |t.args|))
    ensures |t.args| == Arity(t.op, |t.args|) && LenT(t) == LenTs(t.args) + 1 + Width(t.op)
    ensures r == (match EvalTs(t.args, st, Room(m), Depth(c), fuel)
                  case Stopped(a) => a
                  case Values(vs, st1) => Apply(Primitive(t.op, st1.heap, vs), st1, Room(m)))
  {
    hide Fetch, At, Encode, Rel, CodeTs, LenTs, OkTs, EvalTs, EvalLoop, EvalB, EvalCall, Primitive, Apply;
    var q := p + LenTs(t.args);
    AtCat(c.fn, p, CodeTs(t.args, p, c.brk, c.cont), Encode(Operator(t.op, |t.args|)));
    AtFetch(c.fn, q, Operator(t.op, |t.args|));
  }

  lemma {:induction false} OpenPut(t: Term, st: Store, fuel: nat, m: State, p: nat, c: Place, r: Answer)
    requires t.Put?
    requires Rel(m, st, p, c) && At(c.fn, p, CodeT(t, p, c.brk, c.cont)) && OkT(t, c.lp, c.pool)
    requires r == EvalT(t, st, Room(m), Depth(c), fuel) && r != Failed
    ensures At(c.fn, p, CodeT(t.value, p, c.brk, c.cont)) && OkT(t.value, c.lp, c.pool)
    ensures Fetch(c.fn.code, p + LenT(t.value)) == Some(SetOp(t.v))
    ensures Fetch(c.fn.code, p + LenT(t.value) + Size(SetOp(t.v))) == Some(GetOp(t.v))
    ensures LenT(t) == LenT(t.value) + Size(SetOp(t.v)) + Size(GetOp(t.v))
    ensures var a := EvalT(t.value, st, Room(m), Depth(c), fuel);
            if !a.Normal? then r == a
            else Save(t.v, a.v, a.st).Some? && var st2 := Save(t.v, a.v, a.st).value;
                 Load(t.v, st2).Some? && r == Normal(Load(t.v, st2).value, st2)
  {
    hide Fetch, At, Encode, Rel, EvalLoop, EvalB, EvalCall;
    var q := p + LenT(t.value);
    AtCat(c.fn, p, CodeT(t.value, p, c.brk, c.cont), Encode(SetOp(t.v)) + Encode(GetOp(t.v)));
    AtCat(c.fn, q, Encode(SetOp(t.v)), Encode(GetOp(t.v)));
    AtFetch(c.fn, q, SetOp(t.v));
    AtFetch(c.fn, q + Size(SetOp(t.v)), GetOp(t.v));
  }

  lemma {:induction false} OpenBump(t: Term, st: Store, fuel: nat, m: State, p: nat, c: Place, r: Answer)
    requires t.Bump?
    requires Rel(m, st, p, c) && At(c.fn, p, CodeT(t, p, c.brk, c.cont)) && OkT(t, c.lp, c.pool)
    requires r == EvalT(t, st, Room(m), Depth(c), fuel) && r != Failed
    ensures var n := Size(GetOp(t.v));
            && Fetch(c.fn.code, p) == Some(GetOp(t.v)) && Fetch(c.fn.code, p + n) == Some(GetOp(t.v))
            && Fetch(c.fn.code, p + 2 * n) == Some(Instr(OpConst, t.k))
            && Fetch(c.fn.code, p + 2 * n + 3) == Some(Plain(t.step))
            && Fetch(c.fn.code, p + 2 * n + 4) == Some(SetOp(t.v))
            && LenT(t) == 2 * n + 4 + Size(SetOp(t.v))
    ensures t.k < |c.pool| && c.pool[t.k] == VInt(1) && Room(m) >= 3
    ensures Load(t.v, st).Some? && Primitive(t.step, st.heap, [Load(t.v, st).value, VInt(1)]).Some?
    ensures var x := Load(t.v, st).value;
            var (h, y) := Primitive(t.step, st.heap, [x, VInt(1)]).value;
            Save(t.v, y, st.(heap := h)).Some? && r == Normal(x, Save(t.v, y, st.(heap := h)).value)
  {
    BumpCode(t, p, c);
  }

  lemma {:induction false} OpenCond(t: Term, st: Store, fuel: nat, m: State, p: nat, c: Place, r: Answer)
    requires t.Cond?
    requires Rel(m, st, p, c) && At(c.fn, p, CodeT(t, p, c.brk, c.cont)) && OkT(t, c.lp, c.pool)
    requires r == EvalT(t, st, Room(m), Depth(c), fuel) && r != Failed
    ensures At(c.fn, p, CodeT(t.test, p, c.brk, c.cont)) && OkT(t.test, c.lp, c.pool)
    ensures OkBranch(t.conseq, c.lp, c.pool) && OkBranch(t.alt, c.lp, c.pool)
    ensures OkB(t.conseq, c.lp, c.pool) && OkB(t.alt, c.lp, c.pool)
    ensures var conseq := p + LenT(t.test) + 3;
            var alt := conseq + LenV(t.conseq) + 3;
            && Fetch(c.fn.code, conseq - 3) == Some(Instr(OpJumpNotTrue, alt))
            && At(c.fn, conseq, CodeV(t.conseq, conseq, c.brk, c.cont))
            && Fetch(c.fn.code, alt - 3) == Some(Instr(OpJump, alt + LenV(t.alt)))
            && At(c.fn, alt, CodeV(t.alt, alt, c.brk, c.cont))
            && p + LenT(t) == alt + LenV(t.alt)
    ensures var a := EvalT(t.test, st, Room(m), Depth(c), fuel);
            r == if a.Normal? then EvalB(if Truthy(a.v) then t.conseq else t.alt, a.st, Room(m), Depth(c), fuel) else a
    ensures t.conseq != [] && !t.conseq[|t.conseq| - 1].Define? && t.alt != [] && !t.alt[|t.alt| - 1].Define?
  {
    CondCode(t, p, c);
  }

  lemma {:induction false} BumpCode(t: Term, p: nat, c: Place)
    requires t.Bump? && At(c.fn, p, CodeT(t, p, c.brk, c.cont)) && FitsVar(t.v) && t.k < LIMIT
    ensures var n := Size(GetOp(t.v));
            && Fetch(c.fn.code, p) == Some(GetOp(t.v)) && Fetch(c.fn.code, p + n) == Some(GetOp(t.v))
            && Fetch(c.fn.code, p + 2 * n) == Some(Instr(OpConst, t.k))
            && Fetch(c.fn.code, p + 2 * n + 3) == Some(Plain(t.step))
            && Fetch(c.fn.code, p + 2 * n + 4) == Some(SetOp(t.v))
  {
    hide Fetch, Encode, At;
    var n := Size(GetOp(t.v));
    var load, add, save := Encode(GetOp(t.v)), Encode(Plain(t.step)), Encode(SetOp(t.v));
    var one := Encode(Instr(OpConst, t.k));
    AtCat(c.fn, p, load, load + (one + (add + save)));
    AtCat(c.fn, p + n, load, one + (add + save));
    AtCat(c.fn, p + 2 * n, one, add + save);
    AtCat(c.fn, p + 2 * n + 3, add, save);
    AtFetch(c.fn, p, GetOp(t.v));
    AtFetch(c.fn, p + n, GetOp(t.v));
    AtFetch(c.fn, p + 2 * n, Instr(OpConst, t.k));
    AtFetch(c.fn, p + 2 * n + 3, Plain(t.step));
    AtFetch(c.fn, p + 2 * n + 4, SetOp(t.v));
  }

  lemma {:induction false} CondCode(t: Term, p: nat, c: Place)
    requires t.Cond? && Limits(c) && At(c.fn, p, CodeT(t, p, c.brk, c.cont))
    ensures At(c.fn, p, CodeT(t.test, p, c.brk, c.cont))
    ensures var conseq := p + LenT(t.test) + 3;
            var alt := conseq + LenV(t.conseq) + 3;
            && Fetch(c.fn.code, conseq - 3) == Some(Instr(OpJumpNotTrue, alt))
            && At(c.fn, conseq, CodeV(t.conseq, conseq, c.brk, c.cont))
            && Fetch(c.fn.code, alt - 3) == Some(Instr(OpJump, alt + LenV(t.alt)))
            && At(c.fn, alt, CodeV(t.alt, alt, c.brk, c.cont))
            && p + LenT(t) == alt + LenV(t.alt)
  {
    hide Fetch, Encode, At, CodeV, CodeB, CodeC, CodeTs, CodeLoop, CodeFor, LenV, LenB, LenC, LenTs, LenL;
    AtBound(c.fn, p, CodeT(t, p, c.brk, c.cont));
    var conseq := p + LenT(t.test) + 3;
    var alt := conseq + LenV(t.conseq) + 3;
    var x, y := CodeV(t.conseq, conseq, c.brk, c.cont), CodeV(t.alt, alt, c.brk, c.cont);
    var test, over := Instr(OpJumpNotTrue, alt), Instr(OpJump, alt + LenV(t.alt));
    AtCat(c.fn, p, CodeT(t.test, p, c.brk, c.cont), Encode(test) + (x + (Encode(over) + y)));
    AtCat(c.fn, conseq - 3, Encode(test), x + (Encode(over) + y));
    AtCat(c.fn, conseq, x, Encode(over) + y);
    AtCat(c.fn, alt - 3, Encode(over), y);
    AtFetch(c.fn, conseq - 3, test);
    AtFetch(c.fn, alt - 3, over);
  }

  lemma {:induction false} OpenDefine(x: Cmd, st: Store, fuel: nat, m: State, p: nat, c: Place, r: Answer)
    requires x.Define?
    requires Rel(m, st, p, c) && At(c.fn, p, CodeC(x, p, c.brk, c.cont)) && OkC(x, c.lp, c.pool)
    requires r == EvalC(x, st, Room(m), Depth(c), fuel) && r != Failed
    ensures At(c.fn, p, CodeT(x.value, p, c.brk, c.cont)) && OkT(x.value, c.lp, c.pool)
    ensures Fetch(c.fn.code, p + LenT(x.value)) == Some(SetOp(x.v)) && LenC(x) == LenT(x.value) + Size(SetOp(x.v))
    ensures var a := EvalT(x.value, st, Room(m), Depth(c), fuel); if !a.Normal? then r == a
            else Save(x.v, a.v, a.st).Some? && r == Normal(VNull, Save(x.v, a.v, a.st).value)
  {
    hide Fetch, At, Encode, Rel, EvalLoop, EvalB, EvalCall;
    AtCat(c.fn, p, CodeT(x.value, p, c.brk, c.cont), Encode(SetOp(x.v)));
    AtFetch(c.fn, p + LenT(x.value), SetOp(x.v));
  }

  lemma {:induction false} OpenEval(x: Cmd, st: Store, fuel: nat, m: State, p: nat, c: Place, r: Answer)
    requires x.Eval?
    requires Rel(m, st, p, c) && At(c.fn, p, CodeC(x, p, c.brk, c.cont)) && OkC(x, c.lp, c.pool)
    requires r == EvalC(x, st, Room(m), Depth(c), fuel) && r != Failed
    ensures At(c.fn, p, CodeT(x.e, p, c.brk, c.cont)) && OkT(x.e, c.lp, c.pool)
    ensures Fetch(c.fn.code, p + LenT(x.e)) == Some(Plain(OpPop)) && LenC(x) == LenT(x.e) + Size(Plain(OpPop))
    ensures var a := EvalT(x.e, st, Room(m), Depth(c), fuel); r == a
  {
    hide Fetch, At, Encode, Rel, EvalLoop, EvalB, EvalCall;
    AtCat(c.fn, p, CodeT(x.e, p, c.brk, c.cont), Encode(Plain(OpPop)));
    AtFetch(c.fn, p + LenT(x.e), Plain(OpPop));
  }

  lemma {:induction false} OpenReturn(x: Cmd, st: Store, fuel: nat, m: State, p: nat, c: Place, r: Answer)
    requires x.Return?
    requires Rel(m, st, p, c) && At(c.fn, p, CodeC(x, p, c.brk, c.cont)) && OkC(x, c.lp, c.pool)
    requires r == EvalC(x, st, Room(m), Depth(c), fuel) && r != Failed
    ensures At(c.fn, p, CodeT(x.value, p, c.brk, c.cont)) && OkT(x.value, c.lp, c.pool)
    ensures Fetch(c.fn.code, p + LenT(x.value)) == Some(Plain(OpReturnValue))
    ensures LenC(x) == LenT(x.value) + Size(Plain(OpReturnValue))
    ensures var a := EvalT(x.value, st, Room(m), Depth(c), fuel); r == if a.Normal? then Returned(a.v, a.st) else a
  {
    hide Fetch, At, Encode, Rel, EvalLoop, EvalB, EvalCall;
    AtCat(c.fn, p, CodeT(x.value, p, c.brk, c.cont), Encode(Plain(OpReturnValue)));
    AtFetch(c.fn, p + LenT(x.value), Plain(OpReturnValue));
  }

  lemma {:induction false} OpenBlock(b: seq<Cmd>, st: Store, fuel: nat, m: State, p: nat, c: Place, r: Answer)
    requires b != []
    requires Rel(m, st, p, c) && At(c.fn, p, CodeB(b, p, c.brk, c.cont)) && OkB(b, c.lp, c.pool)
    requires r == EvalB(b, st, Room(m), Depth(c), fuel) && r != Failed
    ensures At(c.fn, p, CodeC(b[0], p, c.brk, c.cont))
            && At(c.fn, p + LenC(b[0]), CodeB(b[1..], p + LenC(b[0]), c.brk, c.cont))
            && LenB(b) == LenC(b[0]) + LenB(b[1..]) && (|b| == 1 ==> LenB(b) == LenC(b[0]))
    ensures OkC(b[0], c.lp, c.pool) && OkB(b[1..], c.lp, c.pool)
    ensures var a := EvalC(b[0], st, Room(m), Depth(c), fuel);
            r == if a.Normal? && |b| > 1 then EvalB(b[1..], a.st, Room(m), Depth(c), fuel) else a
  {
    hide Fetch, At, Rel, CodeC, CodeT, LenC, LenT, OkC, OkT, EvalC, EvalT;
    if |b| == 1 { assert b[1..] == []; }
    AtCat(c.fn, p, CodeC(b[0], p, c.brk, c.cont), CodeB(b[1..], p + LenC(b[0]), c.brk, c.cont));
  }

  lemma {:induction false} OpenValue(b: seq<Cmd>, st: Store, fuel: nat, m: State, p: nat, c: Place, r: Answer)
    requires b != [] && (|b| > 1 || !b[0].Eval?)
    requires Rel(m, st, p, c) && At(c.fn, p, CodeV(b, p, c.brk, c.cont)) && OkB(b, c.lp, c.pool)
    requires r == EvalB(b, st, Room(m), Depth(c), fuel) && r != Failed
    ensures At(c.fn, p, CodeC(b[0], p, c.brk, c.cont))
            && At(c.fn, p + LenC(b[0]), CodeV(b[1..], p + LenC(b[0]), c.brk, c.cont))
            && LenV(b) == LenC(b[0]) + LenV(b[1..]) && (|b| == 1 ==> LenV(b) == LenC(b[0]))
    ensures OkC(b[0], c.lp, c.pool) && OkB(b[1..], c.lp, c.pool)
    ensures var a := EvalC(b[0], st, Room(m), Depth(c), fuel);
            r == if a.Normal? && |b| > 1 then EvalB(b[1..], a.st, Room(m), Depth(c), fuel) else a
  {
    hide Fetch, At, Rel, CodeC, CodeT, LenC, LenT, OkC, OkT, EvalC, EvalT;
    if |b| == 1 {
      assert b[1..] == [];
      assert CodeC(b[0], p, c.brk, c.cont) + [] == CodeC(b[0], p, c.brk, c.cont);
    }
    AtCat(c.fn, p, CodeC(b[0], p, c.brk, c.cont), CodeV(b[1..], p + LenC(b[0]), c.brk, c.cont));
  }

  lemma {:induction false} OpenLast(b: seq<Cmd>, st: Store, fuel: nat, m: State, p: nat, c: Place, r: Answer)
    requires |b| == 1 && b[0].Eval?
    requires At(c.fn, p, CodeV(b, p, c.brk, c.cont)) && OkB(b, c.lp, c.pool)
    requires r == EvalB(b, st, Room(m), Depth(c), fuel)
    ensures At(c.fn, p, CodeCV(b[0], p, c.brk, c.cont)) && OkC(b[0], c.lp, c.pool)
    ensures r == EvalC(b[0], st, Room(m), Depth(c), fuel) && LenV(b) == LenCV(b[0])
  {
    hide At, LenT, CodeT, EvalT, OkT;
  }

  lemma {:induction false} OpenOperands(ts: seq<Term>, st: Store, fuel: nat, m: State, p: nat, c: Place, r: Answers)
    requires ts != []
    requires Rel(m, st, p, c) && At(c.fn, p, CodeTs(ts, p, c.brk, c.cont)) && OkTs(ts, c.lp, c.pool)
    requires r == EvalTs(ts, st, Room(m), Depth(c), fuel) && r != Stopped(Failed)
    ensures At(c.fn, p, CodeT(ts[0], p, c.brk, c.cont))
            && At(c.fn, p + LenT(ts[0]), CodeTs(ts[1..], p + LenT(ts[0]), c.brk, c.cont))
            && LenTs(ts) == LenT(ts[0]) + LenTs(ts[1..])
    ensures OkT(ts[0], c.lp, c.pool) && OkTs(ts[1..], false, c.pool)
    ensures var a := EvalT(ts[0], st, Room(m), Depth(c), fuel);
            r == if a.Normal? then (match EvalTs(ts[1..], a.st, Room(m) - 1, Depth(c), fuel)
                                    case Values(vs, st2) => Values([a.v] + vs, st2)
                                    case s => s)
                 else Stopped(a)
  {
    hide Fetch, At, Rel, CodeC, CodeT, LenC, LenT, OkC, OkT, EvalC, EvalT;
    AtCat(c.fn, p, CodeT(ts[0], p, c.brk, c.cont), CodeTs(ts[1..], p + LenT(ts[0]), c.brk, c.cont));
  }

  lemma {:induction false} SimT(t: Term, st: Store, fuel: nat, m: State, p: nat, c: Place, r: Answer)
    returns (m': State)
    requires Rel(m, st, p, c) && At(c.fn, p, CodeT(t, p, c.brk, c.cont)) && OkT(t, c.lp, c.pool)
    requires r == EvalT(t, st, Room(m), Depth(c), fuel) && r != Failed && MayReturn(r, c)
    ensures Leads(m, m') && Done(r, st, m, m', p + LenT(t), c, 1)
    decreases fuel, 1, t
  {
    hide Fetch, At, Rel, After, Done, DoneTs, Back, OkF, Primitive, CallBuiltin;
    match t
    case Prim(_, _) => m' := SimPrim(t, st, fuel, m, p, c, r);
    case Bump(_, _, _) => m' := SimBump(t, st, fuel, m, p, c, r);
    case Put(_, _) => m' := SimPut(t, st, fuel, m, p, c, r);
    case Cond(_, _, _) => m' := SimCond(t, st, fuel, m, p, c, r);

    case Loop(_, _) => m' := SimWhile(t, st, fuel, m, p, c, r);
    case ForLoop(_, _, _, _) => m' := SimFor(t, st, fuel, m, p, c, r);
    case Call(_, _) => m' := SimCall(t, st, fuel, m, p, c, r);
    case _ => m' := SimLeaf(t, st, fuel, m, p, c, r);
  }

  lemma {:induction false} LeafCode(t: Term, p: nat, c: Place)
    requires t.Const? || t.Lambda? || t.Null? || t.Truth? || t.Get?
    requires At(c.fn, p, CodeT(t, p, c.brk, c.cont)) && OkT(t, c.lp, c.pool)
    ensures Fetch(c.fn.code, p)
         == Some(match t
                 case Const(k, _) => Instr(OpConst, k)
                 case Lambda(k, _) => Instr(OpConst, k)
                 case Null => Plain(OpNull)
                 case Truth(b) => Plain(if b then OpTrue else OpFalse)
                 case Get(v) => GetOp(v))
  {
    hide Fetch;
    match t
    case Const(k, _) => AtFetch(c.fn, p, Instr(OpConst, k));
    case Lambda(k, _) => AtFetch(c.fn, p, Instr(OpConst, k));
    case Null => AtFetch(c.fn, p, Plain(OpNull));
    case Truth(b) => AtFetch(c.fn, p, Plain(if b then OpTrue else OpFalse));
    case Get(v) => AtFetch(c.fn, p, GetOp(v));
  }

  lemma {:induction false} SimLeaf(t: Term, st: Store, fuel: nat, m: State, p: nat, c: Place, r: Answer)
    returns (m': State)
    requires t.Const? || t.Lambda? || t.Null? || t.Truth? || t.Get?
    requires Rel(m, st, p, c) && At(c.fn, p, CodeT(t, p, c.brk, c.cont)) && OkT(t, c.lp, c.pool)
    requires r == EvalT(t, st, Room(m), Depth(c), fuel) && r != Failed && MayReturn(r, c)
    ensures Leads(m, m') && Done(r, st, m, m', p + LenT(t), c, 1)
    decreases fuel, 1, t, 0
  {
    hide Fetch, At, Rel, After, Done, DoneTs, Back, OkF, Primitive, CallBuiltin;
    LeafCode(t, p, c);
    match t
    case Const(k, lit) => m' := ConstStep(m, st, p, c, Instr(OpConst, k), LitV(lit));
    case Lambda(k, f) => m' := ConstStep(m, st, p, c, Instr(OpConst, k), VFun(f));
    case Null => m' := ConstStep(m, st, p, c, Plain(OpNull), VNull);
    case Truth(b) => m' := ConstStep(m, st, p, c, Plain(if b then OpTrue else OpFalse), VBool(b));
    case Get(v) => m' := LoadStep(m, st, p, c, v);
  }

  lemma {:induction false} SimTs(ts: seq<Term>, st: Store, fuel: nat, m: State, p: nat, c: Place, r: Answers)
    returns (m': State)
    requires Rel(m, st, p, c) && At(c.fn, p, CodeTs(ts, p, c.brk, c.cont)) && OkTs(ts, c.lp, c.pool)
    requires r == EvalTs(ts, st, Room(m), Depth(c), fuel) && r != Stopped(Failed)
    requires r.Stopped? ==> MayReturn(r.r, c)
    ensures Leads(m, m') && DoneTs(r, st, m, m', p + LenTs(ts), c)
    decreases fuel, 1, ts
  {
    hide Fetch, Leads, At, Rel, After, Done, DoneTs, Back, Primitive, CallBuiltin;
    hide CodeT, CodeTs, CodeC, CodeCV, CodeB, CodeV, CodeL, CodeCond, CodeLoop, CodeFor;
    hide OkF, OkT, OkTs, OkC, OkB, OkBranch, LenT, LenTs, LenC, LenCV, LenB, LenV, LenL;
    hide EvalT, EvalPrim, EvalBump, EvalPut, EvalCond, EvalFor, EvalApply, EvalTs, EvalC, EvalB, EvalTest, EvalBody,
         EvalLoop, EvalCall;
    if ts == [] {
      m' := m;
      NoOperands(ts, st, fuel, m, p, c, r);
      return;
    }
    OpenOperands(ts, st, fuel, m, p, c, r);
    var q := p + LenT(ts[0]);
    var r1 := EvalT(ts[0], st, Room(m), Depth(c), fuel);
    var m1 := SimT(ts[0], st, fuel, m, p, c, r1);
    if !r1.Normal? {
      m' := m1;
      DoneStopped(r1, st, m, m1, q, c, 1, p + LenTs(ts));
      return;
    }
    Normally(r1.v, r1.st, st, m, m1, q, c, 1);
    var r2 := EvalTs(ts[1..], r1.st, Room(m1), Depth(c), fuel);
    m' := SimTs(ts[1..], r1.st, fuel, m1, q, Inner(c), r2);
    Trans(m, m1, m');
    DoneCons(r1.v, r2, st, m, r1.st, m1, m', q, p + LenTs(ts), c);
  }

  lemma {:induction false} NoOperands(ts: seq<Term>, st: Store, fuel: nat, m: State, p: nat, c: Place, r: Answers)
    requires ts == [] && Rel(m, st, p, c) && r == EvalTs(ts, st, Room(m), Depth(c), fuel)
    ensures Leads(m, m) && DoneTs(r, st, m, m, p + LenTs(ts), c)
  {
    Start(st, m, p, c);
  }

  lemma {:induction false} NoCommands(b: seq<Cmd>, st: Store, fuel: nat, m: State, p: nat, c: Place, r: Answer)
    requires b == [] && Rel(m, st, p, c) && r == EvalB(b, st, Room(m), Depth(c), fuel)
    ensures Leads(m, m) && Done(r, st, m, m, p + LenB(b), c, 0) && Done(r, st, m, m, p + LenV(b), c, 0)
  {
    Start(st, m, p, c);
  }

  lemma {:induction false} DoneStopped(r: Answer, st: Store, m: State, m': State, q: nat, c: Place, push: nat, q': nat)
    requires !r.Normal? && Done(r, st, m, m', q, c, push)
    ensures DoneTs(Stopped(r), st, m, m', q', c)
  {
  }

  lemma {:induction false} StoppedDone(r: Answer, st: Store, m: State, m': State, q: nat, c: Place, q': nat, push: nat)
    requires DoneTs(Stopped(r), st, m, m', q, c)
    ensures Done(r, st, m, m', q', c, push)
  {
  }

  lemma {:induction false} SimPrim(t: Term, st: Store, fuel: nat, m: State, p: nat, c: Place, r: Answer)
    returns (m': State)
    requires t.Prim?
    requires Rel(m, st, p, c) && At(c.fn, p, CodeT(t, p, c.brk, c.cont)) && OkT(t, c.lp, c.pool)
    requires r == EvalT(t, st, Room(m), Depth(c), fuel) && r != Failed && MayReturn(r, c)
    ensures Leads(m, m') && Done(r, st, m, m', p + LenT(t), c, 1)
    decreases fuel, 1, t, 0
  {
    hide Fetch, Leads, At, Rel, After, Done, DoneTs, Back, Primitive, CallBuiltin;
    hide CodeT, CodeTs, CodeC, CodeCV, CodeB, CodeV, CodeL, CodeCond, CodeLoop, CodeFor;
    hide OkF, OkT, OkTs, OkC, OkB, OkBranch, LenT, LenTs, LenC, LenCV, LenB, LenV, LenL;
    hide EvalT, EvalPrim, EvalBump, EvalPut, EvalCond, EvalFor, EvalApply, EvalTs, EvalC, EvalB, EvalTest, EvalBody,
         EvalLoop, EvalCall;
    OpenPrim(t, st, fuel, m, p, c, r);
    var q := p + LenTs(t.args);
    var r1 := EvalTs(t.args, st, Room(m), Depth(c), fuel);
    var m1 := SimTs(t.args, st, fuel, m, p, c, r1);
    match r1
    case Values(vs, st1) =>
      m' := OperateStep(st, m, st1, m1, q, c, t.op, vs);
      Trans(m, m1, m');
    case Stopped(a) =>
      m' := m1;
      StoppedDone(a, st, m, m1, q, c, p + LenT(t), 1);
  }

  lemma {:induction false} SimPut(t: Term, st: Store, fuel: nat, m: State, p: nat, c: Place, r: Answer)
    returns (m': State)
    requires t.Put?
    requires Rel(m, st, p, c) && At(c.fn, p, CodeT(t, p, c.brk, c.cont)) && OkT(t, c.lp, c.pool)
    requires r == EvalT(t, st, Room(m), Depth(c), fuel) && r != Failed && MayReturn(r, c)
    ensures Leads(m, m') && Done(r, st, m, m', p + LenT(t), c, 1)
    decreases fuel, 1, t, 0
  {
    hide Fetch, Leads, At, Rel, After, Done, DoneTs, Back, Primitive, CallBuiltin;
    hide CodeT, CodeTs, CodeC, CodeCV, CodeB, CodeV, CodeL, CodeCond, CodeLoop, CodeFor;
    hide OkF, OkT, OkTs, OkC, OkB, OkBranch, LenT, LenTs, LenC, LenCV, LenB, LenV, LenL;
    hide EvalT, EvalPrim, EvalBump, EvalPut, EvalCond, EvalFor, EvalApply, EvalTs, EvalC, EvalB, EvalTest, EvalBody,
         EvalLoop, EvalCall;
    OpenPut(t, st, fuel, m, p, c, r);
    var q := p + LenT(t.value);
    var q2 := q + Size(SetOp(t.v));
    var r1 := EvalT(t.value, st, Room(m), Depth(c), fuel);
    var m1 := SimT(t.value, st, fuel, m, p, c, r1);
    if !r1.Normal? {
      m' := m1;
      DoneAbrupt(r1, st, m, m1, q, c, 1, p + LenT(t), 1);
      return;
    }
    var st2 := Save(t.v, r1.v, r1.st).value;
    Normally(r1.v, r1.st, st, m, m1, q, c, 1);
    var m2 := SaveStep(r1.v, st, m, r1.st, m1, q, c, t.v);
    Following(st, m, st2, m2, q2, c, 0);
    m' := LoadStep(m2, st2, q2, c, t.v);
    Trans(m, m1, m2);
    Trans(m, m2, m');
    DoneThrough(r, st, m, st2, m2, m', q2, p + LenT(t), c, 1);
  }

  lemma {:induction false} SimBump(t: Term, st: Store, fuel: nat, m: State, p: nat, c: Place, r: Answer)
    returns (m': State)
    requires t.Bump?
    requires Rel(m, st, p, c) && At(c.fn, p, CodeT(t, p, c.brk, c.cont)) && OkT(t, c.lp, c.pool)
    requires r == EvalT(t, st, Room(m), Depth(c), fuel) && r != Failed && MayReturn(r, c)
    ensures Leads(m, m') && Done(r, st, m, m', p + LenT(t), c, 1)
    decreases fuel, 1, t, 0
  {
    hide Fetch, Leads, At, Rel, After, Done, DoneTs, Back, Primitive, CallBuiltin, Load, Save, GetOp, SetOp;
    hide CodeT, CodeTs, CodeC, CodeCV, CodeB, CodeV, CodeL, CodeCond, CodeLoop, CodeFor;
    hide OkF, OkT, OkTs, OkC, OkB, OkBranch, LenT, LenTs, LenC, LenCV, LenB, LenV, LenL;
    hide EvalT, EvalPrim, EvalBump, EvalPut, EvalCond, EvalFor, EvalApply, EvalTs, EvalC, EvalB, EvalTest, EvalBody,
         EvalLoop, EvalCall;
    OpenBump(t, st, fuel, m, p, c, r);
    var n := Size(GetOp(t.v));
    var x := Load(t.v, st).value;
    var (h, y) := Primitive(t.step, st.heap, [x, VInt(1)]).value;
    var st1 := st.(heap := h);
    var m1 := LoadStep(m, st, p, c, t.v);
    Normally(x, st, st, m, m1, p + n, c, 1);
    var m2 := LoadStep(m1, st, p + n, c, t.v);
    Normally(x, st, st, m1, m2, p + 2 * n, c, 1);
    var m3 := ConstStep(m2, st, p + 2 * n, c, Instr(OpConst, t.k), VInt(1));
    BumpOperands(x, st, m1, m2, m3, p + 2 * n, c);
    var m4 := OperateStep(st, m1, st, m3, p + 2 * n + 3, c, t.step, [x, VInt(1)]);
    m' := SaveStep(y, st, m1, st1, m4, p + 2 * n + 4, c, t.v);
    Trans(m, m1, m2);
    Trans(m, m2, m3);
    Trans(m, m3, m4);
    Trans(m, m4, m');
    BumpDone(x, st, m, m1, r.st, m', p + n, p + LenT(t), c);
  }

  lemma {:induction false} BumpOperands(x: SValue, st: Store, m1: State, m2: State, m3: State, q: nat, c: Place)
    requires Done(Normal(x, st), st, m1, m2, q, c, 1) && Done(Normal(VInt(1), st), st, m2, m3, q + 3, c, 1)
    ensures DoneTs(Values([x, VInt(1)], st), st, m1, m3, q + 3, c)
  {
    AfterTrans(st, m1, st, m2, st, m3, q, q + 3, c, c, 1, 1);
    assert m3.stack[m1.sp..m3.sp] == MapVs(Lower, [x, VInt(1)]);
  }

  lemma {:induction false} BumpDone(x: SValue, st: Store, m: State, m1: State, st2: Store, m2: State, q: nat, q2: nat,
                                    c: Place)
    requires Done(Normal(x, st), st, m, m1, q, c, 1) && After(st, m1, st2, m2, q2, c, 0)
    ensures Done(Normal(x, st2), st, m, m2, q2, c, 1)
  {
    AfterTrans(st, m, st, m1, st2, m2, q, q2, c, c, 1, 0);
  }

  lemma {:induction false} JumpCode(st: Store, m: State, p: nat, c: Place, target: nat)
    requires Rel(m, st, p, c) && (target == c.brk || target == c.cont)
    requires At(c.fn, p, Encode(Plain(OpNull)) + Encode(Instr(OpJump, target)))
    ensures Fetch(c.fn.code, p) == Some(Plain(OpNull)) && Fetch(c.fn.code, p + 1) == Some(Instr(OpJump, target))
    ensures Limits(c)
  {
    hide Fetch;
    AtCat(c.fn, p, Encode(Plain(OpNull)), Encode(Instr(OpJump, target)));
    AtFetch(c.fn, p, Plain(OpNull));
    AtFetch(c.fn, p + 1, Instr(OpJump, target));
  }

  lemma {:induction false} SimC(x: Cmd, st: Store, fuel: nat, m: State, p: nat, c: Place, r: Answer)
    returns (m': State)
    requires Rel(m, st, p, c) && At(c.fn, p, CodeC(x, p, c.brk, c.cont)) && OkC(x, c.lp, c.pool)
    requires r == EvalC(x, st, Room(m), Depth(c), fuel) && r != Failed && MayReturn(r, c)
    ensures Leads(m, m') && Done(r, st, m, m', p + LenC(x), c, 0)
    decreases fuel, 1, x
  {
    hide Fetch, At, Rel, After, Done, DoneTs, Back, OkF, Primitive, CallBuiltin;
    match x
    case Define(_, _) => m' := SimDefine(x, st, fuel, m, p, c, r);
    case Return(_) => m' := SimReturn(x, st, fuel, m, p, c, r);
    case Eval(_) => m' := SimEval(x, st, fuel, m, p, c, r);
    case Break =>
      JumpCode(st, m, p, c, c.brk);
      m' := SimJump(st, m, p, c, c.brk, r);
    case Continue =>
      JumpCode(st, m, p, c, c.cont);
      m' := SimJump(st, m, p, c, c.cont, r);
  }

  lemma {:induction false} SimDefine(x: Cmd, st: Store, fuel: nat, m: State, p: nat, c: Place, r: Answer)
    returns (m': State)
    requires x.Define?
    requires Rel(m, st, p, c) && At(c.fn, p, CodeC(x, p, c.brk, c.cont)) && OkC(x, c.lp, c.pool)
    requires r == EvalC(x, st, Room(m), Depth(c), fuel) && r != Failed && MayReturn(r, c)
    ensures Leads(m, m') && Done(r, st, m, m', p + LenC(x), c, 0)
    decreases fuel, 1, x, 0
  {
    hide Fetch, Leads, At, Rel, After, Done, DoneTs, Back, Primitive, CallBuiltin;
    hide CodeT, CodeTs, CodeC, CodeCV, CodeB, CodeV, CodeL, CodeCond, CodeLoop, CodeFor;
    hide OkF, OkT, OkTs, OkC, OkB, OkBranch, LenT, LenTs, LenC, LenCV, LenB, LenV, LenL;
    hide EvalT, EvalPrim, EvalBump, EvalPut, EvalCond, EvalFor, EvalApply, EvalTs, EvalC, EvalB, EvalTest, EvalBody,
         EvalLoop, EvalCall;
    OpenDefine(x, st, fuel, m, p, c, r);
    var q := p + LenT(x.value);
    var r1 := EvalT(x.value, st, Room(m), Depth(c), fuel);
    var m1 := SimT(x.value, st, fuel, m, p, c, r1);
    if !r1.Normal? {
      m' := m1;
      DoneAbrupt(r1, st, m, m1, q, c, 1, p + LenC(x), 0);
      return;
    }
    m' := SaveStep(r1.v, st, m, r1.st, m1, q, c, x.v);
    Trans(m, m1, m');
    NormalDone(VNull, r.st, st, m, m', p + LenC(x), c, 0);
  }

  lemma {:induction false} SimEval(x: Cmd, st: Store, fuel: nat, m: State, p: nat, c: Place, r: Answer)
    returns (m': State)
    requires x.Eval?
    requires Rel(m, st, p, c) && At(c.fn, p, CodeC(x, p, c.brk, c.cont)) && OkC(x, c.lp, c.pool)
    requires r == EvalC(x, st, Room(m), Depth(c), fuel) && r != Failed && MayReturn(r, c)
    ensures Leads(m, m') && Done(r, st, m, m', p + LenC(x), c, 0)
    decreases fuel, 1, x, 0
  {
    hide Fetch, Leads, At, Rel, After, Done, DoneTs, Back, Primitive, CallBuiltin;
    hide CodeT, CodeTs, CodeC, CodeCV, CodeB, CodeV, CodeL, CodeCond, CodeLoop, CodeFor;
    hide OkF, OkT, OkTs, OkC, OkB, OkBranch, LenT, LenTs, LenC, LenCV, LenB, LenV, LenL;
    hide EvalT, EvalPrim, EvalBump, EvalPut, EvalCond, EvalFor, EvalApply, EvalTs, EvalC, EvalB, EvalTest, EvalBody,
         EvalLoop, EvalCall;
    OpenEval(x, st, fuel, m, p, c, r);
    var q := p + LenT(x.e);
    var r1 := EvalT(x.e, st, Room(m), Depth(c), fuel);
    var m1 := SimT(x.e, st, fuel, m, p, c, r1);
    if !r1.Normal? {
      m' := m1;
      DoneAbrupt(r1, st, m, m1, q, c, 1, p + LenC(x), 0);
      return;
    }
    m' := PopStep(r1.v, st, m, r1.st, m1, q, c);
    Trans(m, m1, m');
  }

  lemma {:induction false} SimReturn(x: Cmd, st: Store, fuel: nat, m: State, p: nat, c: Place, r: Answer)
    returns (m': State)
    requires x.Return?
    requires Rel(m, st, p, c) && At(c.fn, p, CodeC(x, p, c.brk, c.cont)) && OkC(x, c.lp, c.pool)
    requires r == EvalC(x, st, Room(m), Depth(c), fuel) && r != Failed && MayReturn(r, c)
    ensures Leads(m, m') && Done(r, st, m, m', p + LenC(x), c, 0)
    decreases fuel, 1, x, 0
  {
    hide Fetch, Leads, At, Rel, After, Done, DoneTs, Back, Primitive, CallBuiltin;
    hide CodeT, CodeTs, CodeC, CodeCV, CodeB, CodeV, CodeL, CodeCond, CodeLoop, CodeFor;
    hide OkF, OkT, OkTs, OkC, OkB, OkBranch, LenT, LenTs, LenC, LenCV, LenB, LenV, LenL;
    hide EvalT, EvalPrim, EvalBump, EvalPut, EvalCond, EvalFor, EvalApply, EvalTs, EvalC, EvalB, EvalTest, EvalBody,
         EvalLoop, EvalCall;
    OpenReturn(x, st, fuel, m, p, c, r);
    var q := p + LenT(x.value);
    var r1 := EvalT(x.value, st, Room(m), Depth(c), fuel);
    var m1 := SimT(x.value, st, fuel, m, p, c, r1);
    if !r1.Normal? {
      m' := m1;
      DoneAbrupt(r1, st, m, m1, q, c, 1, p + LenC(x), 0);
      return;
    }
    m' := ReturnDone(r1.v, st, m, r1.st, m1, q, c);
    Trans(m, m1, m');
  }

  lemma {:induction false} ReturnDone(v: SValue, st: Store, m: State, st1: Store, m1: State, q: nat, c: Place)
                                      returns (m': State)
    requires Done(Normal(v, st1), st, m, m1, q, c, 1) && Fetch(c.fn.code, q) == Some(Plain(OpReturnValue))
    requires c.below != [] && 1 <= c.base
    ensures Leads(m1, m') && Done(Returned(v, st1), st, m, m', q + 1, c, 0)
  {
    m' := ReturnStep(m1, st1, q, c, Plain(OpReturnValue), v);
    BackThrough(v, st1, st, m, st1, m1, m', q, c, c, 1);
  }

  /** `break` and `continue`: a null, then the jump. */
  lemma {:induction false} SimJump(st: Store, m: State, p: nat, c: Place, target: nat, r: Answer)
    returns (m': State)
    requires Rel(m, st, p, c) && Fetch(c.fn.code, p) == Some(Plain(OpNull))
    requires Fetch(c.fn.code, p + 1) == Some(Instr(OpJump, target)) && m.sp < STACK_SIZE
    requires c.lp && ((r == Broke(st) && target == c.brk) || (r == Continued(st) && target == c.cont))
    ensures Leads(m, m') && Done(r, st, m, m', p + 4, c, 0)
  {
    var m1 := ConstStep(m, st, p, c, Plain(OpNull), VNull);
    m' := JumpStep(st, m, st, m1, p + 1, c, target, 1);
    Trans(m, m1, m');
  }

  lemma {:induction false} SimB(b: seq<Cmd>, st: Store, fuel: nat, m: State, p: nat, c: Place, r: Answer)
    returns (m': State)
    requires Rel(m, st, p, c) && At(c.fn, p, CodeB(b, p, c.brk, c.cont)) && OkB(b, c.lp, c.pool)
    requires r == EvalB(b, st, Room(m), Depth(c), fuel) && r != Failed && MayReturn(r, c)
    ensures Leads(m, m') && Done(r, st, m, m', p + LenB(b), c, 0)
    decreases fuel, 1, b
  {
    hide Fetch, Leads, At, Rel, After, Done, DoneTs, Back, Primitive, CallBuiltin;
    hide CodeT, CodeTs, CodeC, CodeCV, CodeB, CodeV, CodeL, CodeCond, CodeLoop, CodeFor;
    hide OkF, OkT, OkTs, OkC, OkB, OkBranch, LenT, LenTs, LenC, LenCV, LenB, LenV, LenL;
    hide EvalT, EvalPrim, EvalBump, EvalPut, EvalCond, EvalFor, EvalApply, EvalTs, EvalC, EvalB, EvalTest, EvalBody,
         EvalLoop, EvalCall;
    if b == [] {
      m' := m;
      NoCommands(b, st, fuel, m, p, c, r);
      return;
    }
    OpenBlock(b, st, fuel, m, p, c, r);
    var q := p + LenC(b[0]);
    var r1 := EvalC(b[0], st, Room(m), Depth(c), fuel);
    var m1 := SimC(b[0], st, fuel, m, p, c, r1);
    if !r1.Normal? {
      m' := m1;
      DoneAbrupt(r1, st, m, m1, q, c, 0, p + LenB(b), 0);
      return;
    }
    Normally(r1.v, r1.st, st, m, m1, q, c, 0);
    if |b| == 1 {
      m' := m1;
    } else {
      m' := SimB(b[1..], r1.st, fuel, m1, q, c, r);
      Trans(m, m1, m');
      DoneThrough(r, st, m, r1.st, m1, m', q, p + LenB(b), c, 0);
    }
  }

  /** How many values a block in value position leaves. */
  function Pushes(b: seq<Cmd>): nat { if EndsInEval(b) then 1 else 0 }

  lemma {:induction false} SimV(b: seq<Cmd>, st: Store, fuel: nat, m: State, p: nat, c: Place, r: Answer)
    returns (m': State)
    requires Rel(m, st, p, c) && At(c.fn, p, CodeV(b, p, c.brk, c.cont)) && OkB(b, c.lp, c.pool)
    requires r == EvalB(b, st, Room(m), Depth(c), fuel) && r != Failed && MayReturn(r, c)
    ensures Leads(m, m') && Done(r, st, m, m', p + LenV(b), c, Pushes(b))
    decreases fuel, 1, b
  {
    hide Fetch, Leads, At, Rel, After, Done, DoneTs, Back, Primitive, CallBuiltin;
    hide CodeT, CodeTs, CodeC, CodeCV, CodeB, CodeV, CodeL, CodeCond, CodeLoop, CodeFor;
    hide OkF, OkT, OkTs, OkC, OkB, OkBranch, LenT, LenTs, LenC, LenCV, LenB, LenV, LenL;
    hide EvalT, EvalPrim, EvalBump, EvalPut, EvalCond, EvalFor, EvalApply, EvalTs, EvalC, EvalB, EvalTest, EvalBody,
         EvalLoop, EvalCall;
    if b == [] {
      m' := m;
      NoCommands(b, st, fuel, m, p, c, r);
      return;
    }
    if |b| == 1 && b[0].Eval? {
      OpenLast(b, st, fuel, m, p, c, r);
      m' := SimLast(b[0], st, fuel, m, p, c, r);
      return;
    }
    OpenValue(b, st, fuel, m, p, c, r);
    var q := p + LenC(b[0]);
    var r1 := EvalC(b[0], st, Room(m), Depth(c), fuel);
    var m1 := SimC(b[0], st, fuel, m, p, c, r1);
    if !r1.Normal? {
      m' := m1;
      DoneAbrupt(r1, st, m, m1, q, c, 0, p + LenV(b), Pushes(b));
      return;
    }
    Normally(r1.v, r1.st, st, m, m1, q, c, 0);
    if |b| == 1 {
      m' := m1;
    } else {
      m' := SimV(b[1..], r1.st, fuel, m1, q, c, r);
      Trans(m, m1, m');
      DoneThrough(r, st, m, r1.st, m1, m', q, p + LenV(b), c, Pushes(b));
    }
  }

  lemma {:induction false} SimLast(x: Cmd, st: Store, fuel: nat, m: State, p: nat, c: Place, r: Answer)
    returns (m': State)
    requires x.Eval?
    requires Rel(m, st, p, c) && At(c.fn, p, CodeCV(x, p, c.brk, c.cont)) && OkC(x, c.lp, c.pool)
    requires r == EvalC(x, st, Room(m), Depth(c), fuel) && r != Failed && MayReturn(r, c)
    ensures Leads(m, m') && Done(r, st, m, m', p + LenCV(x), c, 1)
    decreases fuel, 1, x
  {
    hide Fetch, At, Rel, After, Done, DoneTs, Back, OkF, Primitive, CallBuiltin;
    m' := SimT(x.e, st, fuel, m, p, c, r);
  }

  /** A block that ends in a jump does not end normally. */
  lemma {:induction false} NoFallThrough(b: seq<Cmd>, st: Store, room: int, depth: nat, fuel: nat)
    requires b != [] && !b[|b| - 1].Eval? && !b[|b| - 1].Define?
    ensures !EvalB(b, st, room, depth, fuel).Normal?
    decreases b
  {
    match EvalC(b[0], st, room, depth, fuel)
    case Normal(_, st1) => if |b| > 1 { NoFallThrough(b[1..], st1, room, depth, fuel); }
    case _ =>
  }

  /** A block that does not end in an expression has the value null. */
  lemma {:induction false} NullValue(b: seq<Cmd>, st: Store, room: int, depth: nat, fuel: nat)
    requires !EndsInEval(b)
    ensures EvalB(b, st, room, depth, fuel).Normal? ==> EvalB(b, st, room, depth, fuel).v == VNull
    decreases b
  {
    if |b| > 1 {
      match EvalC(b[0], st, room, depth, fuel)
      case Normal(_, st1) => NullValue(b[1..], st1, room, depth, fuel);
      case _ =>
    }
  }

  lemma {:induction false} SimCond(t: Term, st: Store, fuel: nat, m: State, p: nat, c: Place, r: Answer)
    returns (m': State)
    requires t.Cond?
    requires Rel(m, st, p, c) && At(c.fn, p, CodeT(t, p, c.brk, c.cont)) && OkT(t, c.lp, c.pool)
    requires r == EvalT(t, st, Room(m), Depth(c), fuel) && r != Failed && MayReturn(r, c)
    ensures Leads(m, m') && Done(r, st, m, m', p + LenT(t), c, 1)
    decreases fuel, 1, t, 0
  {
    hide Fetch, Leads, At, Rel, After, Done, DoneTs, Back, Primitive, CallBuiltin;
    hide CodeT, CodeTs, CodeC, CodeCV, CodeB, CodeV, CodeL, CodeCond, CodeLoop, CodeFor;
    hide OkF, OkT, OkTs, OkC, OkB, OkBranch, LenT, LenTs, LenC, LenCV, LenB, LenV, LenL;
    hide EvalT, EvalPrim, EvalBump, EvalPut, EvalCond, EvalFor, EvalApply, EvalTs, EvalC, EvalB, EvalTest, EvalBody,
         EvalLoop, EvalCall;
    OpenCond(t, st, fuel, m, p, c, r);
    var Cond(x, yes, no) := t;
    var conseq := p + LenT(x) + 3;
    var alt := conseq + LenV(yes) + 3;
    var r1 := EvalT(x, st, Room(m), Depth(c), fuel);
    var m1 := SimT(x, st, fuel, m, p, c, r1);
    if !r1.Normal? {
      m' := m1;
      DoneAbrupt(r1, st, m, m1, conseq - 3, c, 1, p + LenT(t), 1);
      return;
    }
    var m2 := TestStep(r1.v, st, m, r1.st, m1, conseq - 3, c, alt);
    Trans(m, m1, m2);
    var branch := if Truthy(r1.v) then yes else no;
    var q := if Truthy(r1.v) then conseq else alt;
    Following(st, m, r1.st, m2, q, c, 0);
    var m3 := SimV(branch, r1.st, fuel, m2, q, c, r);
    Trans(m, m2, m3);
    DoneThrough(r, st, m, r1.st, m2, m3, q, q + LenV(branch), c, Pushes(branch));
    m' := m3;
    if !EndsInEval(branch) {
      NoFallThrough(branch, r1.st, Room(m), Depth(c), fuel);
    }
    if !r.Normal? {
      DoneAbrupt(r, st, m, m3, q + LenV(branch), c, Pushes(branch), p + LenT(t), 1);
    } else if Truthy(r1.v) {
      m' := EndBranch(r.v, r.st, st, m, m3, conseq + LenV(yes), c, alt + LenV(no));
      Trans(m, m3, m');
    }
  }

  /** The jump over the other branch. */
  lemma {:induction false} EndBranch(v: SValue, st1: Store, st: Store, m: State, m1: State, q: nat, c: Place,
                                     target: nat) returns (m': State)
    requires Done(Normal(v, st1), st, m, m1, q, c, 1) && Fetch(c.fn.code, q) == Some(Instr(OpJump, target))
    ensures Leads(m1, m') && Done(Normal(v, st1), st, m, m', target, c, 1)
  {
    m' := JumpStep(st, m, st1, m1, q, c, target, 1);
  }

  // ---- loops ----

  /**
   The layout of a loop: the test at `before`, the body at `start`, the increment
   at `next`, where `continue` and `break` go, and the instruction after it.
   */
  datatype Layout = Layout(until: Option<Term>, body: seq<Cmd>, inc: seq<Cmd>,
                           before: nat, start: nat, next: nat, cont: nat, after: nat)

  ghost predicate LoopCode(l: Layout, c: Place) {
    && (match l.until
        case None => l.start == l.before
        case Some(t) =>
          && At(c.fn, l.before, CodeT(t, l.before, c.brk, c.cont)) && OkT(t, false, c.pool)
          && Fetch(c.fn.code, l.before + LenT(t)) == Some(Instr(OpJumpNotTrue, l.after))
          && l.start == l.before + LenT(t) + 3)
    && At(c.fn, l.start, CodeL(l.body, l.start, l.after, l.cont)) && OkB(l.body, true, c.pool)
    && l.next == l.start + LenL(l.body)
    && At(c.fn, l.next, CodeB(l.inc, l.next, c.brk, c.cont)) && OkB(l.inc, false, c.pool)
    && Fetch(c.fn.code, l.next + LenB(l.inc)) == Some(Instr(OpJump, l.before))
    && (l.cont == l.next || (l.inc == [] && l.cont == l.before))
    && l.after < LIMIT && l.cont < LIMIT
  }

  lemma {:induction false} OpenWhile(t: Term, st: Store, fuel: nat, m: State, p: nat, c: Place, r: Answer)
                                     returns (l: Layout)
    requires t.Loop?
    requires Rel(m, st, p, c) && At(c.fn, p, CodeT(t, p, c.brk, c.cont)) && OkT(t, c.lp, c.pool)
    requires r == EvalT(t, st, Room(m), Depth(c), fuel) && r != Failed
    ensures Fetch(c.fn.code, p) == Some(Plain(OpNull)) && m.sp < STACK_SIZE
    ensures LoopCode(l, c) && l.before == p + 1 && l.after == p + LenT(t)
    ensures r == EvalLoop(l.until, l.body, l.inc, VNull, st, Room(m), Depth(c), fuel)
  {
    hide Fetch, Encode, At, CodeT, CodeV, CodeL, CodeTs, LenV, LenC, LenTs, LenL, EvalB, EvalLoop, EvalCall;
    var Loop(test, body) := t;
    var before := p + 1;
    var start := before + LenT(test) + 3;
    var after := start + LenL(body) + 3;
    l := Layout(Some(test), body, [], before, start, after - 3, before, after);
    AtBound(c.fn, p, CodeT(t, p, c.brk, c.cont));
    WhileAt(c.fn, p, test, body, c.brk, c.cont);
    AtNothing(c.fn, after - 3);
  }

  /** Where the parts of a `while` loop are. */
  lemma {:induction false} WhileAt(fn: Compiled, p: nat, test: Term, body: seq<Cmd>, brk: nat, cont: nat)
    requires At(fn, p, CodeT(Loop(test, body), p, brk, cont)) && p + LenT(Loop(test, body)) < LIMIT
    ensures var start := p + 1 + LenT(test) + 3;
            var end := start + LenL(body);
            && Fetch(fn.code, p) == Some(Plain(OpNull)) && At(fn, p + 1, CodeT(test, p + 1, brk, cont))
            && Fetch(fn.code, start - 3) == Some(Instr(OpJumpNotTrue, end + 3))
            && At(fn, start, CodeL(body, start, end + 3, p + 1)) && Fetch(fn.code, end) == Some(Instr(OpJump, p + 1))
  {
    hide Fetch, Encode, At, CodeL, LenL;
    var start := p + 1 + LenT(test) + 3;
    var end := start + LenL(body);
    var exit, again := Instr(OpJumpNotTrue, end + 3), Instr(OpJump, p + 1);
    AtFour(fn, p, Encode(Plain(OpNull)), CodeT(test, p + 1, brk, cont), Encode(exit),
           CodeL(body, start, end + 3, p + 1), Encode(again));
    AtFetch(fn, p, Plain(OpNull));
    AtFetch(fn, start - 3, exit);
    AtFetch(fn, end, again);
  }

  lemma {:induction false} OpenFor(t: Term, st: Store, fuel: nat, m: State, p: nat, c: Place, r: Answer)
                                   returns (l: Layout)
    requires t.ForLoop?
    requires Rel(m, st, p, c) && At(c.fn, p, CodeT(t, p, c.brk, c.cont)) && OkT(t, c.lp, c.pool)
    requires r == EvalT(t, st, Room(m), Depth(c), fuel) && r != Failed
    ensures Fetch(c.fn.code, p) == Some(Plain(OpNull)) && m.sp < STACK_SIZE
    ensures LoopCode(l, c) && l.before == p + 1 + LenB(t.init) && l.after == p + LenT(t)
    ensures At(c.fn, p + 1, CodeB(t.init, p + 1, c.brk, c.cont)) && OkB(t.init, false, c.pool)
    ensures var a := EvalB(t.init, st, Room(m) - 1, Depth(c), fuel);
            r == if a.Normal? then EvalLoop(l.until, l.body, l.inc, VNull, a.st, Room(m), Depth(c), fuel) else a
  {
    hide Fetch, Encode, At, CodeV, CodeC, CodeB, CodeL, CodeTs, CodeLoop, LenV, LenC, LenTs, LenL, LenB, EvalB,
         EvalLoop, EvalCall;
    var ForLoop(init, until, inc, body) := t;
    var before := p + 1 + LenB(init);
    var start := before + (match until case None => 0 case Some(x) => LenT(x) + 3);
    var next := start + LenL(body);
    var after := next + LenB(inc) + 3;
    l := Layout(until, body, inc, before, start, next, next, after);
    var first, z := CodeB(init, p + 1, c.brk, c.cont), CodeB(inc, next, c.brk, c.cont);
    var y, again := CodeL(body, start, after, next), Instr(OpJump, before);
    var x := match until case None => []
             case Some(x) => CodeT(x, before, c.brk, c.cont) + Encode(Instr(OpJumpNotTrue, after));
    AtBound(c.fn, p, CodeT(t, p, c.brk, c.cont));
    AtCat(c.fn, p, Encode(Plain(OpNull)), first + (x + (y + (z + Encode(again)))));
    AtCat(c.fn, p + 1, first, x + (y + (z + Encode(again))));
    AtCat(c.fn, before, x, y + (z + Encode(again)));
    AtCat(c.fn, start, y, z + Encode(again));
    AtCat(c.fn, next, z, Encode(again));
    AtFetch(c.fn, p, Plain(OpNull));
    AtFetch(c.fn, after - 3, again);
    match until {
      case None =>
      case Some(e) =>
        AtCat(c.fn, before, CodeT(e, before, c.brk, c.cont), Encode(Instr(OpJumpNotTrue, after)));
        AtFetch(c.fn, start - 3, Instr(OpJumpNotTrue, after));
    }
  }

  lemma {:induction false} AtNothing(fn: Compiled, p: nat)
    requires p <= |fn.code|
    ensures At(fn, p, [])
  {
  }

  lemma {:induction false} SimWhile(t: Term, st: Store, fuel: nat, m: State, p: nat, c: Place, r: Answer)
    returns (m': State)
    requires t.Loop?
    requires Rel(m, st, p, c) && At(c.fn, p, CodeT(t, p, c.brk, c.cont)) && OkT(t, c.lp, c.pool)
    requires r == EvalT(t, st, Room(m), Depth(c), fuel) && r != Failed && MayReturn(r, c)
    ensures Leads(m, m') && Done(r, st, m, m', p + LenT(t), c, 1)
    decreases fuel, 1, t, 0
  {
    hide Fetch, Leads, At, Rel, After, Done, DoneTs, Back, Primitive, CallBuiltin;
    hide CodeT, CodeTs, CodeC, CodeCV, CodeB, CodeV, CodeL, CodeCond, CodeLoop, CodeFor;
    hide OkF, OkT, OkTs, OkC, OkB, OkBranch, LenT, LenTs, LenC, LenCV, LenB, LenV, LenL;
    hide EvalT, EvalPrim, EvalBump, EvalPut, EvalCond, EvalFor, EvalApply, EvalTs, EvalC, EvalB, EvalTest, EvalBody,
         EvalLoop, EvalCall;
    var l := OpenWhile(t, st, fuel, m, p, c, r);
    var m1 := ConstStep(m, st, p, c, Plain(OpNull), VNull);
    m' := SimLoop(l, VNull, st, fuel, st, m, m1, c, r);
    Trans(m, m1, m');
  }

  lemma {:induction false} SimFor(t: Term, st: Store, fuel: nat, m: State, p: nat, c: Place, r: Answer)
    returns (m': State)
    requires t.ForLoop?
    requires Rel(m, st, p, c) && At(c.fn, p, CodeT(t, p, c.brk, c.cont)) && OkT(t, c.lp, c.pool)
    requires r == EvalT(t, st, Room(m), Depth(c), fuel) && r != Failed && MayReturn(r, c)
    ensures Leads(m, m') && Done(r, st, m, m', p + LenT(t), c, 1)
    decreases fuel, 1, t, 0
  {
    hide Fetch, Leads, At, Rel, After, Done, DoneTs, Back, Primitive, CallBuiltin;
    hide CodeT, CodeTs, CodeC, CodeCV, CodeB, CodeV, CodeL, CodeCond, CodeLoop, CodeFor;
    hide OkF, OkT, OkTs, OkC, OkB, OkBranch, LenT, LenTs, LenC, LenCV, LenB, LenV, LenL;
    hide EvalT, EvalPrim, EvalBump, EvalPut, EvalCond, EvalFor, EvalApply, EvalTs, EvalC, EvalB, EvalTest, EvalBody,
         EvalLoop, EvalCall;
    var l := OpenFor(t, st, fuel, m, p, c, r);
    var m1 := ConstStep(m, st, p, c, Plain(OpNull), VNull);
    Normally(VNull, st, st, m, m1, p + 1, c, 1);
    var r1 := EvalB(t.init, st, Room(m1), Depth(c), fuel);
    var m2 := SimB(t.init, st, fuel, m1, p + 1, Inner(c), r1);
    Trans(m, m1, m2);
    if !r1.Normal? {
      m' := m2;
      AbruptAbove(r1, st, m, st, m1, m2, p + 1, l.before, c, c, 1, p + LenT(t), 1);
      return;
    }
    ValueBelow(VNull, r1, st, m, st, m1, m2, p + 1, l.before, c);
    m' := SimLoop(l, VNull, r1.st, fuel, st, m, m2, c, r);
    Trans(m, m2, m');
  }

  /** A return from code that ran on top of something. */
  lemma {:induction false} AbruptAbove(r: Answer, st: Store, m: State, st1: Store, m1: State, m2: State, q1: nat,
                                       q2: nat, c: Place, c1: Place,
                    k: nat, q: nat, push: nat)
    requires !r.Normal? && After(st, m, st1, m1, q1, c, k) && Done(r, st1, m1, m2, q2, Inner(c1), 0)
    requires Inner(c1).(lp := c.lp, brk := c.brk, cont := c.cont) == c
    ensures Done(r, st, m, m2, q, c, push)
  {
    BackThrough(r.v, r.st, st, m, st1, m1, m2, q1, c, Inner(c1), k);
  }

  /** Code with no net effect on the stack leaves the value below it alone. */
  lemma {:induction false} ValueBelow(v: SValue, r: Answer, st: Store, m: State, st1: Store, m1: State, m2: State,
                                      q1: nat, q2: nat, c: Place)
    requires Done(Normal(v, st1), st, m, m1, q1, c, 1) && r.Normal? && Done(r, st1, m1, m2, q2, Inner(c), 0)
    ensures Done(Normal(v, r.st), st, m, m2, q2, c, 1)
  {
    AfterTrans(st, m, st1, m1, r.st, m2, q1, q2, c, Inner(c), 1, 0);
  }

  /** One round, then the rounds that follow; m0 is the state before the value of the loop was pushed. */
  lemma {:induction false} SimLoop(l: Layout, v: SValue, st: Store, fuel: nat, st0: Store, m0: State, m: State,
                                   c: Place, r: Answer)
    returns (m': State)
    requires LoopCode(l, c) && Done(Normal(v, st), st0, m0, m, l.before, c, 1)
    requires r == EvalLoop(l.until, l.body, l.inc, v, st, Room(m0), Depth(c), fuel) && r != Failed && MayReturn(r, c)
    ensures Leads(m, m') && Done(r, st0, m0, m', l.after, c, 1)
    decreases fuel, 0
  {
    hide Fetch, Leads, At, Rel, After, Done, DoneTs, Back, Primitive, CallBuiltin;
    hide CodeT, CodeTs, CodeC, CodeCV, CodeB, CodeV, CodeL, CodeCond, CodeLoop, CodeFor;
    hide OkF, OkT, OkTs, OkC, OkB, OkBranch, LenT, LenTs, LenC, LenCV, LenB, LenV, LenL;
    hide EvalT, EvalPrim, EvalBump, EvalPut, EvalCond, EvalFor, EvalApply, EvalTs, EvalC, EvalB, EvalTest, EvalBody,
         EvalLoop, EvalCall;
    hide LoopCode;
    OpenLoop(l, v, st, Room(m0), Depth(c), fuel, r);
    var r1 := EvalTest(l.until, st, Room(m0) - 1, Depth(c), fuel - 1);
    var m1 := SimTest(l, v, st, fuel - 1, st0, m0, m, c, r1);
    m' := m1;
    if !r1.Normal? || !Truthy(r1.v) {
      return;
    }
    var r2 := EvalBody(l.body, v, r1.st, Room(m0), Depth(c), fuel - 1);
    var m2, q := SimBody(l, v, r1.st, fuel - 1, st0, m0, m1, c, r2);
    Trans(m, m1, m2);
    m' := m2;
    if !r2.Normal? {
      return;
    }
    var r3 := EvalB(l.inc, r2.st, Room(m0) - 1, Depth(c), fuel - 1);
    var m3 := SimInc(l, r2.v, r2.st, fuel - 1, st0, m0, m2, q, c, r3);
    Trans(m, m2, m3);
    m' := m3;
    if r3.Normal? {
      m' := SimLoop(l, r2.v, r3.st, fuel - 1, st0, m0, m3, c, r);
      Trans(m, m3, m');
    }
  }

  lemma {:induction false} OpenLoop(l: Layout, v: SValue, st: Store, room: int, depth: nat, fuel: nat, r: Answer)
    requires r == EvalLoop(l.until, l.body, l.inc, v, st, room, depth, fuel) && r != Failed
    ensures fuel > 0
    ensures var a := EvalTest(l.until, st, room - 1, depth, fuel - 1);
            if !a.Normal? then r == a
            else if !Truthy(a.v) then r == Normal(v, a.st)
            else var b := EvalBody(l.body, v, a.st, room, depth, fuel - 1);
                 if b.Broke? then r == Normal(VNull, b.st)
                 else if !b.Normal? then r == b
                 else var e := EvalB(l.inc, b.st, room - 1, depth, fuel - 1);
                      if e.Normal? then r == EvalLoop(l.until, l.body, l.inc, b.v, e.st, room, depth, fuel - 1)
                      else r == e
  {
    hide EvalTest, EvalBody, EvalB, EvalT;
  }

  /** The test of a loop, from `before` to the body or past the end. */
  lemma {:induction false} SimTest(l: Layout, v: SValue, st: Store, fuel: nat, st0: Store, m0: State, m: State,
                                   c: Place, r: Answer)
    returns (m': State)
    requires LoopCode(l, c) && Done(Normal(v, st), st0, m0, m, l.before, c, 1)
    requires r == EvalTest(l.until, st, Room(m0) - 1, Depth(c), fuel) && r != Failed && MayReturn(r, c)
    ensures Leads(m, m')
    ensures if r.Normal? then Done(Normal(v, r.st), st0, m0, m', if Truthy(r.v) then l.start else l.after, c, 1)
            else Done(r, st0, m0, m', l.after, c, 1)
    decreases fuel, 2
  {
    hide Fetch, Leads, At, Rel, After, Done, DoneTs, Back, Primitive, CallBuiltin;
    hide CodeT, CodeTs, CodeC, CodeCV, CodeB, CodeV, CodeL, CodeCond, CodeLoop, CodeFor;
    hide OkF, OkT, OkTs, OkC, OkB, OkBranch, LenT, LenTs, LenC, LenCV, LenB, LenV, LenL;
    hide EvalT, EvalPrim, EvalBump, EvalPut, EvalCond, EvalFor, EvalApply, EvalTs, EvalC, EvalB, EvalTest, EvalBody,
         EvalLoop, EvalCall;
    OpenTest(l.until, st, Room(m0) - 1, Depth(c), fuel, r);
    Normally(v, st, st0, m0, m, l.before, c, 1);
    if l.until.None? {
      m' := m;
      Self(m);
      return;
    }
    var q := l.before + LenT(l.until.value);
    var m1 := SimT(l.until.value, st, fuel, m, l.before, Inner(c), r);
    if !r.Normal? {
      m' := m1;
      DoneAbrupt(r, st, m, m1, q, Inner(c), 1, q, 0);
      AbruptAbove(r, st0, m0, st, m, m1, l.before, q, c, c, 1, l.after, 1);
      return;
    }
    m' := TestStep(r.v, st, m, r.st, m1, q, Inner(c), l.after);
    Trans(m, m1, m');
    KeepValue(v, st0, m0, st, m, r.st, m', l.before, if Truthy(r.v) then l.start else l.after, c);
  }

  lemma {:induction false} OpenTest(until: Option<Term>, st: Store, room: int, depth: nat, fuel: nat, r: Answer)
    requires r == EvalTest(until, st, room, depth, fuel)
    ensures match until
            case None => r == Normal(VBool(true), st)
            case Some(t) => r == EvalT(t, st, room, depth, fuel)
  {
  }

  lemma {:induction false} Self(m: State)
    ensures Leads(m, m)
  {
    Runs.ReachesSelf(SurelyAdvance, m);
  }

  lemma {:induction false} KeepValue(v: SValue, st0: Store, m0: State, st: Store, m: State, st1: Store, m1: State,
                                     q: nat, q1: nat, c: Place)
    requires Done(Normal(v, st), st0, m0, m, q, c, 1) && After(st, m, st1, m1, q1, Inner(c), 0)
    ensures Done(Normal(v, st1), st0, m0, m1, q1, c, 1)
  {
    AfterTrans(st0, m0, st, m, st1, m1, q, q1, c, Inner(c), 1, 0);
  }

  /** Where the body of a loop runs: its own `break` and `continue`. */
  function InLoop(l: Layout, c: Place): Place { c.(brk := l.after, cont := l.cont, lp := true) }

  /** The body of a loop, from `start` to `next`, or where `continue` or `break` go. */
  lemma {:induction false} SimBody(l: Layout, v: SValue, st: Store, fuel: nat, st0: Store, m0: State, m: State,
                                   c: Place, r: Answer)
    returns (m': State, q: nat)
    requires LoopCode(l, c) && Done(Normal(v, st), st0, m0, m, l.start, c, 1)
    requires r == EvalBody(l.body, v, st, Room(m0), Depth(c), fuel) && r != Failed && MayReturn(r, c)
    ensures Leads(m, m') && !r.Continued?
    ensures r.Normal? ==> (q == l.next || q == l.cont) && Done(r, st0, m0, m', q, c, 1)
    ensures r.Broke? ==> Done(Normal(VNull, r.st), st0, m0, m', l.after, c, 1)
    ensures r.Returned? ==> Done(r, st0, m0, m', l.after, c, 1)
    decreases fuel, 2
  {
    hide Fetch, Leads, At, Rel, After, Done, DoneTs, Back, Primitive, CallBuiltin;
    hide CodeT, CodeTs, CodeC, CodeCV, CodeB, CodeV, CodeL, CodeCond, CodeLoop, CodeFor;
    hide OkF, OkT, OkTs, OkC, OkB, OkBranch, LenT, LenTs, LenC, LenCV, LenB, LenV, LenL;
    hide EvalT, EvalPrim, EvalBump, EvalPut, EvalCond, EvalFor, EvalApply, EvalTs, EvalC, EvalB, EvalTest, EvalBody,
         EvalLoop, EvalCall;
    OpenBody(l, v, st, Room(m0), Depth(c), fuel, c, r);
    q := l.next;
    if l.body == [] {
      m' := m;
      Self(m);
      return;
    }
    Normally(v, st, st0, m0, m, l.start, c, 1);
    var m1 := PopStep(v, st0, m0, st, m, l.start, c);
    Normally(v, st, st0, m0, m1, l.start + 1, c, 0);
    var b := InLoop(l, c);
    EnterLoop(st, m1, l.start + 1, c, l);
    var r1 := EvalB(l.body, st, Room(m0), Depth(c), fuel);
    var p1 := l.start + 1 + LenV(l.body);
    var m2 := SimV(l.body, st, fuel, m1, l.start + 1, b, r1);
    Trans(m, m1, m2);
    m' := m2;
    LeaveLoop(r1, st0, m0, st, m1, m2, l.start + 1, p1, c, l, Pushes(l.body));
    if r1.Continued? {
      q := l.cont;
    } else if r1.Normal? && !EndsInEval(l.body) {
      NullValue(l.body, st, Room(m0), Depth(c), fuel);
      m' := EndRound(r1.v, r1.st, st0, m0, m2, p1, c);
      Trans(m, m2, m');
    }
  }

  lemma {:induction false} OpenBody(l: Layout, v: SValue, st: Store, room: int, depth: nat, fuel: nat, c: Place,
                                    r: Answer)
    requires LoopCode(l, c) && r == EvalBody(l.body, v, st, room, depth, fuel)
    ensures l.body == [] ==> r == Normal(v, st) && l.next == l.start
    ensures OkB(l.body, true, c.pool) && l.after < LIMIT && l.cont < LIMIT
    ensures l.body != [] ==>
              && Fetch(c.fn.code, l.start) == Some(Plain(OpPop))
              && At(c.fn, l.start + 1, CodeV(l.body, l.start + 1, l.after, l.cont))
              && (EndsInEval(l.body) ==> l.next == l.start + 1 + LenV(l.body))
              && (!EndsInEval(l.body) ==>
                    && l.next == l.start + 2 + LenV(l.body)
                    && Fetch(c.fn.code, l.start + 1 + LenV(l.body)) == Some(Plain(OpNull)))
    ensures l.body != [] ==>
              var a := EvalB(l.body, st, room, depth, fuel);
              r == if a.Continued? then Normal(VNull, a.st) else a
  {
    hide Fetch, Encode, At, EvalB, CodeV, LenV, CodeT, CodeB, OkT, OkB, LenT, LenB;
    if l.body != [] {
      var x := CodeV(l.body, l.start + 1, l.after, l.cont);
      var y := if EndsInEval(l.body) then [] else Encode(Plain(OpNull));
      AtCat(c.fn, l.start, Encode(Plain(OpPop)), x + y);
      AtCat(c.fn, l.start + 1, x, y);
      AtFetch(c.fn, l.start, Plain(OpPop));
      if !EndsInEval(l.body) {
        AtFetch(c.fn, l.start + 1 + LenV(l.body), Plain(OpNull));
      }
    }
  }

  lemma {:induction false} EnterLoop(st: Store, m: State, p: nat, c: Place, l: Layout)
    requires Rel(m, st, p, c) && l.after < LIMIT && l.cont < LIMIT
    ensures Rel(m, st, p, InLoop(l, c))
  {
    hide GoodStore;
  }

  /** The outcome of a loop body, seen from outside the loop. */
  lemma {:induction false} LeaveLoop(r: Answer, st0: Store, m0: State, st: Store, m1: State, m2: State, q1: nat,
                                     q2: nat, c: Place, l: Layout, push: nat)
    requires After(st0, m0, st, m1, q1, c, 0) && Done(r, st, m1, m2, q2, InLoop(l, c), push)
    ensures r.Normal? ==> Done(r, st0, m0, m2, q2, c, push)
    ensures r.Continued? ==> Done(Normal(VNull, r.st), st0, m0, m2, l.cont, c, 1)
    ensures r.Broke? ==> Done(Normal(VNull, r.st), st0, m0, m2, l.after, c, 1)
    ensures r.Returned? ==> Done(r, st0, m0, m2, l.after, c, 1)
  {
    match r
    case Normal(v, st') => AfterTrans(st0, m0, st, m1, st', m2, q1, q2, c, InLoop(l, c), 0, push);
    case Broke(st') => AfterTrans(st0, m0, st, m1, st', m2, q1, l.after, c, InLoop(l, c), 0, 1);
    case Continued(st') => AfterTrans(st0, m0, st, m1, st', m2, q1, l.cont, c, InLoop(l, c), 0, 1);
    case Returned(v, st') => BackThrough(v, st', st0, m0, st, m1, m2, q1, c, InLoop(l, c), 0);
  }

  /** The null for a round without a value. */
  lemma {:induction false} EndRound(v: SValue, st1: Store, st0: Store, m0: State, m: State, q: nat, c: Place)
                                    returns (m': State)
    requires Done(Normal(v, st1), st0, m0, m, q, c, 0) && Fetch(c.fn.code, q) == Some(Plain(OpNull))
    requires m0.sp < STACK_SIZE
    ensures Leads(m, m') && Done(Normal(VNull, st1), st0, m0, m', q + 1, c, 1)
  {
    hide Leads, Fetch, GoodStore;
    m' := ConstStep(m, st1, q, c, Plain(OpNull), VNull);
    DoneThrough(Normal(VNull, st1), st0, m0, st1, m, m', q, q + 1, c, 1);
  }

  /** The increment and the jump back, from `next`; or nothing, when `continue` goes to the test. */
  lemma {:induction false} SimInc(l: Layout, v: SValue, st: Store, fuel: nat, st0: Store, m0: State, m: State, q: nat,
                                  c: Place, r: Answer)
    returns (m': State)
    requires LoopCode(l, c) && (q == l.next || q == l.cont) && Done(Normal(v, st), st0, m0, m, q, c, 1)
    requires r == EvalB(l.inc, st, Room(m0) - 1, Depth(c), fuel) && r != Failed && MayReturn(r, c)
    ensures Leads(m, m')
    ensures if r.Normal? then Done(Normal(v, r.st), st0, m0, m', l.before, c, 1)
            else Done(r, st0, m0, m', l.after, c, 1)
    decreases fuel, 2
  {
    hide Fetch, Leads, At, Rel, After, Done, DoneTs, Back, Primitive, CallBuiltin;
    hide CodeT, CodeTs, CodeC, CodeCV, CodeB, CodeV, CodeL, CodeCond, CodeLoop, CodeFor;
    hide OkF, OkT, OkTs, OkC, OkB, OkBranch, LenT, LenTs, LenC, LenCV, LenB, LenV, LenL;
    hide EvalT, EvalPrim, EvalBump, EvalPut, EvalCond, EvalFor, EvalApply, EvalTs, EvalC, EvalB, EvalTest, EvalBody,
         EvalLoop, EvalCall;
    OpenInc(l, st, Room(m0) - 1, Depth(c), fuel, c, r);
    if q != l.next {
      m' := m;
      Self(m);
      return;
    }
    Normally(v, st, st0, m0, m, q, c, 1);
    var p1 := q + LenB(l.inc);
    var m1 := SimB(l.inc, st, fuel, m, q, Inner(c), r);
    if !r.Normal? {
      m' := m1;
      AbruptAbove(r, st0, m0, st, m, m1, q, p1, c, c, 1, l.after, 1);
      return;
    }
    ValueBelow(v, r, st0, m0, st, m, m1, q, p1, c);
    m' := EndBranch(v, r.st, st0, m0, m1, p1, c, l.before);
    Trans(m, m1, m');
  }

  lemma {:induction false} OpenInc(l: Layout, st: Store, room: int, depth: nat, fuel: nat, c: Place, r: Answer)
    requires LoopCode(l, c) && r == EvalB(l.inc, st, room, depth, fuel)
    ensures At(c.fn, l.next, CodeB(l.inc, l.next, c.brk, c.cont)) && OkB(l.inc, false, c.pool)
    ensures Fetch(c.fn.code, l.next + LenB(l.inc)) == Some(Instr(OpJump, l.before))
    ensures l.cont == l.next || (l.cont == l.before && r == Normal(VNull, st))
  {
    hide Fetch, At, CodeB, OkB, LenB, CodeL, CodeT, OkT, LenT, LenL;
  }

  // ---- calls ----

  lemma {:induction false} SimCall(t: Term, st: Store, fuel: nat, m: State, p: nat, c: Place, r: Answer)
    returns (m': State)
    requires t.Call?
    requires Rel(m, st, p, c) && At(c.fn, p, CodeT(t, p, c.brk, c.cont)) && OkT(t, c.lp, c.pool)
    requires r == EvalT(t, st, Room(m), Depth(c), fuel) && r != Failed && MayReturn(r, c)
    ensures Leads(m, m') && Done(r, st, m, m', p + LenT(t), c, 1)
    decreases fuel, 1, t, 0
  {
    hide Fetch, Leads, At, Rel, After, Done, DoneTs, Back, Primitive, CallBuiltin;
    hide CodeT, CodeTs, CodeC, CodeCV, CodeB, CodeV, CodeL, CodeCond, CodeLoop, CodeFor;
    hide OkF, OkT, OkTs, OkC, OkB, OkBranch, LenT, LenTs, LenC, LenCV, LenB, LenV, LenL;
    hide EvalT, EvalPrim, EvalBump, EvalPut, EvalCond, EvalFor, EvalApply, EvalTs, EvalC, EvalB, EvalTest, EvalBody,
         EvalLoop, EvalCall;
    OpenCall(t, st, fuel, m, p, c, r);
    var p1 := p + LenT(t.callee);
    var r1 := EvalT(t.callee, st, Room(m), Depth(c), fuel);
    var m1 := SimT(t.callee, st, fuel, m, p, c, r1);
    if !r1.Normal? {
      m' := m1;
      DoneAbrupt(r1, st, m, m1, p1, c, 1, p + LenT(t), 1);
      return;
    }
    Normally(r1.v, r1.st, st, m, m1, p1, c, 1);
    var p2 := p1 + LenTs(t.args);
    var r2 := EvalTs(t.args, r1.st, Room(m1), Depth(c), fuel);
    var m2 := SimTs(t.args, r1.st, fuel, m1, p1, Inner(c), r2);
    Trans(m, m1, m2);
    match r2 {
      case Stopped(a) =>
        m' := m2;
        StoppedDone(a, r1.st, m1, m2, p2, Inner(c), p2, 0);
        AbruptAbove(a, st, m, r1.st, m1, m2, p1, p2, c, c, 1, p + LenT(t), 1);
      case Values(vs, st2) =>
        m' := SimApply(r1.v, vs, st2, fuel, st, m, r1.st, m1, m2, p1, p2, c, r);
        Trans(m, m2, m');
    }
  }

  lemma {:induction false} OpenCall(t: Term, st: Store, fuel: nat, m: State, p: nat, c: Place, r: Answer)
    requires t.Call?
    requires Rel(m, st, p, c) && At(c.fn, p, CodeT(t, p, c.brk, c.cont)) && OkT(t, c.lp, c.pool)
    requires r == EvalT(t, st, Room(m), Depth(c), fuel) && r != Failed
    ensures var q := p + LenT(t.callee);
            && At(c.fn, p, CodeT(t.callee, p, c.brk, c.cont)) && OkT(t.callee, c.lp, c.pool)
            && At(c.fn, q, CodeTs(t.args, q, c.brk, c.cont)) && OkTs(t.args, false, c.pool)
            && Fetch(c.fn.code, q + LenTs(t.args)) == Some(Instr(OpCall, |t.args|))
            && p + LenT(t) == q + LenTs(t.args) + 2
    ensures var a := EvalT(t.callee, st, Room(m), Depth(c), fuel);
            if !a.Normal? then r == a
            else var b := EvalTs(t.args, a.st, Room(m) - 1, Depth(c), fuel);
                 match b
                 case Stopped(e) => r == e
                 case Values(vs, st2) => |vs| == |t.args| && r == EvalCall(a.v, vs, st2, Room(m), Depth(c), fuel)
  {
    hide Fetch, Encode, At, Rel, CodeTs, LenTs, EvalCall, EvalB, EvalLoop;
    var q := p + LenT(t.callee);
    var args, call := CodeTs(t.args, q, c.brk, c.cont), Instr(OpCall, |t.args|);
    AtCat(c.fn, p, CodeT(t.callee, p, c.brk, c.cont), args + Encode(call));
    AtCat(c.fn, q, args, Encode(call));
    AtFetch(c.fn, q + LenTs(t.args), call);
  }

  /**
   The call itself: m is the state before the callee was pushed, m1 before the
   arguments were, m2 after them.
   */
  lemma {:induction false} SimApply(callee: SValue, vs: seq<SValue>, st2: Store, fuel: nat,
                                    st: Store, m: State, st1: Store, m1: State, m2: State, p1: nat, p2: nat, c: Place,
                                      r: Answer)
    returns (m': State)
    requires Done(Normal(callee, st1), st, m, m1, p1, c, 1) && DoneTs(Values(vs, st2), st1, m1, m2, p2, Inner(c))
    requires Fetch(c.fn.code, p2) == Some(Instr(OpCall, |vs|))
    requires r == EvalCall(callee, vs, st2, Room(m), Depth(c), fuel) && r != Failed
    ensures Leads(m2, m') && Done(r, st, m, m', p2 + 2, c, 1)
    decreases fuel, 0
  {
    hide Fetch, Leads, At, Rel, After, Done, DoneTs, Back, Primitive, CallBuiltin;
    hide CodeT, CodeTs, CodeC, CodeCV, CodeB, CodeV, CodeL, CodeCond, CodeLoop, CodeFor;
    hide OkF, OkT, OkTs, OkC, OkB, OkBranch, LenT, LenTs, LenC, LenCV, LenB, LenV, LenL;
    hide EvalT, EvalPrim, EvalBump, EvalPut, EvalCond, EvalFor, EvalApply, EvalTs, EvalC, EvalB, EvalTest, EvalBody,
         EvalLoop, EvalCall;
    OpenApply(callee, vs, st2, Room(m), Depth(c), fuel, r);
    match callee
    case VBuiltin(i) =>
      m' := BuiltinDone(i, vs, st2, st, m, st1, m1, m2, p1, p2, c);
    case VFun(f) =>
      var c3, m3 := CalleeReady(f, vs, st2, st, m, st1, m1, m2, p1, p2, c);
      CallFits(f, vs, st2, st, m, st1, m1, m2, p1, p2, c);
      CalleeCode(f);
      var st3 := st2.(locals := Parameters(f.numLocals, vs));
      var r3 := EvalB(f.body, st3, Room(m3), Depth(c3), fuel - 1);
      var m4 := SimV(f.body, st3, fuel - 1, m3, 0, c3, r3);
      Trans(m2, m3, m4);
      var m5 := FunctionEnd(f, r3, st3, fuel - 1, m3, m4, c3);
      Trans(m2, m4, m5);
      m' := m5;
      CallDone(r3.v, r3.st, st3, m3, m5, c3, f, vs, st2, st, m, st1, m1, m2, p1, p2, c);
    case _ =>
  }

  lemma {:induction false} OpenApply(callee: SValue, vs: seq<SValue>, st2: Store, room: int, depth: nat, fuel: nat,
                                     r: Answer)
    requires r == EvalCall(callee, vs, st2, room, depth, fuel) && r != Failed
    ensures callee.VBuiltin? || callee.VFun?
    ensures callee.VBuiltin? ==>
              && |vs| <= ARGS_SIZE && CallBuiltin(callee.i, st2.heap, vs).Some? && room >= 1
              && var (h, v) := CallBuiltin(callee.i, st2.heap, vs).value; r == Normal(v, st2.(heap := h))
    ensures callee.VFun? ==>
              && fuel > 0 && depth > 0 && callee.f.numLocals <= room - 1
              && var a := EvalB(callee.f.body, st2.(locals := Parameters(callee.f.numLocals, vs)),
                                room - 1 - callee.f.numLocals, depth - 1, fuel - 1);
                 (a.Normal? || a.Returned?) && r == Normal(a.v, a.st.(locals := st2.locals))
  {
    hide EvalB, EvalT;
  }

  lemma {:induction false} BuiltinDone(i: nat, vs: seq<SValue>, st2: Store, st: Store, m: State, st1: Store, m1: State,
                                       m2: State, p1: nat, p2: nat, c: Place)
    returns (m': State)
    requires Done(Normal(VBuiltin(i), st1), st, m, m1, p1, c, 1) && DoneTs(Values(vs, st2), st1, m1, m2, p2, Inner(c))
    requires Fetch(c.fn.code, p2) == Some(Instr(OpCall, |vs|))
    requires |vs| <= ARGS_SIZE && CallBuiltin(i, st2.heap, vs).Some?
    ensures Leads(m2, m')
    ensures var (h, v) := CallBuiltin(i, st2.heap, vs).value; Done(Normal(v, st2.(heap := h)), st, m, m', p2 + 2, c, 1)
  {
    hide Fetch, CallBuiltin, OkF, GoodStore, Leads;
    m' := BuiltinStep(st1, m1, st2, m2, p2, Inner(c), i, vs);
    assert GoodStore(st2.(heap := CallBuiltin(i, st2.heap, vs).value.0), c.pool);
  }

  lemma {:induction false} CalleeReady(f: Fun, vs: seq<SValue>, st2: Store, st: Store, m: State, st1: Store, m1: State,
                                       m2: State, p1: nat, p2: nat, c: Place)
    returns (c3: Place, m3: State)
    requires Done(Normal(VFun(f), st1), st, m, m1, p1, c, 1) && DoneTs(Values(vs, st2), st1, m1, m2, p2, Inner(c))
    requires Fetch(c.fn.code, p2) == Some(Instr(OpCall, |vs|))
    requires Depth(c) > 0 && f.numLocals <= Room(m) - 1
    ensures c3 == CalleeAt(m1.sp, p2, Inner(c), f) && m3 == CalleeState(m2, m1.sp, p2, Inner(c), f)
    ensures Leads(m2, m3) && Rel(m3, st2.(locals := Parameters(f.numLocals, vs)), 0, c3)
    ensures Room(m3) == Room(m) - 1 - f.numLocals && Depth(c3) == Depth(c) - 1
    ensures c3.below != [] && 1 <= c3.base
  {
    hide Fetch, GoodStore, CodeV, CodeF, CodeT, OkB, OkT, LenV, LenT, Leads, At, Rel, Done, DoneTs, After;
    c3 := CalleeAt(m1.sp, p2, Inner(c), f);
    m3 := CalleeState(m2, m1.sp, p2, Inner(c), f);
    CallFits(f, vs, st2, st, m, st1, m1, m2, p1, p2, c);
    CallRuns(m2, |vs|, p2, Inner(c), f);
    CalleeRel(st1, m1, st2, m2, p2, Inner(c), f, vs);
  }

  /** The callee is below its arguments, and its frame fits. */
  lemma {:induction false} CallFits(f: Fun, vs: seq<SValue>, st2: Store, st: Store, m: State, st1: Store, m1: State,
                                    m2: State, p1: nat, p2: nat, c: Place)
    requires Done(Normal(VFun(f), st1), st, m, m1, p1, c, 1) && DoneTs(Values(vs, st2), st1, m1, m2, p2, Inner(c))
    requires Depth(c) > 0 && f.numLocals <= Room(m) - 1
    ensures Shape(m2) && m2.frames == c.below + [Frame(c.fn, p2, c.base)]
    ensures |c.below| + 1 < FRAMES_SIZE && m1.sp == m.sp + 1 && m2.sp == m1.sp + |vs|
    ensures m1.sp + f.numLocals <= STACK_SIZE
    ensures m2.stack[m1.sp - 1] == LowV(VFun(f))
    ensures OkB(f.body, false, c.pool) && |CodeF(f.body)| < LIMIT
  {
    hide Fetch, GoodStore, CodeF, OkB;
  }

  lemma {:induction false} CalleeCode(f: Fun)
    ensures At(Lower(f), 0, CodeV(f.body, 0, JUMP_PLACEHOLDER_BREAK, JUMP_PLACEHOLDER_CONTINUE))
    ensures EndsInEval(f.body) ==> Fetch(Lower(f).code, LenV(f.body)) == Some(Plain(OpReturnValue))
    ensures !EndsInEval(f.body) && !EndsInReturn(f.body) ==> Fetch(Lower(f).code, LenV(f.body)) == Some(Plain(OpReturn))
  {
    hide Fetch, Encode, CodeV, LenV;
    var code := CodeV(f.body, 0, JUMP_PLACEHOLDER_BREAK, JUMP_PLACEHOLDER_CONTINUE);
    var last := if EndsInEval(f.body) then Encode(Plain(OpReturnValue))
                else if EndsInReturn(f.body) then [] else Encode(Plain(OpReturn));
    assert At(Lower(f), 0, code + last);
    AtCat(Lower(f), 0, code, last);
    if EndsInEval(f.body) {
      AtFetch(Lower(f), LenV(f.body), Plain(OpReturnValue));
    } else if !EndsInReturn(f.body) {
      AtFetch(Lower(f), LenV(f.body), Plain(OpReturn));
    }
  }

  /** The end of a function body, by a `return` or by running off its end. */
  lemma {:induction false} FunctionEnd(f: Fun, r: Answer, st: Store, fuel: nat, m: State, m1: State, c: Place)
                                       returns (m': State)
    requires Done(r, st, m, m1, LenV(f.body), c, Pushes(f.body)) && (r.Normal? || r.Returned?)
    requires r == EvalB(f.body, st, Room(m), Depth(c), fuel)
    requires c.below != [] && 1 <= c.base
    requires EndsInEval(f.body) ==> Fetch(c.fn.code, LenV(f.body)) == Some(Plain(OpReturnValue))
    requires !EndsInEval(f.body) && !EndsInReturn(f.body) ==> Fetch(c.fn.code, LenV(f.body)) == Some(Plain(OpReturn))
    ensures Leads(m1, m') && Back(r.v, r.st, m, m', c)
  {
    hide Fetch, Leads, Rel, After, Back, LenV, EvalB, GoodV;
    if r.Returned? {
      m' := m1;
      Self(m1);
      return;
    }
    Normally(r.v, r.st, st, m, m1, LenV(f.body), c, Pushes(f.body));
    var i := Plain(if EndsInEval(f.body) then OpReturnValue else OpReturn);
    if EndsInReturn(f.body) {
      NoFallThrough(f.body, st, Room(m), Depth(c), fuel);
    }
    if !EndsInEval(f.body) {
      NullValue(f.body, st, Room(m), Depth(c), fuel);
    }
    m' := ReturnStep(m1, r.st, LenV(f.body), c, i, r.v);
    BackThrough(r.v, r.st, st, m, r.st, m1, m', LenV(f.body), c, c, Pushes(f.body));
  }

  /** The caller after the return: its locals are what they were, the result replaces callee and arguments. */
  lemma {:induction false} CallDone(v: SValue, st4: Store, st3: Store, m3: State, m5: State, c3: Place, f: Fun,
                                    vs: seq<SValue>,
                 st2: Store, st: Store, m: State, st1: Store, m1: State, m2: State, p1: nat, p2: nat, c: Place)
    requires Done(Normal(VFun(f), st1), st, m, m1, p1, c, 1) && DoneTs(Values(vs, st2), st1, m1, m2, p2, Inner(c))
    requires c3 == CalleeAt(m1.sp, p2, Inner(c), f) && m3 == CalleeState(m2, m1.sp, p2, Inner(c), f)
    requires Back(v, st4, m3, m5, c3)
    ensures Done(Normal(v, st4.(locals := st2.locals)), st, m, m5, p2 + 2, c, 1)
  {
    hide OkF, GoodVs, GoodH;
    var st5 := st4.(locals := st2.locals);
    assert m5.frames == c.below + [Frame(c.fn, p2 + 2, c.base)];
    assert GoodStore(st5, c.pool);
    forall i | 0 <= i < |st5.locals| && st5.locals[i].Some?
      ensures m5.stack[c.base + i] == LowV(st5.locals[i].value)
    {
      assert m2.stack[c.base + i] == LowV(st2.locals[i].value);
    }
  }
}
