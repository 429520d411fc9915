/** Compiled code does what the program means. */
module Simulation {
  import opened Wrappers
  import opened Opcodes
  import opened Core
  import opened Codegen
  import opened Objects
  import opened Naturality
  import opened Semantics
  import opened Machine
  import Runs

  function Lower(f: Fun): Compiled { Compiled(CodeF(f.body), f.numLocals) }

  function LowV(v: SValue): MValue { MapV(Lower, v) }

  // ---- the programs the theorem is about ----

  /** Byte offsets and operands that survive the encoding in two bytes. */
  const LIMIT: nat := 0x1_0000

  /** Slots fit their operands. */
  predicate FitsVar(v: Var) { Fits(GetOp(v)) && Fits(SetOp(v)) }

  /**
   The pool holds the constants of t, operands fit, the value of every branch is
   on the stack when it ends, and `break`/`continue` occur only where the stack
   is as high as at the start of the loop body (`lp`).
   */
  ghost predicate OkT(t: Term, lp: bool, pool: seq<MValue>)
    decreases t, 0
  {
    match t
    case Const(k, lit) => k < |pool| && k < LIMIT && pool[k] == LitV(lit)
    case Lambda(k, f) => k < |pool| && k < LIMIT && pool[k] == VFun(Lower(f)) && OkF(f, pool)
    case Null => true
    case Truth(_) => true
    case Get(v) => FitsVar(v)
    case Prim(op, args) => |args| == Arity(op, |args|) && |args| < LIMIT && OkTs(args, lp, pool)
    case Bump(_, v, k) => FitsVar(v) && k < |pool| && k < LIMIT && pool[k] == VInt(1)
    case Put(v, e) => FitsVar(v) && OkT(e, lp, pool)
    case Cond(c, x, y) => OkT(c, lp, pool) && OkBranch(x, lp, pool) && OkBranch(y, lp, pool)
    case Loop(c, body) => OkT(c, false, pool) && OkB(body, true, pool)
    case ForLoop(init, until, inc, body) =>
      OkB(init, false, pool) && (match until case None => true case Some(c) => OkT(c, false, pool))
      && OkB(inc, false, pool) && OkB(body, true, pool)
    case Call(f, args) => OkT(f, lp, pool) && |args| < 256 && OkTs(args, false, pool)
  }

  ghost predicate OkTs(ts: seq<Term>, lp: bool, pool: seq<MValue>)
    decreases ts, 0
  {
    ts == [] || (OkT(ts[0], lp, pool) && OkTs(ts[1..], false, pool))
  }

  ghost predicate OkC(c: Cmd, lp: bool, pool: seq<MValue>)
    decreases c, 0
  {
    match c
    case Define(v, e) => FitsVar(v) && OkT(e, lp, pool)
    case Return(e) => OkT(e, lp, pool)
    case Eval(e) => OkT(e, lp, pool)
    case Break => lp
    case Continue => lp
  }

  ghost predicate OkB(b: seq<Cmd>, lp: bool, pool: seq<MValue>)
    decreases b, 0
  {
    b == [] || (OkC(b[0], lp, pool) && OkB(b[1..], lp, pool))
  }

  /** A branch is not empty and does not end in a declaration. */
  ghost predicate OkBranch(b: seq<Cmd>, lp: bool, pool: seq<MValue>)
    decreases b, 1
  {
    b != [] && !b[|b| - 1].Define? && OkB(b, lp, pool)
  }

  ghost predicate OkF(f: Fun, pool: seq<MValue>)
    decreases f, 0
  {
    OkB(f.body, false, pool) && |CodeF(f.body)| < LIMIT
  }

  // ---- values whose functions are such programs ----

  ghost predicate GoodV(v: SValue, pool: seq<MValue>) {
    v.VFun? ==> OkF(v.f, pool)
  }

  ghost predicate GoodVs(vs: seq<SValue>, pool: seq<MValue>) {
    forall i | 0 <= i < |vs| :: GoodV(vs[i], pool)
  }

  ghost predicate GoodH(h: Heap<Fun>, pool: seq<MValue>) {
    forall i | 0 <= i < |h| :: GoodVs(h[i], pool)
  }

  ghost predicate GoodStore(st: Store, pool: seq<MValue>) {
    && GoodVs(st.globals, pool) && GoodH(st.heap, pool)
    && (forall i | 0 <= i < |st.locals| && st.locals[i].Some? :: GoodV(st.locals[i].value, pool))
  }

  /** Replaces every other function by an empty one. */
  ghost function Cleaner(pool: seq<MValue>): Fun -> Fun {
    f => if OkF(f, pool) then f else Fun(0, [])
  }

  lemma {:induction false} CleanV(v: SValue, pool: seq<MValue>)
    ensures GoodV(v, pool) <==> MapV(Cleaner(pool), v) == v
  {
    if v.VFun? && !OkF(v.f, pool) {
      assert OkF(Fun(0, []), pool);
    }
  }

  lemma {:induction false} CleanVs(vs: seq<SValue>, pool: seq<MValue>)
    ensures GoodVs(vs, pool) <==> MapVs(Cleaner(pool), vs) == vs
  {
    forall i | 0 <= i < |vs| ensures GoodV(vs[i], pool) <==> MapV(Cleaner(pool), vs[i]) == vs[i] {
      CleanV(vs[i], pool);
    }
  }

  lemma {:induction false} CleanH(h: Heap<Fun>, pool: seq<MValue>)
    ensures GoodH(h, pool) <==> MapH(Cleaner(pool), h) == h
  {
    forall i | 0 <= i < |h| ensures GoodVs(h[i], pool) <==> MapVs(Cleaner(pool), h[i]) == h[i] {
      CleanVs(h[i], pool);
    }
  }

  /** Operators make no functions of their own. */
  lemma {:induction false} PrimitiveGood(op: Opcode, h: Heap<Fun>, vs: seq<SValue>, pool: seq<MValue>)
    requires GoodH(h, pool) && GoodVs(vs, pool) && Primitive(op, h, vs).Some?
    ensures GoodH(Primitive(op, h, vs).value.0, pool) && GoodV(Primitive(op, h, vs).value.1, pool)
  {
    CleanH(h, pool);
    CleanVs(vs, pool);
    PrimNatural(Cleaner(pool), op, h, vs);
    CleanH(Primitive(op, h, vs).value.0, pool);
    CleanV(Primitive(op, h, vs).value.1, pool);
  }

  lemma {:induction false} BuiltinGood(i: nat, h: Heap<Fun>, vs: seq<SValue>, pool: seq<MValue>)
    requires GoodH(h, pool) && GoodVs(vs, pool) && CallBuiltin(i, h, vs).Some?
    ensures GoodH(CallBuiltin(i, h, vs).value.0, pool) && GoodV(CallBuiltin(i, h, vs).value.1, pool)
  {
    CleanH(h, pool);
    CleanVs(vs, pool);
    BuiltinNatural(Cleaner(pool), i, h, vs);
    CleanH(CallBuiltin(i, h, vs).value.0, pool);
    CleanV(CallBuiltin(i, h, vs).value.1, pool);
  }

  // ---- machine states that represent a store ----

  /**
   Where some code runs: the function, its base pointer, the frames below, the
   targets of `break` and `continue` if there are any, and the constants.
   */
  datatype Place = Place(fn: Compiled, base: nat, below: seq<Frame>, brk: nat, cont: nat, lp: bool, pool: seq<MValue>)

  predicate Limits(c: Place) { |c.fn.code| < LIMIT && c.brk < LIMIT && c.cont < LIMIT }

  /** m is at byte p of the code and represents st: local slots agree where the store has a value. */
  ghost predicate Rel(m: State, st: Store, p: nat, c: Place) {
    match m
    case State(stack, sp, frames, globals, constants, heap) =>
      && Shape(m) && Limits(c)
      && constants == c.pool
      && frames == c.below + [Frame(c.fn, p, c.base)]
      && c.base + |st.locals| <= sp
      && globals == MapVs(Lower, st.globals)
      && heap == MapH(Lower, st.heap)
      && (forall i | 0 <= i < |st.locals| && st.locals[i].Some? :: stack[c.base + i] == LowV(st.locals[i].value))
      && GoodStore(st, c.pool)
  }

  /** Nothing below the stack pointer of m changed, but for the n local slots. */
  ghost predicate Kept(m: State, m': State, base: nat, n: nat) {
    match m
    case State(stack, sp, _, _, _, _) =>
      && |stack| == |m'.stack| && sp <= |stack|
      && forall j | 0 <= j < sp && (j < base || j >= base + n) :: m'.stack[j] == stack[j]
  }

  /** m' follows m with k more values on the stack and st' for its store, at byte q. */
  ghost predicate After(st: Store, m: State, st': Store, m': State, q: nat, c: Place, k: nat) {
    match c
    case Place(_, base, _, _, _, _, _) =>
      && Rel(m', st', q, c) && |st'.locals| == |st.locals| && Kept(m, m', base, |st.locals|)
      && base + |st.locals| <= m.sp && m'.sp == m.sp + k
  }

  /**
   m' is where m gets to by code that ends at byte q, given its outcome; the
   code leaves `push` values on the stack when it ends normally.
   */
  ghost predicate Done(r: Answer, st: Store, m: State, m': State, q: nat, c: Place, push: nat) {
    match r
    case Failed => false
    case Normal(v, st') =>
      After(st, m, st', m', q, c, push) && GoodV(v, c.pool) && (push > 0 ==> m'.stack[m.sp] == LowV(v))
    case Broke(st') => c.lp && After(st, m, st', m', c.brk, c, 1) && m'.stack[m.sp] == VNull
    case Continued(st') => c.lp && After(st, m, st', m', c.cont, c, 1) && m'.stack[m.sp] == VNull
    case Returned(v, st') => Back(v, st', m, m', c)
  }

  /** What a sequence of operands leaves on the stack. */
  ghost predicate DoneTs(r: Answers, st: Store, m: State, m': State, q: nat, c: Place) {
    match r
    case Stopped(a) => !a.Normal? && Done(a, st, m, m', q, c, 0)
    case Values(vs, st') =>
      After(st, m, st', m', q, c, |vs|) && m'.stack[m.sp..m'.sp] == MapVs(Lower, vs) && GoodVs(vs, c.pool)
  }

  /** The caller of the frame of m has the result in place of the callee, and everything below as it was. */
  ghost predicate Back(v: SValue, st': Store, m: State, m': State, c: Place) {
    match c
    case Place(_, base, below, _, _, _, pool) =>
      && Shape(m') && m'.constants == pool
      && below != [] && 1 <= base <= m.sp <= |m.stack| == |m'.stack|
      && m'.frames == Resumed(below)
      && m'.sp == base && m'.stack[base - 1] == LowV(v) && GoodV(v, pool)
      && (forall j | 0 <= j < base - 1 :: m'.stack[j] == m.stack[j])
      && m'.globals == MapVs(Lower, st'.globals) && m'.heap == MapH(Lower, st'.heap)
      && GoodVs(st'.globals, pool) && GoodH(st'.heap, pool)
  }

  /** The frames after a return: the caller moves past the operand of its CALL. */
  function Resumed(below: seq<Frame>): seq<Frame>
    requires below != []
  {
    var caller := below[|below| - 1];
    below[..|below| - 1] + [caller.(ip := caller.ip + 1)]
  }

  /** A result that a return can carry: the caller exists. */
  ghost predicate MayReturn(r: Answer, c: Place) {
    r.Returned? ==> c.below != [] && 1 <= c.base
  }

  /** The same place, but not one where `break` or `continue` can occur. */
  function Inner(c: Place): Place { c.(lp := false) }

  // ---- runs that read what was written ----

  /** What no value of the source becomes: a function without code. */
  predicate Written(v: MValue) { v != VFun(Compiled([], 0)) }

  predicate AllWritten(vs: seq<MValue>) { forall i | 0 <= i < |vs| :: Written(vs[i]) }

  /** The instruction reads no stack slot that holds the one value nothing was compiled to. */
  predicate Sure(m: State, i: Instr)
    requires Shape(m)
  {
    if IsOperator(i.op) then
      Arity(i.op, i.arg) <= m.sp ==> AllWritten(m.stack[m.sp - Arity(i.op, i.arg)..m.sp])
    else
    match i.op
    case OpJumpNotTrue => m.sp > 0 ==> Written(m.stack[m.sp - 1])
    case OpSetGlobal => m.sp > 0 ==> Written(m.stack[m.sp - 1])
    case OpSetLocal => m.sp > 0 ==> Written(m.stack[m.sp - 1])
    case OpReturnValue => m.sp > 0 ==> Written(m.stack[m.sp - 1])
    case OpGetLocal => Top(m).base + i.arg < STACK_SIZE ==> Written(m.stack[Top(m).base + i.arg])
    case OpCall =>
      i.arg + 1 <= m.sp ==>
        && Written(m.stack[m.sp - 1 - i.arg])
        && (m.stack[m.sp - 1 - i.arg].VBuiltin? ==> AllWritten(m.stack[m.sp - i.arg..m.sp]))
    case _ => true
  }

  function SurelyAdvance(m: State): Option<State> {
    if !Shape(m) then None else
    match Fetch(Top(m).fn.code, Top(m).ip)
    case None => None
    case Some(i) => if Sure(m, i) && Exec(m, i).Next? then Some(Exec(m, i).m) else None
  }

  /** A run from m to m', in which no instruction depends on what was left on the stack. */
  ghost predicate Leads(m: State, m': State) {
    Runs.Reaches(SurelyAdvance, m, m')
  }

  lemma {:induction false} ReturnLen(b: seq<Cmd>)
    requires EndsInReturn(b)
    ensures LenV(b) >= 1
  {
    hide LenT;
    if |b| > 1 {
      ReturnLen(b[1..]);
    } else {
      assert LenV(b) == LenCV(b[0]) == LenC(b[0]);
    }
  }

  lemma {:induction false} LowWritten(v: SValue)
    ensures Written(LowV(v))
  {
    hide CodeV, LenV;
    if v.VFun? && EndsInReturn(v.f.body) {
      ReturnLen(v.f.body);
    }
  }

  lemma {:induction false} LowAllWritten(vs: seq<SValue>)
    ensures AllWritten(MapVs(Lower, vs))
  {
    hide CodeF;
    forall i | 0 <= i < |vs| ensures Written(MapVs(Lower, vs)[i]) { LowWritten(vs[i]); }
  }

  // ---- putting runs together ----

  lemma {:induction false} Trans(m: State, m1: State, m2: State)
    requires Leads(m, m1) && Leads(m1, m2)
    ensures Leads(m, m2)
  {
    Runs.ReachesTrans(SurelyAdvance, m, m1, m2);
  }

  lemma {:induction false} Start(st: Store, m: State, p: nat, c: Place)
    requires Rel(m, st, p, c)
    ensures Leads(m, m) && After(st, m, st, m, p, c, 0) && GoodV(VNull, c.pool)
  {
    Runs.ReachesSelf(SurelyAdvance, m);
  }

  lemma {:induction false} AfterTrans(st: Store, m: State, st1: Store, m1: State, st2: Store, m2: State, q1: nat,
                                      q2: nat, c: Place, c2: Place, k: nat, j: nat)
    requires After(st, m, st1, m1, q1, c, k) && After(st1, m1, st2, m2, q2, c2, j)
    requires c2.(lp := c.lp, brk := c.brk, cont := c.cont) == c
    ensures After(st, m, st2, m2, q2, c, k + j)
    ensures forall i | m.sp <= i < m1.sp :: m2.stack[i] == m1.stack[i]
  {
    hide GoodStore;
  }

  /** A run that starts from m1, in the frame of m, may return on behalf of m. */
  lemma {:induction false} BackThrough(v: SValue, st2: Store, st: Store, m: State, st1: Store, m1: State, m2: State,
                                       q1: nat, c: Place, c1: Place, k: nat)
    requires After(st, m, st1, m1, q1, c, k) && Back(v, st2, m1, m2, c1)
    requires c1.(lp := c.lp, brk := c.brk, cont := c.cont) == c
    ensures Back(v, st2, m, m2, c)
  {
    hide GoodStore, GoodVs, GoodH;
  }

  /** The same outcome for a run that starts at m with the stack as high as at m1. */
  lemma {:induction false} DoneThrough(r: Answer, st: Store, m: State, st1: Store, m1: State, m2: State, q1: nat,
                                       q: nat, c: Place, push: nat)
    requires After(st, m, st1, m1, q1, c, 0) && Done(r, st1, m1, m2, q, c, push)
    ensures Done(r, st, m, m2, q, c, push)
  {
    match r
    case Normal(v, st') => AfterTrans(st, m, st1, m1, st', m2, q1, q, c, c, 0, push);
    case Broke(st') => AfterTrans(st, m, st1, m1, st', m2, q1, c.brk, c, c, 0, 1);
    case Continued(st') => AfterTrans(st, m, st1, m1, st', m2, q1, c.cont, c, c, 0, 1);
    case Returned(v, st') => BackThrough(v, st', st, m, st1, m1, m2, q1, c, c, 0);
  }

  /** An outcome other than normal says nothing about the end of the code. */
  lemma {:induction false} DoneAbrupt(r: Answer, st: Store, m: State, m': State, q: nat, c: Place, push: nat, q': nat,
                                      push': nat)
    requires !r.Normal? && Done(r, st, m, m', q, c, push)
    ensures Done(r, st, m, m', q', c, push')
  {
  }

  /** Operands after the first. */
  lemma {:induction false} DoneCons(v: SValue, r: Answers, st: Store, m: State, st1: Store, m1: State, m2: State,
                                    q1: nat, q: nat, c: Place)
    requires Done(Normal(v, st1), st, m, m1, q1, c, 1) && DoneTs(r, st1, m1, m2, q, Inner(c))
    ensures DoneTs(match r case Values(vs, st2) => Values([v] + vs, st2) case s => s, st, m, m2, q, c)
  {
    match r
    case Values(vs, st2) =>
      AfterTrans(st, m, st1, m1, st2, m2, q1, q, c, Inner(c), 1, |vs|);
      assert m2.stack[m.sp..m2.sp] == [m2.stack[m.sp]] + m2.stack[m1.sp..m2.sp];
      assert m2.stack[m.sp..m2.sp] == MapVs(Lower, [v] + vs);
    case Stopped(a) => BackThrough(a.v, a.st, st, m, st1, m1, m2, q1, c, Inner(c), 1);
  }
}

/** The effect of single instructions on states that represent stores. */
module InstructionSteps {
  import opened Wrappers
  import opened Opcodes
  import opened Core
  import opened Codegen
  import opened Objects
  import opened Naturality
  import opened Semantics
  import opened Machine
  import opened Simulation
  import Runs

  lemma {:induction false} StepTo(m: State, i: Instr, m': State)
    requires Shape(m) && Fetch(Top(m).fn.code, Top(m).ip) == Some(i) && Exec(m, i) == Next(m') && Sure(m, i)
    ensures Leads(m, m')
  {
    Runs.ReachesStep(SurelyAdvance, m);
  }

  /** m after a push of v, at byte q. */
  function Pushed(m: State, v: MValue, q: nat): (m': State)
    requires Shape(m) && m.sp < STACK_SIZE
    ensures Shape(m')
  {
    Goto(m, q).(stack := m.stack[m.sp := v], sp := m.sp + 1)
  }

  lemma {:induction false} PushDone(m: State, st: Store, p: nat, c: Place, v: SValue, q: nat)
    requires Rel(m, st, p, c) && m.sp < STACK_SIZE && GoodV(v, c.pool)
    ensures Done(Normal(v, st), st, m, Pushed(m, LowV(v), q), q, c, 1)
  {
    hide GoodStore, OkF;
  }

  /** Reading a variable pushes what the store holds. */
  lemma {:induction false} LoadStep(m: State, st: Store, p: nat, c: Place, v: Var) returns (m': State)
    requires Rel(m, st, p, c) && Fetch(c.fn.code, p) == Some(GetOp(v))
    requires Load(v, st).Some? && m.sp < STACK_SIZE
    ensures Leads(m, m')
    ensures Done(Normal(Load(v, st).value, st), st, m, m', p + Size(GetOp(v)), c, 1)
  {
    hide Operate, Machine.Call, Machine.Return, OkF, Done;
    var x := Load(v, st).value;
    m' := Pushed(m, LowV(x), p + Size(GetOp(v)));
    PushDone(m, st, p, c, x, p + Size(GetOp(v)));
    LowWritten(x);
    StepTo(m, GetOp(v), m');
  }

  lemma {:induction false} ConstStep(m: State, st: Store, p: nat, c: Place, i: Instr, v: SValue) returns (m': State)
    requires Rel(m, st, p, c) && Fetch(c.fn.code, p) == Some(i) && m.sp < STACK_SIZE && GoodV(v, c.pool)
    requires match i.op
             case OpConst => i.arg < |c.pool| && c.pool[i.arg] == LowV(v)
             case OpNull => v == VNull
             case OpTrue => v == VBool(true)
             case OpFalse => v == VBool(false)
             case _ => false
    ensures Leads(m, m') && Done(Normal(v, st), st, m, m', p + Size(i), c, 1)
  {
    hide Operate, Machine.Call, Machine.Return, OkF, Done;
    m' := Pushed(m, LowV(v), p + Size(i));
    PushDone(m, st, p, c, v, p + Size(i));
    StepTo(m, i, m');
  }

  /** A pop of x into a variable. */
  lemma {:induction false} SaveDone(m: State, st: Store, p: nat, c: Place, v: Var, x: SValue, q: nat)
                                    returns (m': State)
    requires Rel(m, st, p, c)
    requires c.base + |st.locals| < m.sp && m.stack[m.sp - 1] == LowV(x) && GoodV(x, c.pool)
    requires Save(v, x, st).Some?
    ensures m' == if v.Global? then Goto(m, q).(sp := m.sp - 1, globals := m.globals[v.i := LowV(x)])
                  else Goto(m, q).(sp := m.sp - 1, stack := m.stack[c.base + v.i := LowV(x)])
    ensures Rel(m', Save(v, x, st).value, q, c)
  {
    hide OkF;
    var st' := Save(v, x, st).value;
    if v.Global? {
      m' := Goto(m, q).(sp := m.sp - 1, globals := m.globals[v.i := LowV(x)]);
      assert m'.globals == MapVs(Lower, st'.globals);
    } else {
      m' := Goto(m, q).(sp := m.sp - 1, stack := m.stack[c.base + v.i := LowV(x)]);
    }
  }

  lemma {:induction false} SaveRuns(m: State, p: nat, fn: Compiled, base: nat, v: Var, m': State)
    requires Shape(m) && Top(m) == Frame(fn, p, base) && Fetch(fn.code, p) == Some(SetOp(v)) && 0 < m.sp
    requires v.i < GLOBALS_SIZE || !v.Global?
    requires Written(m.stack[m.sp - 1])
    requires base + v.i < STACK_SIZE || v.Global?
    requires var q, x := p + Size(SetOp(v)), m.stack[m.sp - 1];
             m' == if v.Global? then Goto(m, q).(sp := m.sp - 1, globals := m.globals[v.i := x])
                   else Goto(m, q).(sp := m.sp - 1, stack := m.stack[base + v.i := x])
    ensures Leads(m, m')
  {
    hide Operate, Machine.Call, Machine.Return, Push;
    StepTo(m, SetOp(v), m');
  }

  /** Popping into a variable stores the value. */
  lemma {:induction false} SaveStep(x: SValue, st: Store, m: State, st1: Store, m1: State, q: nat, c: Place, v: Var)
                                    returns (m': State)
    requires Done(Normal(x, st1), st, m, m1, q, c, 1) && Fetch(c.fn.code, q) == Some(SetOp(v))
    requires Save(v, x, st1).Some?
    ensures Leads(m1, m')
    ensures After(st, m, Save(v, x, st1).value, m', q + Size(SetOp(v)), c, 0)
  {
    hide OkF, GoodStore;
    m' := SaveDone(m1, st1, q, c, v, x, q + Size(SetOp(v)));
    LowWritten(x);
    SaveRuns(m1, q, c.fn, c.base, v, m');
  }

  lemma {:induction false} PopStep(x: SValue, st: Store, m: State, st1: Store, m1: State, q: nat, c: Place)
                                   returns (m': State)
    requires Done(Normal(x, st1), st, m, m1, q, c, 1) && Fetch(c.fn.code, q) == Some(Plain(OpPop))
    ensures Leads(m1, m') && Done(Normal(x, st1), st, m, m', q + 1, c, 0)
    ensures m'.stack[m.sp] == LowV(x)
  {
    hide Operate, Machine.Call, Machine.Return, OkF, GoodStore;
    m' := Goto(m1, q + 1).(sp := m1.sp - 1);
    StepTo(m1, Plain(OpPop), m');
  }

  lemma {:induction false} JumpStep(st: Store, m: State, st1: Store, m1: State, q: nat, c: Place, target: nat, k: nat)
                                    returns (m': State)
    requires After(st, m, st1, m1, q, c, k) && Fetch(c.fn.code, q) == Some(Instr(OpJump, target))
    ensures Leads(m1, m') && After(st, m, st1, m', target, c, k) && m'.stack == m1.stack
  {
    hide Operate, Machine.Call, Machine.Return, OkF, GoodStore;
    m' := Goto(m1, target);
    StepTo(m1, Instr(OpJump, target), m');
  }

  /** The conditional jump pops the condition and falls through when it is true. */
  lemma {:induction false} TestStep(x: SValue, st: Store, m: State, st1: Store, m1: State, q: nat, c: Place,
                                    target: nat) returns (m': State)
    requires Done(Normal(x, st1), st, m, m1, q, c, 1) && Fetch(c.fn.code, q) == Some(Instr(OpJumpNotTrue, target))
    ensures Leads(m1, m') && After(st, m, st1, m', if Truthy(x) then q + 3 else target, c, 0)
    ensures m'.stack == m1.stack
  {
    hide Operate, Machine.Call, Machine.Return, OkF, GoodStore;
    m' := Goto(m1, if Truthy(x) then q + 3 else target).(sp := m1.sp - 1);
    LowWritten(x);
    StepTo(m1, Instr(OpJumpNotTrue, target), m');
  }

  /** An operator on values that represent vs. */
  lemma {:induction false} OperateStep(st: Store, m: State, st1: Store, m1: State, q: nat, c: Place, op: PrimOp,
                                       vs: seq<SValue>) returns (m': State)
    requires DoneTs(Values(vs, st1), st, m, m1, q, c) && |vs| == Arity(op, |vs|) && m.sp < STACK_SIZE
    requires Fetch(c.fn.code, q) == Some(Operator(op, |vs|))
    requires Primitive(op, st1.heap, vs).Some?
    ensures Leads(m1, m')
    ensures var (h, v) := Primitive(op, st1.heap, vs).value;
            Done(Normal(v, st1.(heap := h)), st, m, m', q + 1 + Width(op), c, 1)
  {
    hide Machine.Call, Machine.Return, OkF, Primitive, Exec, Fetch, GoodVs, CodeF, Sure, AllWritten, Leads;
    var (h, v) := Primitive(op, st1.heap, vs).value;
    PrimNatural(Lower, op, st1.heap, vs);
    PrimitiveGood(op, st1.heap, vs, c.pool);
    m' := Goto(m1, q + 1 + Width(op)).(stack := m1.stack[m.sp := LowV(v)], sp := m.sp + 1, heap := MapH(Lower, h));
    LowAllWritten(vs);
    OperatorGoes(m1, op, |vs|, MapVs(Lower, vs), MapH(Lower, h), LowV(v));
    StepTo(m1, Operator(op, |vs|), m');
  }

  /** An operator that has a result. */
  lemma {:induction false} OperatorGoes(m: State, op: PrimOp, n: nat, vs: seq<MValue>, h: Heap<Compiled>, v: MValue)
    requires Shape(m) && n == Arity(op, n) <= m.sp && m.sp - n < STACK_SIZE && vs == m.stack[m.sp - n..m.sp]
    requires Primitive(op, m.heap, vs) == Some((h, v)) && AllWritten(vs)
    ensures Sure(m, Operator(op, n))
    ensures Exec(m, Operator(op, n))
         == Next(Goto(m, Top(m).ip + 1 + Width(op)).(stack := m.stack[m.sp - n := v], sp := m.sp - n + 1, heap := h))
  {
    hide Primitive, Machine.Call, Machine.Return, Machine.Push;
  }

  /** The place of a callee: its frame starts with the arguments as its first locals. */
  function CalleeAt(base: nat, p: nat, c: Place, f: Fun): Place {
    Place(Lower(f), base, c.below + [Frame(c.fn, p + 1, c.base)],
          JUMP_PLACEHOLDER_BREAK, JUMP_PLACEHOLDER_CONTINUE, false, c.pool)
  }

  function CalleeState(m: State, base: nat, p: nat, c: Place, f: Fun): State {
    m.(frames := CalleeAt(base, p, c, f).below + [Frame(Lower(f), 0, base)], sp := base + f.numLocals)
  }

  lemma {:induction false} CalleeRel(st: Store, m: State, st1: Store, m1: State, p: nat, c: Place, f: Fun,
                                     vs: seq<SValue>)
    requires DoneTs(Values(vs, st1), st, m, m1, p, c)
    requires |c.below| + 1 < FRAMES_SIZE && m.sp + f.numLocals <= STACK_SIZE && |CodeF(f.body)| < LIMIT
    ensures Rel(CalleeState(m1, m.sp, p, c, f), st1.(locals := Parameters(f.numLocals, vs)), 0, CalleeAt(m.sp, p, c, f))
  {
    hide OkF;
    forall i | 0 <= i < |vs| ensures m1.stack[m.sp + i] == LowV(vs[i]) {
      assert m1.stack[m.sp..m1.sp][i] == MapVs(Lower, vs)[i];
    }
  }

  lemma {:induction false} CallRuns(m: State, n: nat, p: nat, c: Place, f: Fun)
    requires Shape(m) && m.frames == c.below + [Frame(c.fn, p, c.base)]
    requires Fetch(c.fn.code, p) == Some(Instr(OpCall, n))
    requires n + 1 <= m.sp && m.stack[m.sp - n - 1] == LowV(VFun(f))
    requires |m.frames| < FRAMES_SIZE && m.sp - n + f.numLocals <= STACK_SIZE
    ensures Leads(m, CalleeState(m, m.sp - n, p, c, f))
  {
    hide Operate, Machine.Return, Machine.Push, CallBuiltin, Fetch, CodeF;
    assert Goto(m, p + 1).frames == CalleeAt(m.sp - n, p, c, f).below;
    LowWritten(VFun(f));
    StepTo(m, Instr(OpCall, n), CalleeState(m, m.sp - n, p, c, f));
  }

  /** A builtin below its arguments: m is the state before the arguments were pushed. */
  lemma {:induction false} BuiltinStep(st: Store, m: State, st1: Store, m1: State, p: nat, c: Place, i: nat,
                                       vs: seq<SValue>) returns (m': State)
    requires DoneTs(Values(vs, st1), st, m, m1, p, c) && Fetch(c.fn.code, p) == Some(Instr(OpCall, |vs|))
    requires c.base + |st.locals| < m.sp && m.stack[m.sp - 1] == LowV(VBuiltin(i))
    requires |vs| <= ARGS_SIZE && CallBuiltin(i, st1.heap, vs).Some?
    ensures Leads(m1, m') && m'.sp == m.sp
    ensures var (h, v) := CallBuiltin(i, st1.heap, vs).value;
            && Rel(m', st1.(heap := h), p + 2, c) && GoodV(v, c.pool) && m'.stack[m.sp - 1] == LowV(v)
    ensures forall j | 0 <= j < m.sp - 1 && (j < c.base || j >= c.base + |st.locals|) :: m'.stack[j] == m.stack[j]
  {
    hide Operate, Machine.Return, OkF, CallBuiltin;
    var (h, v) := CallBuiltin(i, st1.heap, vs).value;
    BuiltinNatural(Lower, i, st1.heap, vs);
    BuiltinGood(i, st1.heap, vs, c.pool);
    m' := Goto(m1, p + 2).(stack := m1.stack[m.sp - 1 := LowV(v)], sp := m.sp, heap := MapH(Lower, h));
    LowWritten(VBuiltin(i));
    LowAllWritten(vs);
    StepTo(m1, Instr(OpCall, |vs|), m');
  }

  /** Either return instruction, with the value it returns. */
  lemma {:induction false} ReturnStep(m: State, st: Store, p: nat, c: Place, i: Instr, x: SValue) returns (m': State)
    requires Rel(m, st, p, c) && Fetch(c.fn.code, p) == Some(i)
    requires (i == Plain(OpReturnValue) && 0 < m.sp && m.stack[m.sp - 1] == LowV(x))
             || (i == Plain(OpReturn) && x == VNull)
    requires c.below != [] && 1 <= c.base && GoodV(x, c.pool)
    ensures Leads(m, m') && Back(x, st, m, m', c)
  {
    hide Operate, Machine.Call, OkF;
    m' := m.(stack := m.stack[c.base - 1 := LowV(x)], sp := c.base, frames := Resumed(c.below));
    LowWritten(x);
    StepTo(m, i, m');
  }
}
