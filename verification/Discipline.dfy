/**
 On every run of compiled code the stack is exactly as high as the code says: no
 instruction reaches below its frame, no frame below its caller's.
 */
module StackDiscipline {
  import opened Wrappers
  import opened Opcodes
  import Core
  import opened Codegen
  import opened Objects
  import opened Naturality
  import opened Machine
  import opened Simulation
  import opened Fragment
  import opened StackHeights
  import opened Semantics
  import opened Emission
  import opened Elaboration
  import opened Compilation
  import opened CompilerCorrectness
  import Ast
  import Runs

  // ---- functions inside values ----

  ghost predicate Flat(fn: Compiled) { exists hs :: Balanced(fn, hs, false) }

  ghost predicate FlatV(v: MValue) { v.VFun? ==> Flat(v.f) }

  ghost predicate FlatVs(vs: seq<MValue>) { forall i | 0 <= i < |vs| :: FlatV(vs[i]) }

  ghost predicate FlatH(h: Heap<Compiled>) { forall i | 0 <= i < |h| :: FlatVs(h[i]) }

  /** Replaces every other function by one that just returns. */
  ghost function Clean(): Compiled -> Compiled {
    fn => if Flat(fn) then fn else Compiled([OpByte(OpReturn)], 0)
  }

  lemma {:induction false} JustReturns()
    ensures Flat(Compiled([OpByte(OpReturn)], 0))
  {
    var fn, hs := Compiled([OpByte(OpReturn)], 0), [0];
    assert Fetch(fn.code, 0) == Some(Instr(OpReturn, 0));
    assert WellAt(fn, hs, false, 0);
    assert Balanced(fn, hs, false);
  }

  lemma {:induction false} CleanV(v: MValue)
    ensures FlatV(v) <==> MapV(Clean(), v) == v
  {
    JustReturns();
  }

  lemma {:induction false} CleanVs(vs: seq<MValue>)
    ensures FlatVs(vs) <==> MapVs(Clean(), vs) == vs
  {
    forall i | 0 <= i < |vs| ensures FlatV(vs[i]) <==> MapV(Clean(), vs[i]) == vs[i] { CleanV(vs[i]); }
  }

  lemma {:induction false} CleanH(h: Heap<Compiled>)
    ensures FlatH(h) <==> MapH(Clean(), h) == h
  {
    forall i | 0 <= i < |h| ensures FlatVs(h[i]) <==> MapVs(Clean(), h[i]) == h[i] { CleanVs(h[i]); }
  }

  lemma {:induction false} PrimitiveFlat(op: Opcode, h: Heap<Compiled>, vs: seq<MValue>)
    requires FlatH(h) && FlatVs(vs) && Primitive(op, h, vs).Some?
    ensures FlatH(Primitive(op, h, vs).value.0) && FlatV(Primitive(op, h, vs).value.1)
  {
    hide Primitive, Flat;
    CleanH(h);
    CleanVs(vs);
    PrimNatural(Clean(), op, h, vs);
    CleanH(Primitive(op, h, vs).value.0);
    CleanV(Primitive(op, h, vs).value.1);
  }

  lemma {:induction false} BuiltinFlat(i: nat, h: Heap<Compiled>, vs: seq<MValue>)
    requires FlatH(h) && FlatVs(vs) && CallBuiltin(i, h, vs).Some?
    ensures FlatH(CallBuiltin(i, h, vs).value.0) && FlatV(CallBuiltin(i, h, vs).value.1)
  {
    hide CallBuiltin, Flat;
    CleanH(h);
    CleanVs(vs);
    BuiltinNatural(Clean(), i, h, vs);
    CleanH(CallBuiltin(i, h, vs).value.0);
    CleanV(CallBuiltin(i, h, vs).value.1);
  }

  ghost predicate FlatState(m: State) {
    match m
    case State(stack, _, _, globals, constants, heap) =>
      FlatVs(stack) && FlatVs(globals) && FlatVs(constants) && FlatH(heap)
  }

  // ---- the frames ----

  /** A frame's locals and temporaries reach up to `top`. */
  predicate FrameAt(f: Frame, hs: seq<int>, main: bool, p: nat, top: int) {
    match f
    case Frame(fn, _, base) =>
      Balanced(fn, hs, main) && p < |hs| && hs[p] >= 0 && top == base + fn.numLocals + hs[p]
  }

  /** A caller waits with its ip at the operand of its CALL; the callee's frame starts at the arguments. */
  predicate Waiting(f: Frame, hs: seq<int>, main: bool, base: nat) {
    && f.ip >= 1
    && match Fetch(f.fn.code, f.ip - 1)
       case None => false
       case Some(i) => i.op == OpCall && FrameAt(f, hs, main, f.ip - 1, base + i.arg)
  }

  predicate Disciplined(m: State, hss: seq<seq<int>>) {
    match m
    case State(_, sp, frames, _, _, _) =>
      && Shape(m) && |hss| == |frames|
      && frames[0].base == 0
      && (forall k | 0 <= k < |frames| - 1 :: Waiting(frames[k], hss[k], k == 0, frames[k + 1].base))
      && FrameAt(frames[|frames| - 1], hss[|frames| - 1], |frames| == 1, frames[|frames| - 1].ip, sp)
  }

  /** The whole invariant. */
  ghost predicate Steady(m: State) {
    FlatState(m) && exists hss :: Disciplined(m, hss)
  }

  // ---- single instructions ----

  /** The instruction that is next, and what the annotation says about it. */
  lemma {:induction false} NextInstr(m: State, hss: seq<seq<int>>) returns (i: Instr, hs: seq<int>, h: nat)
    requires Disciplined(m, hss)
    ensures Fetch(Top(m).fn.code, Top(m).ip) == Some(i) && Fits(i)
    ensures hs == hss[|hss| - 1] && |hs| == |Top(m).fn.code| && HeightIs(hs, Top(m).ip, h)
    ensures WellAt(Top(m).fn, hs, |m.frames| == 1, Top(m).ip)
    ensures Balanced(Top(m).fn, hs, |m.frames| == 1) && m.sp == Top(m).base + Top(m).fn.numLocals + h
    ensures Takes(i) <= h
  {
    hide Fetch;
    hs := hss[|hss| - 1];
    h := hs[Top(m).ip];
    assert WellAt(Top(m).fn, hs, |m.frames| == 1, Top(m).ip);
    i := Fetch(Top(m).fn.code, Top(m).ip).value;
  }

  /** The same frames with the current one moved on. */
  lemma {:induction false} MovedOn(m: State, m': State, hss: seq<seq<int>>, ip: nat, h: nat)
    requires Disciplined(m, hss) && Shape(m') && m'.frames == Goto(m, ip).frames
    requires HeightIs(hss[|hss| - 1], ip, h) && m'.sp == Top(m).base + Top(m).fn.numLocals + h
    ensures Disciplined(m', hss)
  {
    hide Balanced, Fetch;
  }

  /** A new frame on top of one that waits at its CALL. */
  lemma {:induction false} Entered(m: State, m': State, hss: seq<seq<int>>, n: nat, fn: Compiled, hs: seq<int>)
    requires Disciplined(m, hss) && Shape(m') && Balanced(fn, hs, false)
    requires Fetch(Top(m).fn.code, Top(m).ip) == Some(Instr(OpCall, n)) && n < m.sp
    requires m'.frames == Goto(m, Top(m).ip + 1).frames + [Frame(fn, 0, m.sp - n)] && m'.sp == m.sp - n + fn.numLocals
    ensures Disciplined(m', hss + [hs])
  {
    hide Fetch, Span;
    var hss', k := hss + [hs], |m.frames| - 1;
    assert FrameAt(Frame(fn, 0, m.sp - n), hs, false, 0, m'.sp);
    assert Waiting(m'.frames[k], hss'[k], k == 0, m'.frames[k + 1].base);
  }

  /** Back in the caller, after its CALL. */
  lemma {:induction false} Left(m: State, m': State, hss: seq<seq<int>>, hs: seq<int>, n: nat)
    requires Disciplined(m, hss) && Shape(m') && |m.frames| >= 2 && m'.sp == Top(m).base
    requires var k := |m.frames| - 2;
             && m'.frames == m.frames[..k] + [m.frames[k].(ip := m.frames[k].ip + 1)]
             && hs == hss[k] && Fetch(m.frames[k].fn.code, m.frames[k].ip - 1) == Some(Instr(OpCall, n))
             && HeightIs(hs, m.frames[k].ip + 1, m'.sp - m.frames[k].base - m.frames[k].fn.numLocals)
             && m'.sp >= m.frames[k].base + m.frames[k].fn.numLocals
    ensures Disciplined(m', hss[..|hss| - 1])
  {
    hide Fetch, Span;
  }

  /** The caller of the current frame: its height after the call, and room for the result. */
  lemma {:induction false} CallerOf(m: State, hss: seq<seq<int>>) returns (n: nat)
    requires Disciplined(m, hss) && |m.frames| >= 2
    ensures var c, hs := m.frames[|m.frames| - 2], hss[|m.frames| - 2];
            && c.ip >= 1 && Fetch(c.fn.code, c.ip - 1) == Some(Instr(OpCall, n))
            && HeightIs(hs, c.ip + 1, Top(m).base - c.base - c.fn.numLocals)
            && Top(m).base >= c.base + c.fn.numLocals + 1
  {
    var k := |m.frames| - 2;
    var c, hs := m.frames[k], hss[k];
    assert Waiting(c, hs, k == 0, m.frames[k + 1].base);
    var i := Fetch(c.fn.code, c.ip - 1).value;
    n := i.arg;
    hide Fetch;
    assert WellAt(c.fn, hs, k == 0, c.ip - 1);
  }

  // ---- steps ----

  lemma {:induction false} PlacedFlat(vs: seq<MValue>, i: nat, v: MValue)
    requires FlatVs(vs) && i < |vs| && FlatV(v)
    ensures FlatVs(vs[i := v])
  {
    hide Flat;
    var ws := vs[i := v];
    forall j | 0 <= j < |ws| ensures FlatV(ws[j]) { assert FlatV(vs[j]); }
  }

  lemma {:induction false} TakenFlat(vs: seq<MValue>, i: nat, j: nat)
    requires FlatVs(vs) && i <= j <= |vs|
    ensures FlatVs(vs[i..j])
  {
    hide Flat;
    forall k | 0 <= k < j - i ensures FlatV(vs[i..j][k]) { assert FlatV(vs[i + k]); }
  }

  /** What a step must not do: find too few operands, or leave the code. */
  predicate Fine(o: Outcome) { o != Fault(StackUnderflow) && o != Fault(BadCode) }

  ghost predicate Continues(o: Outcome) { Fine(o) && (o.Next? ==> Steady(o.m)) }

  lemma {:induction false} PushSteady(m: State, hss: seq<seq<int>>, v: MValue, ip: nat, h: nat)
    requires FlatState(m) && Disciplined(m, hss) && FlatV(v)
    requires m.sp == Top(m).base + Top(m).fn.numLocals + h && HeightIs(hss[|hss| - 1], ip, h + 1)
    ensures Continues(Push(m, v, ip))
  {
    hide Flat, Disciplined, Balanced;
    SomeShape(m, hss);
    if m.sp < STACK_SIZE {
      PlacedFlat(m.stack, m.sp, v);
      var m' := Push(m, v, ip).m;
      MovedOn(m, m', hss, ip, h + 1);
    }
  }

  lemma {:induction false} SomeShape(m: State, hss: seq<seq<int>>)
    requires Disciplined(m, hss)
    ensures Shape(m) && |hss| == |m.frames|
  {
  }

  lemma {:induction false} OperateSteady(m: State, hss: seq<seq<int>>, op: Opcode, n: nat, ip: nat, h: nat)
    requires FlatState(m) && Disciplined(m, hss) && n <= h
    requires m.sp == Top(m).base + Top(m).fn.numLocals + h && HeightIs(hss[|hss| - 1], ip, h - n + 1)
    ensures Continues(Operate(m, op, n, ip))
  {
    hide Flat, FlatH, Disciplined, Primitive, Balanced;
    SomeShape(m, hss);
    var vs := m.stack[m.sp - n..m.sp];
    TakenFlat(m.stack, m.sp - n, m.sp);
    if Operate(m, op, n, ip).Next? {
      PrimitiveFlat(op, m.heap, vs);
      var (hp, v) := Primitive(op, m.heap, vs).value;
      PlacedFlat(m.stack, m.sp - n, v);
      MovedOn(m, Operate(m, op, n, ip).m, hss, ip, h - n + 1);
    }
  }

  lemma {:induction false} CallSteady(m: State, hss: seq<seq<int>>, n: nat, ip: nat, h: nat)
    requires FlatState(m) && Disciplined(m, hss) && n + 1 <= h && ip == Top(m).ip
    requires Fetch(Top(m).fn.code, ip) == Some(Instr(OpCall, n))
    requires m.sp == Top(m).base + Top(m).fn.numLocals + h && HeightIs(hss[|hss| - 1], ip + 2, h - n)
    ensures Continues(Call(m, n, ip))
  {
    hide Flat, FlatH, Disciplined, CallBuiltin, Balanced, Fetch;
    SomeShape(m, hss);
    match m.stack[m.sp - 1 - n]
    case VFun(fn) =>
      if Call(m, n, ip).Next? {
        assert FlatV(m.stack[m.sp - 1 - n]);
        var hs := Annotation(fn);
        Entered(m, Call(m, n, ip).m, hss, n, fn, hs);
      }
    case VBuiltin(i) =>
      var args := m.stack[m.sp - n..m.sp];
      TakenFlat(m.stack, m.sp - n, m.sp);
      if Call(m, n, ip).Next? {
        BuiltinFlat(i, m.heap, args);
        var (hp, v) := CallBuiltin(i, m.heap, args).value;
        PlacedFlat(m.stack, m.sp - n - 1, v);
        MovedOn(m, Call(m, n, ip).m, hss, ip + 2, h - n);
      }
    case _ =>
  }

  lemma {:induction false} Annotation(fn: Compiled) returns (hs: seq<int>)
    requires Flat(fn)
    ensures Balanced(fn, hs, false)
  {
    hs :| Balanced(fn, hs, false);
  }

  lemma {:induction false} ReturnSteady(m: State, hss: seq<seq<int>>, v: MValue)
    requires FlatState(m) && Disciplined(m, hss) && FlatV(v) && |m.frames| >= 2 && Top(m).base <= m.sp
    ensures Continues(Return(m, v))
  {
    hide Flat, FlatH, Balanced, Fetch;
    var n := CallerOf(m, hss);
    PlacedFlat(m.stack, Top(m).base - 1, v);
    Left(m, Return(m, v).m, hss, hss[|m.frames| - 2], n);
  }

  /** Stores and jumps: the stack gets lower, or stays. */
  lemma {:induction false} MoveSteady(m: State, m': State, hss: seq<seq<int>>, ip: nat, h: nat)
    requires FlatState(m) && Disciplined(m, hss) && Shape(m') && m'.frames == Goto(m, ip).frames
    requires FlatVs(m'.stack) && FlatVs(m'.globals) && m'.constants == m.constants && m'.heap == m.heap
    requires HeightIs(hss[|hss| - 1], ip, h) && m'.sp == Top(m).base + Top(m).fn.numLocals + h
    ensures Steady(m')
  {
    hide Flat, FlatH, Disciplined;
    MovedOn(m, m', hss, ip, h);
  }

  predicate IsLoad(op: Opcode) {
    match op
    case OpConst => true case OpNull => true case OpTrue => true case OpFalse => true
    case OpGetGlobal => true case OpGetLocal => true case OpGetBuiltin => true
    case _ => false
  }

  predicate IsMove(op: Opcode) {
    op == OpPop || op == OpJump || op == OpJumpNotTrue || op == OpSetGlobal || op == OpSetLocal
  }

  lemma {:induction false} LoadSteady(m: State, hss: seq<seq<int>>, i: Instr, h: nat)
    requires FlatState(m) && Disciplined(m, hss) && IsLoad(i.op)
    requires m.sp == Top(m).base + Top(m).fn.numLocals + h && HeightIs(hss[|hss| - 1], Top(m).ip + Size(i), h + 1)
    ensures Continues(Exec(m, i))
  {
    hide Flat, Disciplined, Push, Balanced, FlatH, Continues, Steady;
    SomeShape(m, hss);
    StillFine(BadIndex);
    var Frame(_, ip, base) := Top(m);
    match i.op
    case OpConst =>
      if i.arg < |m.constants| {
        assert FlatV(m.constants[i.arg]);
        PushSteady(m, hss, m.constants[i.arg], ip + 3, h);
      }
    case OpNull => PushSteady(m, hss, VNull, ip + 1, h);
    case OpTrue => PushSteady(m, hss, VBool(true), ip + 1, h);
    case OpFalse => PushSteady(m, hss, VBool(false), ip + 1, h);
    case OpGetGlobal =>
      if i.arg < GLOBALS_SIZE {
        assert FlatV(m.globals[i.arg]);
        PushSteady(m, hss, m.globals[i.arg], ip + 3, h);
      }
    case OpGetLocal =>
      if base + i.arg < STACK_SIZE {
        assert FlatV(m.stack[base + i.arg]);
        PushSteady(m, hss, m.stack[base + i.arg], ip + 2, h);
      }
    case OpGetBuiltin => if i.arg < BUILTINS { PushSteady(m, hss, VBuiltin(i.arg), ip + 2, h); }
  }

  lemma {:induction false} StillFine(why: Reason)
    requires why != StackUnderflow && why != BadCode
    ensures Continues(Fault(why))
  {
  }

  lemma {:induction false} ControlSteady(m: State, hss: seq<seq<int>>, i: Instr, hs: seq<int>, h: nat)
    requires FlatState(m) && Disciplined(m, hss) && Takes(i) <= h && hs == hss[|hss| - 1] && |hs| == |Top(m).fn.code|
    requires IsMove(i.op)
    requires Fetch(Top(m).fn.code, Top(m).ip) == Some(i)
    requires m.sp == Top(m).base + Top(m).fn.numLocals + h
    requires HeightIs(hs, Top(m).ip, h) && WellAt(Top(m).fn, hs, |m.frames| == 1, Top(m).ip)
    ensures Continues(Exec(m, i))
  {
    hide Flat, Disciplined, Balanced, FlatH, Fetch, Push, Operate, Call, Return;
    SomeShape(m, hss);
    var Frame(_, ip, base) := Top(m);
    match i.op
    case OpPop => MoveSteady(m, Exec(m, i).m, hss, ip + 1, h - 1);
    case OpJump => MoveSteady(m, Exec(m, i).m, hss, i.arg, h);
    case OpJumpNotTrue =>
      MoveSteady(m, Exec(m, i).m, hss, if Truthy(m.stack[m.sp - 1]) then ip + 3 else i.arg, h - 1);
    case OpSetGlobal => StoreSteady(m, hss, i, hs, h);
    case OpSetLocal => StoreSteady(m, hss, i, hs, h);
  }

  lemma {:induction false} StoreSteady(m: State, hss: seq<seq<int>>, i: Instr, hs: seq<int>, h: nat)
    requires FlatState(m) && Disciplined(m, hss) && 1 <= h && hs == hss[|hss| - 1]
    requires i.op == OpSetGlobal || i.op == OpSetLocal
    requires m.sp == Top(m).base + Top(m).fn.numLocals + h && HeightIs(hs, Top(m).ip + Size(i), h - 1)
    ensures Continues(Exec(m, i))
  {
    hide Flat, Disciplined, Balanced, FlatH, HeightIs, Steady;
    SomeShape(m, hss);
    var Frame(_, ip, base) := Top(m);
    assert FlatV(m.stack[m.sp - 1]);
    if i.op == OpSetGlobal && i.arg < GLOBALS_SIZE {
      PlacedFlat(m.globals, i.arg, m.stack[m.sp - 1]);
      MoveSteady(m, Exec(m, i).m, hss, ip + 3, h - 1);
    } else if i.op == OpSetLocal && base + i.arg < STACK_SIZE {
      PlacedFlat(m.stack, base + i.arg, m.stack[m.sp - 1]);
      MoveSteady(m, Exec(m, i).m, hss, ip + 2, h - 1);
    }
  }

  /** The current instruction, and what the annotation says of it. */
  predicate Current(m: State, hss: seq<seq<int>>, i: Instr, hs: seq<int>, h: nat) {
    && Disciplined(m, hss) && hs == hss[|hss| - 1] && |hs| == |Top(m).fn.code| && Takes(i) <= h
    && Fetch(Top(m).fn.code, Top(m).ip) == Some(i) && m.sp == Top(m).base + Top(m).fn.numLocals + h
    && HeightIs(hs, Top(m).ip, h) && WellAt(Top(m).fn, hs, |m.frames| == 1, Top(m).ip)
  }

  lemma {:induction false} LoadStep(m: State, hss: seq<seq<int>>, i: Instr, hs: seq<int>, h: nat)
    requires FlatState(m) && Current(m, hss, i, hs, h) && IsLoad(i.op)
    ensures Continues(Exec(m, i))
  {
    hide Flat, FlatH, FlatState, Disciplined, Fetch, Continues, Exec;
    LoadSteady(m, hss, i, h);
  }

  lemma {:induction false} ControlStep(m: State, hss: seq<seq<int>>, i: Instr, hs: seq<int>, h: nat)
    requires FlatState(m) && Current(m, hss, i, hs, h) && IsMove(i.op)
    ensures Continues(Exec(m, i))
  {
    hide Flat, FlatH, FlatState, Disciplined, Fetch, Continues, Exec;
    ControlSteady(m, hss, i, hs, h);
  }

  lemma {:induction false} CallStep(m: State, hss: seq<seq<int>>, i: Instr, hs: seq<int>, h: nat)
    requires FlatState(m) && Current(m, hss, i, hs, h) && i.op == OpCall
    ensures Continues(Exec(m, i))
  {
    hide Flat, FlatH, FlatState, Disciplined, Fetch, Continues, Call;
    SomeShape(m, hss);
    CallSteady(m, hss, i.arg, Top(m).ip, h);
  }

  lemma {:induction false} ReturnStep(m: State, hss: seq<seq<int>>, i: Instr, hs: seq<int>, h: nat)
    requires FlatState(m) && Current(m, hss, i, hs, h) && (i.op == OpReturnValue || i.op == OpReturn)
    ensures Continues(Exec(m, i))
  {
    hide Flat, FlatH, FlatState, Disciplined, Fetch, Continues, Return;
    SomeShape(m, hss);
    if i.op == OpReturnValue {
      TopFlat(m, hss);
      ReturnSteady(m, hss, m.stack[m.sp - 1]);
    } else {
      ReturnSteady(m, hss, VNull);
    }
  }

  lemma {:induction false} OperateStep(m: State, hss: seq<seq<int>>, i: Instr, hs: seq<int>, h: nat)
    requires FlatState(m) && Current(m, hss, i, hs, h) && IsOperator(i.op)
    ensures Continues(Exec(m, i))
  {
    hide Flat, FlatH, FlatState, Disciplined, Fetch, Continues, Operate;
    SomeShape(m, hss);
    OperateSteady(m, hss, i.op, Arity(i.op, i.arg), Top(m).ip + Size(i), h);
  }

  /** One step keeps the discipline, and never finds the stack too low or the code at an end. */
  lemma {:induction false} StepSteady(m: State)
    requires Steady(m)
    ensures Shape(m) && Continues(Step(m))
  {
    hide Flat, FlatH, FlatState, Disciplined, Balanced, Fetch, Exec, Continues, WellAt, HeightIs, Takes;
    var hss :| Disciplined(m, hss);
    SomeShape(m, hss);
    var i, hs, h := NextInstr(m, hss);
    if IsLoad(i.op) {
      LoadStep(m, hss, i, hs, h);
    } else if IsMove(i.op) {
      ControlStep(m, hss, i, hs, h);
    } else if i.op == OpCall {
      CallStep(m, hss, i, hs, h);
    } else if i.op == OpReturnValue || i.op == OpReturn {
      ReturnStep(m, hss, i, hs, h);
    } else if i.op == OpHalt {
      Halts(m, i);
    } else {
      OperateStep(m, hss, i, hs, h);
    }
  }

  lemma {:induction false} Halts(m: State, i: Instr)
    requires Shape(m) && i.op == OpHalt
    ensures Continues(Exec(m, i))
  {
  }

  lemma {:induction false} TopFlat(m: State, hss: seq<seq<int>>)
    requires FlatState(m) && Disciplined(m, hss) && m.sp > 0
    ensures FlatV(m.stack[m.sp - 1])
  {
    hide Flat;
  }

  // ---- runs ----

  lemma {:induction false} StepsSteady(m: State, n: nat, m': State)
    requires Steady(m) && Runs.Steps(Advance, m, n, m')
    ensures Steady(m')
    decreases n
  {
    hide Steady, Step;
    if n > 0 {
      StepSteady(m);
      StepsSteady(Advance(m).value, n - 1, m');
    }
  }

  /** The machine before the first instruction of balanced code, with balanced functions for constants. */
  lemma {:induction false} StartsSteady(fn: Compiled, hs: seq<int>, m: State)
    requires Balanced(fn, hs, true) && Shape(m) && m.frames == [Frame(fn, 0, 0)] && m.sp == fn.numLocals == 0
    requires FlatState(m)
    ensures Steady(m)
  {
    hide Span, Flat;
    assert Disciplined(m, [hs]);
  }

  /**
   On every run of a program of the fragment: the stack pointer is at the base
   of the current frame plus its locals plus the height of the instruction that
   is next, every caller waits at a CALL with its own part of the stack below the
   callee's, and the step to come neither underflows nor leaves the code.
   */
  lemma {:induction false} RunsAreDisciplined(prog: seq<Core.Cmd>, m: State, m': State)
    requires FragProgram(prog) && SlotsB(prog, 0, true)
    requires Shape(m) && m.frames == [Frame(Compiled(CodeP(prog), 0), 0, 0)] && m.sp == 0 && FlatState(m)
    requires Reaches(m, m')
    ensures exists hss :: Disciplined(m', hss)
    ensures Shape(m') && Step(m') != Fault(StackUnderflow) && Step(m') != Fault(BadCode)
  {
    hide Flat, FlatState, Disciplined, Balanced, FragProgram, SlotsB, CodeP, HP, Step;
    ProgramBalanced(prog);
    StartsSteady(Compiled(CodeP(prog), 0), HP(prog), m);
    var n: nat :| Runs.Steps(Advance, m, n, m');
    StepsSteady(m, n, m');
    StepSteady(m');
  }

  // ---- what the compiler leaves ----

  /** Slots within their functions, in a program's own code and in that of its function constants. */
  predicate SlotsProgram(prog: seq<Core.Cmd>, consts: seq<SValue>) {
    SlotsB(prog, 0, true) && forall i | 0 <= i < |consts| && consts[i].VFun? :: FlatF(consts[i].f)
  }

  lemma {:induction false} PoolFlat(consts: seq<SValue>)
    requires forall i | 0 <= i < |consts| && consts[i].VFun? :: FlatF(consts[i].f)
    ensures FlatVs(MapVs(Lower, consts))
  {
    hide FlatF, Balanced;
    var pool := MapVs(Lower, consts);
    forall i | 0 <= i < |pool| ensures FlatV(pool[i]) {
      if consts[i].VFun? {
        FunctionBalanced(consts[i].f);
        assert Balanced(pool[i].f, HF(consts[i].f.body), false);
      }
    }
  }

  /** What the compiler makes of a program of the fragment starts steady. */
  lemma {:induction false} CompiledStartsSteady(b: seq<Ast.Stmt>, v0: View, v1: View, r: Elab<seq<Core.Cmd>>,
                                                stack: seq<MValue>)
    requires v0.code == [] && v0.pool == [] && r == ElabB(b, v0.symbols, 0) && r.Good? && FragProgram(r.x)
    requires ProgramDone(r, None, v0, v1)
    requires SlotsProgram(r.x, r.consts) && |stack| == STACK_SIZE && FlatVs(stack)
    ensures Steady(Loaded(v1, stack))
  {
    hide Flat, FlatF, Disciplined, FragProgram, SlotsB, CodeP, HP, ElabB, ProgramDone, OkProgram, Balanced;
    CompiledIsCode(b, v0, v1, r);
    PoolFlat(r.consts);
    ProgramBalanced(r.x);
    StartsSteady(Compiled(CodeP(r.x), 0), HP(r.x), Loaded(v1, stack));
  }

  /** The discipline holds of all runs of what the compiler makes of a program of the fragment. */
  lemma {:induction false} CompiledRunsAreDisciplined(b: seq<Ast.Stmt>, v0: View, v1: View, r: Elab<seq<Core.Cmd>>,
                                                      stack: seq<MValue>, m': State)
    requires v0.code == [] && v0.pool == [] && r == ElabB(b, v0.symbols, 0) && r.Good? && FragProgram(r.x)
    requires ProgramDone(r, None, v0, v1)
    requires SlotsProgram(r.x, r.consts) && |stack| == STACK_SIZE && FlatVs(stack) && Reaches(Loaded(v1, stack), m')
    ensures exists hss :: Disciplined(m', hss)
    ensures Shape(m') && Step(m') != Fault(StackUnderflow) && Step(m') != Fault(BadCode)
  {
    hide Flat, FlatF, Disciplined, FragProgram, SlotsB, CodeP, Step, ElabB, ProgramDone, OkProgram, Reaches;
    CompiledIsCode(b, v0, v1, r);
    PoolFlat(r.consts);
    RunsAreDisciplined(r.x, Loaded(v1, stack), m');
  }
}
