/**
 The collector beside the machine: every step of an array-free run does to
 references what one of the collector's acts says, so the results on acts are
 results on vm_run (src/vm.c:129-374, src/vm.c:537-785).
 */
module CollectedMachine {
  import opened Wrappers
  import opened Opcodes
  import opened Objects
  import opened Machine
  import opened StackHeights
  import opened StackDiscipline
  import opened Collection
  import opened Mutators
  import opened CollectorSafety

  // ---- values and objects ----

  /** What the collector sees of a value; values have no addresses, and arrays are left out. */
  predicate Shows(v: MValue, o: Obj) {
    match v
    case VNull => o == Null
    case VStr(_) => o.Obj? && o.kind == StringKind
    case VFun(_) => o.Obj? && o.kind == FunctionKind
    case VError(_) => o.Obj? && o.kind == ErrorKind
    case VArray(_) => false
    case _ => o == Scalar
  }

  predicate ShowAll(vs: seq<MValue>, os: seq<Obj>) {
    |vs| == |os| && forall i | 0 <= i < |vs| :: Shows(vs[i], os[i])
  }

  predicate View(m: State, a: Mutator) {
    match m
    case State(stack, sp, _, globals, constants, _) =>
      sp == a.sp && ShowAll(stack, a.stack) && ShowAll(globals, a.globals) && ShowAll(constants, a.constants)
  }

  lemma {:induction false} ShownAt(vs: seq<MValue>, os: seq<Obj>, i: nat)
    requires ShowAll(vs, os) && i < |vs|
    ensures i < |os| && Shows(vs[i], os[i])
  {
  }

  lemma {:induction false} ShownPut(vs: seq<MValue>, os: seq<Obj>, i: nat, v: MValue, o: Obj)
    requires ShowAll(vs, os) && i < |vs| && Shows(v, o)
    ensures ShowAll(vs[i := v], os[i := o])
  {
    var ws, qs := vs[i := v], os[i := o];
    forall j | 0 <= j < |ws| ensures Shows(ws[j], qs[j]) { assert Shows(vs[j], os[j]); }
  }

  lemma {:induction false} NoneShown(vs: seq<MValue>, os: seq<Obj>, i: nat, j: nat)
    requires ShowAll(vs, os) && i <= j <= |vs|
    ensures forall v | v in vs[i..j] :: !v.VArray?
  {
    forall v | v in vs[i..j] ensures !v.VArray? {
      var k :| 0 <= k < j - i && vs[i..j][k] == v;
      assert Shows(vs[i + k], os[i + k]);
    }
  }

  // ---- the act of an instruction ----

  /** The result of an operator or a builtin: a string or an error is a new object. */
  function ResultAct(v: MValue, n: nat, pushed: bool): Act {
    match v
    case VNull => Replace(n, Null)
    case VStr(_) => New(n, StringKind, pushed)
    case VError(_) => New(n, ErrorKind, pushed)
    case _ => Replace(n, Scalar)
  }

  /** Results that are no array and no function. */
  predicate Simple(v: MValue) { !v.VArray? && !v.VFun? }

  function OperatorAct(m: State, op: Opcode, n: nat): Act
    requires Shape(m)
  {
    if m.sp < n then Stay else
    match Primitive(op, m.heap, m.stack[m.sp - n..m.sp])
    case None => Stay
    case Some((_, v)) => ResultAct(v, n, op != OpSlice)
  }

  function CallAct(m: State, n: nat): Act
    requires Shape(m)
  {
    if m.sp < n + 1 then Stay else
    match m.stack[m.sp - 1 - n]
    case VFun(fn) => Enter(n, fn.numLocals)
    case VBuiltin(i) =>
      (match CallBuiltin(i, m.heap, m.stack[m.sp - n..m.sp])
       case None => Stay
       case Some((_, v)) => ResultAct(v, n + 1, true))
    case _ => Stay
  }

  function ActOf(m: State, i: Instr): Act
    requires Shape(m)
  {
    var base := Top(m).base;
    match i.op
    case OpConst => PushConstant(i.arg)
    case OpNull => PushPlain(Null)
    case OpTrue => PushPlain(Scalar)
    case OpFalse => PushPlain(Scalar)
    case OpGetBuiltin => PushPlain(Scalar)
    case OpPop => Pop
    case OpJump => Stay
    case OpJumpNotTrue => Pop
    case OpGetGlobal => PushGlobal(i.arg)
    case OpSetGlobal => SetGlobal(i.arg)
    case OpGetLocal => PushLocal(base + i.arg)
    case OpSetLocal => SetLocal(base + i.arg)
    case OpCall => CallAct(m, i.arg)
    case OpReturnValue => Leave(base)
    case OpReturn => if m.sp + 1 < base then Stay else Replace(m.sp + 1 - base, Null)
    case OpHalt => Stay
    case _ => OperatorAct(m, i.op, Arity(i.op, i.arg))
  }

  // ---- results without arrays ----

  lemma {:induction false} SimplePrimitive(op: Opcode, vs: seq<MValue>)
    requires forall v | v in vs :: !v.VArray?
    ensures var r := Primitive<Compiled>(op, [], vs); r.Some? && r.value.0 == [] ==> Simple(r.value.1)
  {
    hide SliceOf, CopyList;
    match op
    case OpArray =>
    case OpIndexGet => if |vs| == 2 { assert vs[0] in vs; }
    case OpIndexSet => if |vs| == 3 { assert vs[0] in vs; }
    case OpSlice => if |vs| == 3 { assert vs[0] in vs; }
    case _ =>
  }

  lemma {:induction false} SimpleBuiltin(i: nat, vs: seq<MValue>)
    requires forall v | v in vs :: !v.VArray?
    ensures var r := CallBuiltin<Compiled>(i, [], vs); r.Some? && r.value.0 == [] ==> Simple(r.value.1)
  {
    hide Split, Find;
    if |vs| > 0 { assert vs[0] in vs; }
  }

  // ---- one step ----

  /** What the discipline of the stack gives: a function's locals are below sp. */
  predicate Framed(m: State, i: Instr)
    requires Shape(m)
  {
    var base := Top(m).base;
    && (i.op == OpGetLocal || i.op == OpSetLocal ==> base + i.arg < m.sp)
    && (i.op == OpReturn || i.op == OpReturnValue ==> base <= m.sp)
  }

  lemma {:induction false} SteadyFramed(m: State) returns (i: Instr)
    requires Steady(m)
    ensures Shape(m) && Fetch(Top(m).fn.code, Top(m).ip) == Some(i) && Framed(m, i) && Step(m) == Exec(m, i)
  {
    hide Flat, FlatState, Disciplined, Balanced, Fetch, Exec;
    var hss :| Disciplined(m, hss);
    SomeShape(m, hss);
    var hs, h;
    i, hs, h := NextInstr(m, hss);
  }

  /** Whatever the collector does at the step, it goes on seeing the machine as it is. */
  lemma {:induction false} StepSeen(m: State, i: Instr, m': State, a: Mutator, collects: bool, a': Mutator)
    requires Shape(m) && Exec(m, i) == Next(m') && Framed(m, i) && View(m, a) && m.heap == [] && m'.heap == []
    requires Does(a, ActOf(m, i), collects, a')
    ensures View(m', a')
  {
    hide ShowAll, Primitive, CallBuiltin, Adds, After, OperatorAct, CallAct;
    var act := ActOf(m, i);
    AfterSeen(m, i, m', a);
    SameView(m', a, act, collects, a');
  }

  /** The list and its marks are not part of what is seen. */
  lemma {:induction false} SameView(m: State, a: Mutator, act: Act, collects: bool, a': Mutator)
    requires Does(a, act, collects, a') && View(m, After(a, act))
    ensures View(m, a')
  {
    hide After, RootsAt, Collects, NextCap;
  }

  lemma {:induction false} AfterSeen(m: State, i: Instr, m': State, a: Mutator)
    requires Shape(m) && Exec(m, i) == Next(m') && Framed(m, i) && View(m, a) && m.heap == [] && m'.heap == []
    ensures Allowed(a, ActOf(m, i)) && View(m', After(a, ActOf(m, i)))
  {
    hide ShowAll, Operate, Call, Return, Push, OperatorAct, CallAct, View, After, Allowed;
    match i.op
    case OpConst => ConstSeen(m, i, m', a);
    case OpNull => PlainSeen(m, i, m', a);
    case OpTrue => PlainSeen(m, i, m', a);
    case OpFalse => PlainSeen(m, i, m', a);
    case OpGetBuiltin => BuiltinSeen(m, i, m', a);
    case OpGetGlobal => GlobalLoadSeen(m, i, m', a);
    case OpGetLocal => LocalLoadSeen(m, i, m', a);
    case OpPop => JumpSeen(m, i, m', a);
    case OpJump => JumpSeen(m, i, m', a);
    case OpJumpNotTrue => JumpSeen(m, i, m', a);
    case OpSetGlobal => GlobalSeen(m, i, m', a);
    case OpSetLocal => LocalSeen(m, i, m', a);
    case OpReturnValue => ReturnValueSeen(m, i, m', a);
    case OpReturn => ReturnSeen(m, i, m', a);
    case OpCall => CallSeen(m, i.arg, Top(m).ip, m', a);
    case OpArray => OperateSeen(m, OpArray, i.arg, Top(m).ip + 3, m', a);
    case _ => OperateSeen(m, i.op, Arity(i.op, i.arg), Top(m).ip + 1, m', a);
  }

  lemma {:induction false} PushSeen(m: State, v: MValue, ip: nat, m': State, a: Mutator, o: Obj)
    requires Shape(m) && Push(m, v, ip) == Next(m') && View(m, a) && Shows(v, o)
    ensures a.sp < |a.stack| && View(m', Put(a, a.sp, o, a.sp + 1))
  {
    hide ShowAll, Shows;
    ShownSizes(m, a);
    ShownPut(m.stack, a.stack, m.sp, v, o);
  }

  /** Instructions that push a value. */
  lemma {:induction false} ConstSeen(m: State, i: Instr, m': State, a: Mutator)
    requires Shape(m) && Exec(m, i) == Next(m') && View(m, a) && i.op == OpConst
    ensures Allowed(a, ActOf(m, i)) && View(m', After(a, ActOf(m, i)))
  {
    hide ShowAll, View, Push;
    ShownSizes(m, a);
    ShownAt(m.constants, a.constants, i.arg);
    PushSeen(m, m.constants[i.arg], Top(m).ip + 3, m', a, a.constants[i.arg]);
  }

  lemma {:induction false} PlainSeen(m: State, i: Instr, m': State, a: Mutator)
    requires Shape(m) && Exec(m, i) == Next(m') && View(m, a) && (i.op == OpNull || i.op == OpTrue || i.op == OpFalse)
    ensures Allowed(a, ActOf(m, i)) && View(m', After(a, ActOf(m, i)))
  {
    hide ShowAll, View, Push;
    ShownSizes(m, a);
    if i.op == OpNull {
      PushSeen(m, VNull, Top(m).ip + 1, m', a, Null);
    } else {
      PushSeen(m, VBool(i.op == OpTrue), Top(m).ip + 1, m', a, Scalar);
    }
  }

  lemma {:induction false} BuiltinSeen(m: State, i: Instr, m': State, a: Mutator)
    requires Shape(m) && Exec(m, i) == Next(m') && View(m, a) && i.op == OpGetBuiltin
    ensures Allowed(a, ActOf(m, i)) && View(m', After(a, ActOf(m, i)))
  {
    hide ShowAll, View, Push;
    ShownSizes(m, a);
    PushSeen(m, VBuiltin(i.arg), Top(m).ip + 2, m', a, Scalar);
  }

  lemma {:induction false} GlobalLoadSeen(m: State, i: Instr, m': State, a: Mutator)
    requires Shape(m) && Exec(m, i) == Next(m') && View(m, a) && i.op == OpGetGlobal
    ensures Allowed(a, ActOf(m, i)) && View(m', After(a, ActOf(m, i)))
  {
    hide ShowAll, View, Push;
    ShownSizes(m, a);
    ShownAt(m.globals, a.globals, i.arg);
    PushSeen(m, m.globals[i.arg], Top(m).ip + 3, m', a, a.globals[i.arg]);
  }

  lemma {:induction false} LocalLoadSeen(m: State, i: Instr, m': State, a: Mutator)
    requires Shape(m) && Exec(m, i) == Next(m') && Framed(m, i) && View(m, a) && i.op == OpGetLocal
    ensures Allowed(a, ActOf(m, i)) && View(m', After(a, ActOf(m, i)))
  {
    hide ShowAll, View, Push;
    ShownSizes(m, a);
    var k := Top(m).base + i.arg;
    ShownAt(m.stack, a.stack, k);
    PushSeen(m, m.stack[k], Top(m).ip + 2, m', a, a.stack[k]);
  }

  /** Instructions that pop or jump. */
  lemma {:induction false} JumpSeen(m: State, i: Instr, m': State, a: Mutator)
    requires Shape(m) && Exec(m, i) == Next(m') && View(m, a)
    requires (i.op == OpPop || i.op == OpJump || i.op == OpJumpNotTrue)
    ensures Allowed(a, ActOf(m, i)) && View(m', After(a, ActOf(m, i)))
  {
    hide ShowAll, Truthy;
    ShownSizes(m, a);
  }

  lemma {:induction false} GlobalSeen(m: State, i: Instr, m': State, a: Mutator)
    requires Shape(m) && Exec(m, i) == Next(m') && View(m, a) && i.op == OpSetGlobal
    ensures Allowed(a, ActOf(m, i)) && View(m', After(a, ActOf(m, i)))
  {
    hide ShowAll;
    ShownSizes(m, a);
    ShownAt(m.stack, a.stack, m.sp - 1);
    ShownPut(m.globals, a.globals, i.arg, m.stack[m.sp - 1], a.stack[m.sp - 1]);
  }

  lemma {:induction false} LocalSeen(m: State, i: Instr, m': State, a: Mutator)
    requires Shape(m) && Exec(m, i) == Next(m') && Framed(m, i) && View(m, a) && i.op == OpSetLocal
    ensures Allowed(a, ActOf(m, i)) && View(m', After(a, ActOf(m, i)))
  {
    hide ShowAll;
    ShownSizes(m, a);
    ShownAt(m.stack, a.stack, m.sp - 1);
    ShownPut(m.stack, a.stack, Top(m).base + i.arg, m.stack[m.sp - 1], a.stack[m.sp - 1]);
  }

  lemma {:induction false} ReturnValueSeen(m: State, i: Instr, m': State, a: Mutator)
    requires Shape(m) && Exec(m, i) == Next(m') && Framed(m, i) && View(m, a) && i.op == OpReturnValue
    ensures Allowed(a, ActOf(m, i)) && View(m', After(a, ActOf(m, i)))
  {
    hide ShowAll;
    ShownSizes(m, a);
    ShownAt(m.stack, a.stack, m.sp - 1);
    ShownPut(m.stack, a.stack, Top(m).base - 1, m.stack[m.sp - 1], a.stack[m.sp - 1]);
  }

  lemma {:induction false} ReturnSeen(m: State, i: Instr, m': State, a: Mutator)
    requires Shape(m) && Exec(m, i) == Next(m') && Framed(m, i) && View(m, a) && i.op == OpReturn
    ensures Allowed(a, ActOf(m, i)) && View(m', After(a, ActOf(m, i)))
  {
    hide ShowAll;
    ShownSizes(m, a);
    ShownPut(m.stack, a.stack, Top(m).base - 1, VNull, Null);
  }

  lemma {:induction false} ShownSizes(m: State, a: Mutator)
    requires View(m, a)
    ensures |a.stack| == |m.stack| && |a.globals| == |m.globals| && |a.constants| == |m.constants| && a.sp == m.sp
    ensures ShowAll(m.stack, a.stack) && ShowAll(m.globals, a.globals) && ShowAll(m.constants, a.constants)
  {
  }

  lemma {:induction false} ResultSeen(m: State, m': State, a: Mutator, n: nat, v: MValue, pushed: bool)
    requires View(m, a) && Simple(v) && n <= m.sp <= |m.stack| && m.sp - n < |m.stack|
    requires m'.stack == m.stack[m.sp - n := v] && m'.sp == m.sp - n + 1 && m'.globals == m.globals
    requires m'.constants == m.constants
    ensures Allowed(a, ResultAct(v, n, pushed)) && View(m', After(a, ResultAct(v, n, pushed)))
  {
    hide ShowAll;
    ShownSizes(m, a);
    var act := ResultAct(v, n, pushed);
    ShownPut(m.stack, a.stack, m.sp - n, v, After(a, act).stack[m.sp - n]);
  }

  lemma {:induction false} OperateSeen(m: State, op: Opcode, n: nat, ip: nat, m': State, a: Mutator)
    requires Shape(m) && View(m, a) && m.heap == [] && m'.heap == [] && Operate(m, op, n, ip) == Next(m')
    ensures Allowed(a, OperatorAct(m, op, n)) && View(m', After(a, OperatorAct(m, op, n)))
  {
    hide ShowAll, Primitive, View;
    var vs := m.stack[m.sp - n..m.sp];
    ShownSizes(m, a);
    NoneShown(m.stack, a.stack, m.sp - n, m.sp);
    SimplePrimitive(op, vs);
    ResultSeen(m, m', a, n, Primitive(op, m.heap, vs).value.1, op != OpSlice);
  }

  lemma {:induction false} CallSeen(m: State, n: nat, ip: nat, m': State, a: Mutator)
    requires Shape(m) && View(m, a) && m.heap == [] && m'.heap == [] && Call(m, n, ip) == Next(m')
    ensures Allowed(a, CallAct(m, n)) && View(m', After(a, CallAct(m, n)))
  {
    hide ShowAll, CallBuiltin;
    ShownSizes(m, a);
    match m.stack[m.sp - 1 - n]
    case VFun(_) =>
    case VBuiltin(i) =>
      var vs := m.stack[m.sp - n..m.sp];
      NoneShown(m.stack, a.stack, m.sp - n, m.sp);
      SimpleBuiltin(i, vs);
      ResultSeen(m, m', a, n + 1, CallBuiltin(i, m.heap, vs).value.1, true);
  }

  // ---- runs ----

  /** Successive states of the machine, none with an array. */
  ghost predicate Execution(ms: seq<State>) {
    && ms != []
    && (forall k | 0 <= k < |ms| :: Shape(ms[k]) && ms[k].heap == [])
    && forall k | 0 <= k < |ms| - 1 :: Step(ms[k]) == Next(ms[k + 1])
  }

  /** The collector's run beside an execution: one act per instruction. */
  ghost predicate BesideAt(ms: seq<State>, run: seq<Move>, k: nat)
    requires k < |run| && k < |ms| && Shape(ms[k])
  {
    match Fetch(Top(ms[k]).fn.code, Top(ms[k]).ip)
    case None => false
    case Some(i) => run[k].act == ActOf(ms[k], i)
  }

  ghost predicate Beside(ms: seq<State>, a: Mutator, run: seq<Move>)
    requires Execution(ms)
  {
    |ms| == |run| + 1 && Run(a, run) && forall k | 0 <= k < |run| :: BesideAt(ms, run, k)
  }

  lemma {:induction false} ExecutionSteady(ms: seq<State>, k: nat)
    requires Execution(ms) && Steady(ms[0]) && k < |ms|
    ensures Steady(ms[k])
    decreases k
  {
    hide Steady, Step;
    if k > 0 {
      ExecutionSteady(ms, k - 1);
      StepSteady(ms[k - 1]);
      assert Step(ms[k - 1]) == Next(ms[k - 1 + 1]);
    }
  }

  /** At every time the collector sees exactly the machine's values. */
  lemma {:induction false} ExecutionSeen(ms: seq<State>, a: Mutator, run: seq<Move>, k: nat)
    requires Execution(ms) && Steady(ms[0]) && View(ms[0], a) && Beside(ms, a, run) && k < |ms|
    ensures View(ms[k], StateAt(a, run, k))
    decreases k
  {
    hide Steady, Step, View, Does, ActOf, Exec, Fetch, Framed;
    if k > 0 {
      ExecutionSeen(ms, a, run, k - 1);
      ExecutionSteady(ms, k - 1);
      RunAt(a, run, k - 1);
      assert BesideAt(ms, run, k - 1) && Step(ms[k - 1]) == Next(ms[k - 1 + 1]);
      var i := SteadyFramed(ms[k - 1]);
      StepSeen(ms[k - 1], i, ms[k], StateAt(a, run, k - 1), run[k - 1].collects, run[k - 1].next);
    }
  }

  // ---- building the collector's run ----

  ghost predicate Built(m0: Mutator, run: seq<Move>, m: Mutator) {
    Run(m0, run) && Timely(m0, run) && StateAt(m0, run, |run|) == m
  }

  lemma {:induction false} Nothing(m: Mutator)
    ensures Built(m, [], m)
  {
  }

  lemma {:induction false} AddMove(m0: Mutator, run: seq<Move>, m: Mutator, x: Move) returns (longer: seq<Move>)
    requires Built(m0, run, m) && Does(m, x.act, x.collects, x.next) && (x.act.New? ==> (x.collects <==> Due(m)))
    ensures Built(m0, longer, x.next) && longer == run + [x]
  {
    hide Does, Due;
    assert DoesAt(m, [x], 0) && TimelyAt(m, [x], 0);
    RunOn(m0, run, [x]);
    longer := run + [x];
  }

  /** A new object in a list that is not yet four fifths full. */
  function Listed(m: Mutator, act: Act): Mutator
    requires act.New? && Allowed(m, act)
  {
    After(m, act).(list := m.list + [NewObj(m, act)], cap := NextCap(|m.list|, m.cap))
  }

  /** A new object after a collection. */
  function Collected(m: Mutator, act: Act): Mutator
    requires act.New? && Allowed(m, act)
  {
    var marks := m.marked + RootsAt(m, act);
    var kept := Kept(m.list, marks);
    After(m, act).(list := kept + [NewObj(m, act)], cap := NextCap(|kept|, m.cap),
                   marked := marks - Addrs(m.list), freed := m.freed + multiset(Dropped(m.list, marks)))
  }

  /** Such a run exists beside every execution, with collections when they are due. */
  lemma {:induction false} HasCollector(ms: seq<State>, a: Mutator) returns (run: seq<Move>)
    requires Execution(ms) && Steady(ms[0]) && View(ms[0], a)
    ensures Beside(ms, a, run) && Timely(a, run)
    decreases |ms|
  {
    hide Steady, Step, View, ActOf, Exec, Fetch, Framed, Built, Due, After, Allowed, Listed, Collected;
    if |ms| == 1 {
      Nothing(a);
      run := [];
      BuiltParts(a, [], a);
    } else {
      var n := |ms| - 2;
      var less := ms[..n + 1];
      assert Execution(less);
      var shorter := HasCollector(less, a);
      assert forall k | 0 <= k < n :: BesideAt(less, shorter, k);
      ExecutionSeen(less, a, shorter, n);
      ExecutionSteady(ms, n);
      var s := StateAt(a, shorter, n);
      var i := SteadyFramed(ms[n]);
      assert Step(ms[n]) == Next(ms[n + 1]);
      AfterSeen(ms[n], i, ms[n + 1], s);
      var act := ActOf(ms[n], i);
      BuiltFrom(a, shorter, s);
      run := OneAct(a, shorter, s, act);
      forall k | 0 <= k < |run| ensures BesideAt(ms, run, k) {
        if k < n { assert BesideAt(less, shorter, k) && run[k] == shorter[k]; }
      }
    }
  }

  lemma {:induction false} BuiltParts(a: Mutator, run: seq<Move>, m: Mutator)
    requires Built(a, run, m)
    ensures Run(a, run) && Timely(a, run) && StateAt(a, run, |run|) == m
  {
  }

  lemma {:induction false} BuiltFrom(a: Mutator, run: seq<Move>, m: Mutator)
    requires Run(a, run) && Timely(a, run) && StateAt(a, run, |run|) == m
    ensures Built(a, run, m)
  {
  }

  lemma {:induction false} OneAct(a: Mutator, run: seq<Move>, m: Mutator, act: Act) returns (longer: seq<Move>)
    requires Built(a, run, m) && Allowed(m, act)
    ensures Run(a, longer) && Timely(a, longer) && |longer| == |run| + 1 && longer[..|run|] == run
    ensures longer[|run|].act == act
  {
    hide After, Allowed, Due, Does, Built, Effect;
    var x := Move(act, act.New? && Due(m), Effect(m, act));
    EffectDoes(m, act);
    longer := AddMove(a, run, m, x);
    BuiltParts(a, longer, x.next);
  }

  function Effect(m: Mutator, act: Act): Mutator
    requires Allowed(m, act)
  {
    if !act.New? then After(m, act) else if Due(m) then Collected(m, act) else Listed(m, act)
  }

  lemma {:induction false} EffectDoes(m: Mutator, act: Act)
    requires Allowed(m, act)
    ensures Does(m, act, act.New? && Due(m), Effect(m, act))
  {
    hide After, RootsAt, Kept, Dropped, Addrs;
    if act.New? {
      var m' := Effect(m, act);
      assert m'.list[..|m'.list| - 1] == if Due(m) then Kept(m.list, m.marked + RootsAt(m, act)) else m.list;
    }
  }

  // ---- what it comes to ----

  /** How the collector sees a machine whose stack refers to nothing yet. */
  function Blank(v: MValue): Obj { if v.VNull? then Null else Scalar }

  function ConstantObj(v: MValue, addr: nat): Obj {
    match v
    case VNull => Null
    case VStr(_) => Obj(StringKind, addr)
    case VFun(_) => Obj(FunctionKind, addr)
    case VError(_) => Obj(ErrorKind, addr)
    case _ => Scalar
  }

  /** Values that are no references. */
  predicate Unreferring(vs: seq<MValue>) {
    forall i | 0 <= i < |vs| :: !vs[i].VStr? && !vs[i].VFun? && !vs[i].VError? && !vs[i].VArray?
  }

  function StartOf(m: State): Mutator {
    Mutator(seq(|m.stack|, i requires 0 <= i < |m.stack| => Blank(m.stack[i])), m.sp,
            seq(|m.globals|, i requires 0 <= i < |m.globals| => Blank(m.globals[i])),
            seq(|m.constants|, i requires 0 <= i < |m.constants| => ConstantObj(m.constants[i], i)),
            [], 256, {}, multiset{}, |m.constants|)
  }

  /** Where the machine starts there is nothing to free, and no stale mark. */
  lemma {:induction false} VmStarts(m: State)
    requires Shape(m) && m.sp == 0 && Unreferring(m.stack) && Unreferring(m.globals)
    requires forall i | 0 <= i < |m.constants| :: !m.constants[i].VArray?
    ensures var a := StartOf(m); View(m, a) && Sane(a) && Safe(a) && OneStale(a) && a.freed == multiset{}
  {
    var a := StartOf(m);
    forall i | 0 <= i < |m.stack| ensures Shows(m.stack[i], a.stack[i]) && Old(a.stack[i], a.next) {}
    forall i | 0 <= i < |m.globals| ensures Shows(m.globals[i], a.globals[i]) && Old(a.globals[i], a.next)
      && Alive(a.globals[i], a.freed) {}
    forall i | 0 <= i < |m.constants|
      ensures Shows(m.constants[i], a.constants[i]) && Old(a.constants[i], a.next) && Alive(a.constants[i], a.freed) {}
  }

  /** Every value in use at this time refers to an object that is not freed. */
  ghost predicate Live(m: State, a: Mutator) {
    && View(m, a)
    && (forall i | 0 <= i < m.sp && i < |m.stack| && i < |a.stack| :: Alive(a.stack[i], a.freed))
    && AllAlive(a.constants, a.freed) && AllAlive(a.globals, a.freed)
  }

  lemma {:induction false} LiveIffSafe(m: State, a: Mutator)
    requires View(m, a) && Shape(m)
    ensures Live(m, a) <==> Safe(a)
  {
    ShownSizes(m, a);
    if Safe(a) {
      forall i | 0 <= i < m.sp ensures Alive(a.stack[i], a.freed) { SlotAlive(a, i); }
    }
  }

  /**
   The machine and its collector, array-free: on any execution that keeps the stack
   discipline, with collections at any additions, every value in use at every time
   refers to an unfreed object if and only if no call exposes a slot whose object
   was dropped and no collection drops a global behind a null.
   */
  lemma {:induction false} ExecutionSafeIff(ms: seq<State>, run: seq<Move>)
    requires Execution(ms) && Steady(ms[0]) && ms[0].sp == 0 && Unreferring(ms[0].stack) && Unreferring(ms[0].globals)
    requires forall i | 0 <= i < |ms[0].constants| :: !ms[0].constants[i].VArray?
    requires Beside(ms, StartOf(ms[0]), run)
    ensures var a := StartOf(ms[0]);
            (forall k | 0 <= k < |ms| :: Live(ms[k], StateAt(a, run, k)))
              <==> (forall k | 0 <= k < |run| :: Watched(a, run, k))
  {
    hide Steady, Step, View, Live, Watched, Run, StartOf, Safe, Sane, BesideAt, Unreferring;
    var a := StartOf(ms[0]);
    VmStarts(ms[0]);
    RunSafeIff(a, run);
    forall k | 0 <= k < |ms| ensures Live(ms[k], StateAt(a, run, k)) <==> Safe(StateAt(a, run, k)) {
      ExecutionSeen(ms, a, run, k);
      LiveIffSafe(ms[k], StateAt(a, run, k));
    }
    if forall k | 0 <= k < |ms| :: Live(ms[k], StateAt(a, run, k)) {
      forall k | 0 <= k <= |run| ensures Safe(StateAt(a, run, k)) { assert Live(ms[k], StateAt(a, run, k)); }
    }
  }
}
