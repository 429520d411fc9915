/** Finite runs of a partial transition function. */
module Runs {
  import opened Wrappers

  /** n steps lead from m to m'. */
  ghost predicate Steps<S>(step: S -> Option<S>, m: S, n: nat, m': S)
    decreases n
  {
    if n == 0 then m == m'
    else step(m).Some? && Steps(step, step(m).value, n - 1, m')
  }

  ghost predicate Reaches<S>(step: S -> Option<S>, m: S, m': S) {
    exists n: nat :: Steps(step, m, n, m')
  }

  lemma {:induction false} StepsCompose<S>(step: S -> Option<S>, m: S, i: nat, mid: S, j: nat, m': S)
    requires Steps(step, m, i, mid) && Steps(step, mid, j, m')
    ensures Steps(step, m, i + j, m')
    decreases i
  {
    if i > 0 {
      StepsCompose(step, step(m).value, i - 1, mid, j, m');
    }
  }

  lemma {:induction false} ReachesTrans<S>(step: S -> Option<S>, m: S, mid: S, m': S)
    requires Reaches(step, m, mid) && Reaches(step, mid, m')
    ensures Reaches(step, m, m')
  {
    var i: nat :| Steps(step, m, i, mid);
    var j: nat :| Steps(step, mid, j, m');
    StepsCompose(step, m, i, mid, j, m');
  }

  lemma {:induction false} ReachesStep<S>(step: S -> Option<S>, m: S)
    requires step(m).Some?
    ensures Reaches(step, m, step(m).value)
  {
    assert Steps(step, step(m).value, 0, step(m).value);
    assert Steps(step, m, 1, step(m).value);
  }

  lemma {:induction false} ReachesSelf<S>(step: S -> Option<S>, m: S)
    ensures Reaches(step, m, m)
  {
    assert Steps(step, m, 0, m);
  }
}

/**
 One step of the virtual machine (src/vm.c:449-785) as a function of its state.
 Everything the C code leaves undefined (a stack or frame overflow, a pop of an
 empty stack, an index outside a table, signed overflow) and everything on which
 it aborts is a Fault.
 */
module Machine {
  import opened Wrappers
  import opened Opcodes
  import opened Objects
  import Runs

  const FRAMES_SIZE: nat := 64
  const GLOBALS_SIZE: nat := 64
  const STACK_SIZE: nat := 256
  const ARGS_SIZE: nat := 32

  type MValue = Value<Compiled>

  datatype Frame = Frame(fn: Compiled, ip: nat, base: nat)

  /** The slots at and above sp hold whatever was left there. */
  datatype State = State(
    stack: seq<MValue>, sp: nat, frames: seq<Frame>,
    globals: seq<MValue>, constants: seq<MValue>, heap: Heap<Compiled>)

  predicate Shape(m: State) {
    && |m.stack| == STACK_SIZE && m.sp <= STACK_SIZE
    && |m.globals| == GLOBALS_SIZE && |m.constants| <= CONSTANTS_SIZE
    && 1 <= |m.frames| <= FRAMES_SIZE
  }

  datatype Reason = BadCode | StackOverflow | StackUnderflow | BadIndex | BadOperands | BadCall

  datatype Outcome = Next(m: State) | Halted | Fault(why: Reason)

  function Top(m: State): Frame
    requires Shape(m)
  {
    m.frames[|m.frames| - 1]
  }

  /** The state with the instruction pointer of the current frame moved. */
  function Goto(m: State, ip: nat): (r: State)
    requires Shape(m)
    ensures Shape(r) && Top(r) == Top(m).(ip := ip)
  {
    m.(frames := m.frames[|m.frames| - 1 := Top(m).(ip := ip)])
  }

  function Push(m: State, v: MValue, ip: nat): (r: Outcome)
    requires Shape(m)
    ensures r.Next? ==> Shape(r.m)
  {
    if m.sp >= STACK_SIZE then Fault(StackOverflow)
    else Next(Goto(m, ip).(stack := m.stack[m.sp := v], sp := m.sp + 1))
  }

  /** An operator: n operands off the stack, one result in their place. */
  function Operate(m: State, op: Opcode, n: nat, ip: nat): (r: Outcome)
    requires Shape(m)
    ensures r.Next? ==> Shape(r.m)
  {
    if m.sp < n then Fault(StackUnderflow)
    else if n == 0 && m.sp == STACK_SIZE then Fault(StackOverflow)
    else match Primitive(op, m.heap, m.stack[m.sp - n..m.sp])
         case None => Fault(BadOperands)
         case Some((h, v)) =>
           Next(Goto(m, ip).(stack := m.stack[m.sp - n := v], sp := m.sp - n + 1, heap := h))
  }

  /** The caller keeps its ip at the operand of CALL until the call returns. */
  function Call(m: State, n: nat, ip: nat): (r: Outcome)
    requires Shape(m)
    ensures r.Next? ==> Shape(r.m)
  {
    if m.sp < n + 1 then Fault(StackUnderflow) else
    match m.stack[m.sp - 1 - n]
    case VFun(fn) =>
      if |m.frames| >= FRAMES_SIZE || m.sp - n + fn.numLocals > STACK_SIZE then Fault(StackOverflow)
      else Next(Goto(m, ip + 1).(
        frames := Goto(m, ip + 1).frames + [Frame(fn, 0, m.sp - n)],
        sp := m.sp - n + fn.numLocals))
    case VBuiltin(i) =>
      if n > ARGS_SIZE then Fault(BadCall) else
      (match CallBuiltin(i, m.heap, m.stack[m.sp - n..m.sp])
       case None => Fault(BadOperands)
       case Some((h, v)) =>
         Next(Goto(m, ip + 2).(stack := m.stack[m.sp - n - 1 := v], sp := m.sp - n, heap := h)))
    case _ => Fault(BadCall)
  }

  /** The result replaces the callee and its arguments; the caller resumes after its CALL. */
  function Return(m: State, v: MValue): (r: Outcome)
    requires Shape(m)
    ensures r.Next? ==> Shape(r.m)
  {
    var base := Top(m).base;
    if |m.frames| == 1 || base == 0 || base > STACK_SIZE then Fault(StackUnderflow) else
    var caller := m.frames[|m.frames| - 2];
    Next(m.(stack := m.stack[base - 1 := v], sp := base,
            frames := m.frames[..|m.frames| - 2] + [caller.(ip := caller.ip + 1)]))
  }

  function Exec(m: State, i: Instr): (r: Outcome)
    requires Shape(m)
    ensures r.Next? ==> Shape(r.m)
  {
    var Frame(fn, ip, base) := Top(m);
    match i.op
    case OpConst =>
      if i.arg >= |m.constants| then Fault(BadIndex) else Push(m, m.constants[i.arg], ip + 3)
    case OpNull => Push(m, VNull, ip + 1)
    case OpTrue => Push(m, VBool(true), ip + 1)
    case OpFalse => Push(m, VBool(false), ip + 1)
    case OpPop =>
      if m.sp == 0 then Fault(StackUnderflow) else Next(Goto(m, ip + 1).(sp := m.sp - 1))
    case OpJump => Next(Goto(m, i.arg))
    case OpJumpNotTrue =>
      if m.sp == 0 then Fault(StackUnderflow)
      else Next(Goto(m, if Truthy(m.stack[m.sp - 1]) then ip + 3 else i.arg).(sp := m.sp - 1))
    case OpGetGlobal =>
      if i.arg >= GLOBALS_SIZE then Fault(BadIndex) else Push(m, m.globals[i.arg], ip + 3)
    case OpSetGlobal =>
      if m.sp == 0 then Fault(StackUnderflow)
      else if i.arg >= GLOBALS_SIZE then Fault(BadIndex)
      else Next(Goto(m, ip + 3).(sp := m.sp - 1, globals := m.globals[i.arg := m.stack[m.sp - 1]]))
    case OpGetLocal =>
      if base + i.arg >= STACK_SIZE then Fault(BadIndex) else Push(m, m.stack[base + i.arg], ip + 2)
    case OpSetLocal =>
      if m.sp == 0 then Fault(StackUnderflow)
      else if base + i.arg >= STACK_SIZE then Fault(BadIndex)
      else Next(Goto(m, ip + 2).(sp := m.sp - 1, stack := m.stack[base + i.arg := m.stack[m.sp - 1]]))
    case OpGetBuiltin =>
      if i.arg >= BUILTINS then Fault(BadIndex) else Push(m, VBuiltin(i.arg), ip + 2)
    case OpCall => Call(m, i.arg, ip)
    case OpReturnValue =>
      if m.sp == 0 then Fault(StackUnderflow) else Return(m, m.stack[m.sp - 1])
    case OpReturn => Return(m, VNull)
    case OpHalt => Halted
    case OpArray => Operate(m, OpArray, i.arg, ip + 3)
    case _ => Operate(m, i.op, Arity(i.op, i.arg), ip + 1)
  }

  function Step(m: State): (r: Outcome)
    requires Shape(m)
    ensures r.Next? ==> Shape(r.m)
  {
    match Fetch(Top(m).fn.code, Top(m).ip)
    case None => Fault(BadCode)
    case Some(i) => Exec(m, i)
  }

  /** Step as a partial transition. */
  function Advance(m: State): Option<State> {
    if Shape(m) && Step(m).Next? then Some(Step(m).m) else None
  }

  ghost predicate Reaches(m: State, m': State) {
    Runs.Reaches(Advance, m, m')
  }
}
