/**
 What the stack held before a program started makes no difference to it: the
 number of instructions up to HALT is the same for every initial stack.
 */
module Leftovers {
  import opened Opcodes
  import Core
  import opened Objects
  import opened Machine
  import opened Simulation
  import opened CompilerCorrectness
  import Runs

  /** The same but for slots that nothing was written to in s. */
  predicate TwinStacks(s: seq<MValue>, t: seq<MValue>) {
    |t| == |s| && forall i | 0 <= i < |s| :: Written(s[i]) ==> t[i] == s[i]
  }

  predicate Twins(m: State, w: State) { w == m.(stack := w.stack) && TwinStacks(m.stack, w.stack) }

  lemma {:induction false} SameSlice(s: seq<MValue>, t: seq<MValue>, i: nat, j: nat)
    requires TwinStacks(s, t) && i <= j <= |s| && AllWritten(s[i..j])
    ensures t[i..j] == s[i..j]
  {
    forall k | 0 <= k < j - i ensures t[i..j][k] == s[i..j][k] {
      assert Written(s[i..j][k]);
    }
  }

  lemma {:induction false} SameSlot(s: seq<MValue>, t: seq<MValue>, i: nat)
    requires TwinStacks(s, t) && i < |s| && Written(s[i])
    ensures |t| == |s| && t[i] == s[i]
  {
  }

  lemma {:induction false} PutBoth(s: seq<MValue>, t: seq<MValue>, i: nat, v: MValue)
    requires TwinStacks(s, t) && i < |s|
    ensures i < |t| && TwinStacks(s[i := v], t[i := v])
  {
    hide Written;
  }

  lemma {:induction false} TwinShapes(m: State, w: State)
    requires Shape(m) && Twins(m, w)
    ensures Shape(w) && Top(w) == Top(m) && |w.stack| == |m.stack|
  {
  }

  /** Whatever comes of m comes of w, too. */
  predicate TwinOutcomes(o: Outcome, r: Outcome) { o.Next? ==> r.Next? && Twins(o.m, r.m) }

  lemma {:induction false} PushBoth(m: State, w: State, v: MValue, ip: nat)
    requires Shape(m) && Shape(w) && Twins(m, w)
    ensures TwinOutcomes(Push(m, v, ip), Push(w, v, ip))
  {
    hide TwinStacks;
    if m.sp < STACK_SIZE {
      PutBoth(m.stack, w.stack, m.sp, v);
    }
  }

  lemma {:induction false} LoadBoth(m: State, w: State, i: Instr)
    requires Shape(m) && Shape(w) && Twins(m, w)
    requires i.op == OpConst || i.op == OpNull || i.op == OpTrue || i.op == OpFalse || i.op == OpGetBuiltin
          || i.op == OpGetGlobal
    ensures TwinOutcomes(Exec(m, i), Exec(w, i))
  {
    hide TwinStacks, Push, TwinOutcomes, Written;
    TwinShapes(m, w);
    NoNext(BadIndex, BadIndex);
    if i.op == OpConst {
      if i.arg < |m.constants| { PushBoth(m, w, m.constants[i.arg], Top(m).ip + 3); }
    } else if i.op == OpNull {
      PushBoth(m, w, VNull, Top(m).ip + 1);
    } else if i.op == OpTrue {
      PushBoth(m, w, VBool(true), Top(m).ip + 1);
    } else if i.op == OpFalse {
      PushBoth(m, w, VBool(false), Top(m).ip + 1);
    } else if i.op == OpGetBuiltin {
      if i.arg < BUILTINS { PushBoth(m, w, VBuiltin(i.arg), Top(m).ip + 2); }
    } else if i.arg < GLOBALS_SIZE {
      PushBoth(m, w, m.globals[i.arg], Top(m).ip + 3);
    }
  }

  lemma {:induction false} SlotBoth(m: State, w: State, i: Instr)
    requires Shape(m) && Shape(w) && Twins(m, w) && Sure(m, i) && i.op == OpGetLocal
    ensures TwinOutcomes(Exec(m, i), Exec(w, i))
  {
    hide TwinStacks, Push, TwinOutcomes, Written;
    TwinShapes(m, w);
    NoNext(BadIndex, BadIndex);
    var k := Top(m).base + i.arg;
    if k < STACK_SIZE {
      SameSlot(m.stack, w.stack, k);
      PushBoth(m, w, m.stack[k], Top(m).ip + 2);
    }
  }

  lemma {:induction false} NoNext(why: Reason, other: Reason)
    ensures TwinOutcomes(Fault(why), Fault(other))
  {
  }

  lemma {:induction false} MoveBoth(m: State, w: State, i: Instr)
    requires Shape(m) && Shape(w) && Twins(m, w) && (i.op == OpPop || i.op == OpJump)
    ensures TwinOutcomes(Exec(m, i), Exec(w, i))
  {
    hide TwinStacks;
    TwinShapes(m, w);
  }

  lemma {:induction false} TestBoth(m: State, w: State, i: Instr)
    requires Shape(m) && Shape(w) && Twins(m, w) && Sure(m, i) && i.op == OpJumpNotTrue
    ensures TwinOutcomes(Exec(m, i), Exec(w, i))
  {
    hide TwinStacks, Written, Truthy;
    TwinShapes(m, w);
    if m.sp > 0 {
      SameSlot(m.stack, w.stack, m.sp - 1);
    }
  }

  lemma {:induction false} GlobalBoth(m: State, w: State, i: Instr)
    requires Shape(m) && Shape(w) && Twins(m, w) && Sure(m, i) && i.op == OpSetGlobal
    ensures TwinOutcomes(Exec(m, i), Exec(w, i))
  {
    hide TwinStacks, Written;
    TwinShapes(m, w);
    if m.sp > 0 {
      SameSlot(m.stack, w.stack, m.sp - 1);
    }
  }

  lemma {:induction false} LocalBoth(m: State, w: State, i: Instr)
    requires Shape(m) && Shape(w) && Twins(m, w) && Sure(m, i) && i.op == OpSetLocal
    ensures TwinOutcomes(Exec(m, i), Exec(w, i))
  {
    hide TwinStacks, Written;
    TwinShapes(m, w);
    var k := Top(m).base + i.arg;
    if m.sp > 0 && k < STACK_SIZE {
      SameSlot(m.stack, w.stack, m.sp - 1);
      PutBoth(m.stack, w.stack, k, m.stack[m.sp - 1]);
    }
  }

  lemma {:induction false} OperateBoth(m: State, w: State, op: Opcode, n: nat, ip: nat)
    requires Shape(m) && Shape(w) && Twins(m, w) && (n <= m.sp ==> AllWritten(m.stack[m.sp - n..m.sp]))
    ensures TwinOutcomes(Operate(m, op, n, ip), Operate(w, op, n, ip))
  {
    hide TwinStacks, AllWritten, Primitive;
    TwinShapes(m, w);
    if n <= m.sp && Operate(m, op, n, ip).Next? {
      SameSlice(m.stack, w.stack, m.sp - n, m.sp);
      PutBoth(m.stack, w.stack, m.sp - n, Primitive(op, m.heap, m.stack[m.sp - n..m.sp]).value.1);
    }
  }

  lemma {:induction false} CallBoth(m: State, w: State, i: Instr)
    requires Shape(m) && Shape(w) && Twins(m, w) && Sure(m, i) && i.op == OpCall
    ensures TwinOutcomes(Exec(m, i), Exec(w, i))
  {
    hide TwinStacks, Written, AllWritten, CallBuiltin;
    TwinShapes(m, w);
    var n := i.arg;
    if n + 1 <= m.sp {
      SameSlot(m.stack, w.stack, m.sp - 1 - n);
      if m.stack[m.sp - 1 - n].VBuiltin? && Exec(m, i).Next? {
        SameSlice(m.stack, w.stack, m.sp - n, m.sp);
        var args := m.stack[m.sp - n..m.sp];
        PutBoth(m.stack, w.stack, m.sp - n - 1, CallBuiltin(m.stack[m.sp - 1 - n].i, m.heap, args).value.1);
      }
    }
  }

  lemma {:induction false} GiveBoth(m: State, w: State, v: MValue)
    requires Shape(m) && Shape(w) && Twins(m, w)
    ensures TwinOutcomes(Return(m, v), Return(w, v))
  {
    hide TwinStacks;
    TwinShapes(m, w);
    if Return(m, v).Next? {
      PutBoth(m.stack, w.stack, Top(m).base - 1, v);
    }
  }

  lemma {:induction false} ReturnBoth(m: State, w: State, i: Instr)
    requires Shape(m) && Shape(w) && Twins(m, w) && Sure(m, i) && (i.op == OpReturnValue || i.op == OpReturn)
    ensures TwinOutcomes(Exec(m, i), Exec(w, i))
  {
    hide TwinStacks, Written, Return, TwinOutcomes;
    TwinShapes(m, w);
    NoNext(StackUnderflow, StackUnderflow);
    if i.op == OpReturn {
      GiveBoth(m, w, VNull);
    } else if m.sp > 0 {
      SameSlot(m.stack, w.stack, m.sp - 1);
      GiveBoth(m, w, m.stack[m.sp - 1]);
    }
  }

  /** The same instruction does the same to both. */
  lemma {:induction false} BothStep(m: State, w: State, i: Instr)
    requires Shape(m) && Twins(m, w) && Sure(m, i)
    ensures Shape(w) && TwinOutcomes(Exec(m, i), Exec(w, i))
  {
    TwinShapes(m, w);
    if IsOperator(i.op) {
      OperatorBoth(m, w, i);
    } else {
      OtherBoth(m, w, i);
    }
  }

  lemma {:induction false} OperatorBoth(m: State, w: State, i: Instr)
    requires Shape(m) && Shape(w) && Twins(m, w) && Sure(m, i) && IsOperator(i.op)
    ensures TwinOutcomes(Exec(m, i), Exec(w, i))
  {
    hide Twins, AllWritten, Operate, TwinOutcomes;
    TwinTops(m, w);
    OperateBoth(m, w, i.op, Arity(i.op, i.arg), Top(m).ip + Size(i));
  }

  lemma {:induction false} TwinTops(m: State, w: State)
    requires Shape(m) && Shape(w) && Twins(m, w)
    ensures Top(w) == Top(m)
  {
  }

  lemma {:induction false} OtherBoth(m: State, w: State, i: Instr)
    requires Shape(m) && Shape(w) && Twins(m, w) && Sure(m, i) && !IsOperator(i.op)
    ensures TwinOutcomes(Exec(m, i), Exec(w, i))
  {
    hide Twins, Sure, TwinOutcomes, Exec;
    if i.op == OpCall {
      CallBoth(m, w, i);
    } else if i.op == OpReturn || i.op == OpReturnValue {
      ReturnBoth(m, w, i);
    } else if i.op == OpHalt {
      HaltBoth(m, w, i);
    } else if i.op == OpPop || i.op == OpJump {
      MoveBoth(m, w, i);
    } else if i.op == OpJumpNotTrue {
      TestBoth(m, w, i);
    } else if i.op == OpSetGlobal {
      GlobalBoth(m, w, i);
    } else if i.op == OpSetLocal {
      LocalBoth(m, w, i);
    } else if i.op == OpGetLocal {
      SlotBoth(m, w, i);
    } else {
      LoadBoth(m, w, i);
    }
  }

  lemma {:induction false} HaltBoth(m: State, w: State, i: Instr)
    requires Shape(m) && Shape(w) && i.op == OpHalt
    ensures TwinOutcomes(Exec(m, i), Exec(w, i)) && Exec(m, i) == Exec(w, i) == Halted
  {
  }

  lemma {:induction false} BothAdvance(m: State, w: State)
    requires Twins(m, w) && SurelyAdvance(m).Some?
    ensures Advance(w).Some? && Twins(SurelyAdvance(m).value, Advance(w).value)
  {
    hide Twins, Exec, Sure, Fetch;
    var i := Fetch(Top(m).fn.code, Top(m).ip).value;
    BothStep(m, w, i);
    TwinTops(m, w);
  }

  lemma {:induction false} BothSteps(m: State, w: State, n: nat, m': State) returns (w': State)
    requires Twins(m, w) && Runs.Steps(SurelyAdvance, m, n, m')
    ensures Runs.Steps(Advance, w, n, w') && Twins(m', w')
    decreases n
  {
    hide Twins, Advance, SurelyAdvance;
    if n == 0 {
      w' := w;
    } else {
      BothAdvance(m, w);
      w' := BothSteps(SurelyAdvance(m).value, Advance(w).value, n - 1, m');
    }
  }

  // ---- whole programs ----

  /** n instructions lead to HALT. */
  ghost predicate HaltsAfter(m: State, n: nat) {
    exists m1 :: Runs.Steps(Advance, m, n, m1) && Shape(m1) && Step(m1) == Halted
  }

  lemma {:induction false} BothHalt(m: State, w: State)
    requires Twins(m, w) && Shape(m) && Step(m) == Halted
    ensures Shape(w) && Step(w) == Halted
  {
    hide Exec, Fetch;
    TwinShapes(m, w);
    var i := Fetch(Top(m).fn.code, Top(m).ip).value;
    HaltsOnly(m, i);
    HaltBoth(m, w, i);
  }

  lemma {:induction false} HaltsOnly(m: State, i: Instr)
    requires Shape(m) && Exec(m, i) == Halted
    ensures i.op == OpHalt
  {
    hide Primitive, CallBuiltin;
  }

  /** The number of instructions to HALT is n, whatever the stack held. */
  ghost predicate HaltCount(prog: seq<Core.Cmd>, pool: seq<MValue>, n: nat)
    requires |pool| <= CONSTANTS_SIZE
  {
    forall stack: seq<MValue> | |stack| == STACK_SIZE :: HaltsAfter(Boot(prog, pool, stack), n)
  }

  /** HALT is reached once, and nothing runs after it. */
  lemma {:induction false} StepsEnd(m: State, i: nat, m1: State, j: nat, m2: State)
    requires Runs.Steps(Advance, m, i, m1) && Advance(m1).None? && Runs.Steps(Advance, m, j, m2)
    ensures j <= i && (Advance(m2).None? ==> i == j)
    decreases i
  {
    hide Advance;
    if i > 0 && j > 0 {
      StepsEnd(Advance(m).value, i - 1, m1, j - 1, m2);
    }
  }

  /** A run of n instructions is at HALT exactly if n is the count, and else it has not come so far. */
  lemma {:induction false} CountMatches(m0: State, k: nat, n: nat, m: State)
    requires HaltsAfter(m0, k) && Runs.Steps(Advance, m0, n, m)
    ensures n <= k && (Advance(m).None? ==> n == k)
  {
    hide Advance, Step;
    var m1 :| Runs.Steps(Advance, m0, k, m1) && Shape(m1) && Step(m1) == Halted;
    HaltStays(m1);
    StepsEnd(m0, k, m1, n, m);
  }

  lemma {:induction false} HaltStays(m: State)
    requires Shape(m) && Step(m) == Halted
    ensures Advance(m).None?
  {
    hide Step;
  }

  /** A program with a meaning halts after one and the same number of instructions, whatever its stack held. */
  lemma {:induction false} OneCount(prog: seq<Core.Cmd>, pool: seq<MValue>, fuel: nat) returns (n: nat)
    requires OkProgram(prog, pool) && CompilerCorrectness.Run(prog, fuel).Normal?
    ensures HaltCount(prog, pool, n)
  {
    hide OkB, CompilerCorrectness.Run, Advance, Step, SurelyAdvance, Twins;
    var blank := seq(STACK_SIZE, _ => VFun(Compiled([], 0)));
    var m0 := Boot(prog, pool, blank);
    var m := ProgramLeads(prog, pool, blank, fuel, CompilerCorrectness.Run(prog, fuel));
    n :| Runs.Steps(SurelyAdvance, m0, n, m);
    forall stack: seq<MValue> | |stack| == STACK_SIZE ensures HaltsAfter(Boot(prog, pool, stack), n) {
      BlankTwins(m0, stack, Boot(prog, pool, stack));
      var w := BothSteps(m0, Boot(prog, pool, stack), n, m);
      BothHalt(m, w);
    }
  }

  lemma {:induction false} BlankTwins(m: State, stack: seq<MValue>, w: State)
    requires |m.stack| == |stack| && w == m.(stack := stack)
    requires forall i | 0 <= i < |m.stack| :: m.stack[i] == VFun(Compiled([], 0))
    ensures Twins(m, w)
  {
  }

  /** There is no other such number. */
  lemma {:induction false} CountIsUnique(prog: seq<Core.Cmd>, pool: seq<MValue>, i: nat, j: nat)
    requires |pool| <= CONSTANTS_SIZE && HaltCount(prog, pool, i) && HaltCount(prog, pool, j)
    ensures i == j
  {
    hide HaltsAfter, Boot;
    var stack: seq<MValue> := seq(STACK_SIZE, _ => VNull);
    SameCount(Boot(prog, pool, stack), i, j);
  }

  lemma {:induction false} SameCount(m: State, i: nat, j: nat)
    requires HaltsAfter(m, i) && HaltsAfter(m, j)
    ensures i == j
  {
    hide Step, Advance;
    var m1 :| Runs.Steps(Advance, m, i, m1) && Shape(m1) && Step(m1) == Halted;
    HaltStays(m1);
    CountMatches(m, j, i, m1);
  }
}
