/**
 What a condition is, on both sides of the compiler: null and false are not true,
 and everything else is, 0 and the empty string included (src/vm.c:568-577).
 */
module ConditionLaws {
  import opened Wrappers
  import opened Opcodes
  import opened Core
  import opened Objects
  import opened Semantics
  import opened Machine

  predicate IsFalse<F(==)>(v: Value<F>) { v == VNull || v == VBool(false) }

  // ---- the machine ----

  /** The conditional jump takes its operand off, and jumps on null and on false. */
  lemma {:induction false} JumpOnFalse(m: State, target: nat)
    requires Shape(m) && m.sp > 0
    ensures var r := Exec(m, Instr(OpJumpNotTrue, target));
            && r.Next? && Shape(r.m) && r.m == m.(frames := r.m.frames, sp := m.sp - 1)
            && Top(r.m).ip == (if IsFalse(m.stack[m.sp - 1]) then target else Top(m).ip + 3)
            && Top(r.m) == Top(m).(ip := Top(r.m).ip) && |r.m.frames| == |m.frames|
            && r.m.frames[..|m.frames| - 1] == m.frames[..|m.frames| - 1]
  {
  }

  // ---- the source ----

  /** A branch is the consequence, unless the test is null or false. */
  lemma {:induction false} BranchTaken(t: Term, st: Store, room: int, depth: nat, fuel: nat, v: SValue, st1: Store)
    requires t.Cond? && EvalT(t.test, st, room, depth, fuel) == Normal(v, st1)
    ensures EvalT(t, st, room, depth, fuel)
         == if IsFalse(v) then EvalB(t.alt, st1, room, depth, fuel) else EvalB(t.conseq, st1, room, depth, fuel)
  {
    hide EvalB;
  }

  /** A loop ends by its test when that is null or false, with the value of the rounds so far, and in no other case. */
  lemma {:induction false} LoopEndsByTest(c: Term, body: seq<Cmd>, inc: seq<Cmd>, w: SValue, st: Store, room: int,
                                          depth: nat, fuel: nat, v: SValue, st1: Store)
    requires fuel > 0 && EvalT(c, st, room - 1, depth, fuel - 1) == Normal(v, st1)
    ensures IsFalse(v) ==> EvalLoop(Some(c), body, inc, w, st, room, depth, fuel) == Normal(w, st1)
    ensures !IsFalse(v) ==>
              EvalLoop(Some(c), body, inc, w, st, room, depth, fuel)
              == Round(Some(c), body, inc, w, st1, room, depth, fuel)
  {
    hide EvalT, EvalB, EvalBody;
  }

  /** One more round: body, increment, and the loop again. */
  function Round(until: Option<Term>, body: seq<Cmd>, inc: seq<Cmd>, w: SValue, st: Store, room: int, depth: nat,
                 fuel: nat): Answer
    requires fuel > 0
  {
    match EvalBody(body, w, st, room, depth, fuel - 1)
    case Normal(x, st2) =>
      (match EvalB(inc, st2, room - 1, depth, fuel - 1)
       case Normal(_, st3) => EvalLoop(until, body, inc, x, st3, room, depth, fuel - 1)
       case r => r)
    case Broke(st2) => Normal(VNull, st2)
    case r => r
  }

  /** A loop without a test, as `for (;;)`, goes on. */
  lemma {:induction false} NoTestGoesOn(body: seq<Cmd>, inc: seq<Cmd>, w: SValue, st: Store, room: int, depth: nat,
                                        fuel: nat)
    requires fuel > 0
    ensures EvalLoop(None, body, inc, w, st, room, depth, fuel) == Round(None, body, inc, w, st, room, depth, fuel)
  {
    hide EvalT, EvalB, EvalBody;
  }
}
