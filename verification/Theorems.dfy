/** What the simulation says about whole programs and about single calls. */
module CompilerCorrectness {
  import opened Wrappers
  import opened Opcodes
  import opened Core
  import opened Codegen
  import opened Objects
  import opened Naturality
  import opened Semantics
  import opened Machine
  import opened Simulation
  import opened InstructionSteps
  import opened Correctness
  import Runs

  /** A program whose functions, branches and jumps are as the theorem wants them. */
  ghost predicate OkProgram(prog: seq<Cmd>, pool: seq<MValue>) {
    OkB(prog, false, pool) && |CodeP(prog)| < LIMIT && |pool| <= CONSTANTS_SIZE
  }

  function MainFn(prog: seq<Cmd>): Compiled { Compiled(CodeP(prog), 0) }

  /** The machine before its first instruction; the stack holds anything. */
  function Boot(prog: seq<Cmd>, pool: seq<MValue>, stack: seq<MValue>): (m: State)
    requires |stack| == STACK_SIZE && |pool| <= CONSTANTS_SIZE
    ensures Shape(m)
  {
    State(stack, 0, [Frame(MainFn(prog), 0, 0)], seq(GLOBALS_SIZE, _ => VNull), pool, [])
  }

  function EmptyStore(): Store {
    Store(seq(GLOBALS_SIZE, _ => VNull), [], [])
  }

  /** The meaning of a program on an empty stack. */
  function Run(prog: seq<Cmd>, fuel: nat): Answer {
    EvalB(prog, EmptyStore(), STACK_SIZE, FRAMES_SIZE - 1, fuel)
  }

  function MainPlace(prog: seq<Cmd>, pool: seq<MValue>): Place {
    Place(MainFn(prog), 0, [], JUMP_PLACEHOLDER_BREAK, JUMP_PLACEHOLDER_CONTINUE, false, pool)
  }

  lemma {:induction false} BootRel(prog: seq<Cmd>, pool: seq<MValue>, stack: seq<MValue>)
    requires OkProgram(prog, pool) && |stack| == STACK_SIZE
    ensures Rel(Boot(prog, pool, stack), EmptyStore(), 0, MainPlace(prog, pool))
    ensures Room(Boot(prog, pool, stack)) == STACK_SIZE && Depth(MainPlace(prog, pool)) == FRAMES_SIZE - 1
  {
    hide CodeP, OkB;
    assert MapVs(Lower, EmptyStore().globals) == seq(GLOBALS_SIZE, _ => VNull);
    assert MapH(Lower, EmptyStore().heap) == [];
  }

  lemma {:induction false} ProgramCode(prog: seq<Cmd>, pool: seq<MValue>)
    ensures var fn := MainFn(prog);
            && At(fn, 0, CodeB(prog, 0, JUMP_PLACEHOLDER_BREAK, JUMP_PLACEHOLDER_CONTINUE))
            && At(fn, 0, CodeV(prog, 0, JUMP_PLACEHOLDER_BREAK, JUMP_PLACEHOLDER_CONTINUE))
            && Fetch(fn.code, LenB(prog)) == Some(Plain(OpHalt))
    ensures EndsInEval(prog) ==>
              LenB(prog) == LenV(prog) + 1 && Fetch(MainFn(prog).code, LenV(prog)) == Some(Plain(OpPop))
  {
    hide Fetch, Encode, CodeB, LenB, CodeV, LenV;
    var fn, halt := MainFn(prog), Encode(Plain(OpHalt));
    var code := CodeB(prog, 0, JUMP_PLACEHOLDER_BREAK, JUMP_PLACEHOLDER_CONTINUE);
    var value := CodeV(prog, 0, JUMP_PLACEHOLDER_BREAK, JUMP_PLACEHOLDER_CONTINUE);
    assert At(fn, 0, code + halt);
    AtCat(fn, 0, code, halt);
    AtFetch(fn, LenB(prog), Plain(OpHalt));
    BlockIsValueThenPop(prog, 0, JUMP_PLACEHOLDER_BREAK, JUMP_PLACEHOLDER_CONTINUE);
    var pop := if EndsInEval(prog) then Encode(Plain(OpPop)) else [];
    AtCat(fn, 0, value, pop);
    if EndsInEval(prog) {
      AtFetch(fn, LenV(prog), Plain(OpPop));
    }
  }

  lemma {:induction false} AtHalt(m: State, st: Store, p: nat, c: Place)
    requires Rel(m, st, p, c) && Fetch(c.fn.code, p) == Some(Plain(OpHalt))
    ensures Shape(m) && Step(m) == Halted && m.globals == MapVs(Lower, st.globals) && m.heap == MapH(Lower, st.heap)
  {
  }

  /** A run that reads what was written is a run. */
  lemma {:induction false} LeadsReaches(m: State, m': State)
    requires Leads(m, m')
    ensures Reaches(m, m')
  {
    var n: nat :| Runs.Steps(SurelyAdvance, m, n, m');
    SureSteps(m, n, m');
  }

  lemma {:induction false} SureStep(m: State)
    requires SurelyAdvance(m).Some?
    ensures Advance(m) == SurelyAdvance(m)
  {
    hide Exec, Fetch, Sure;
  }

  lemma {:induction false} SureSteps(m: State, n: nat, m': State)
    requires Runs.Steps(SurelyAdvance, m, n, m')
    ensures Runs.Steps(Advance, m, n, m')
    decreases n
  {
    hide Advance, SurelyAdvance;
    if n > 0 {
      SureStep(m);
      SureSteps(SurelyAdvance(m).value, n - 1, m');
    }
  }

  /**
   A program that ends normally runs to HALT on an empty stack, with the same
   globals and arrays; the value popped last is that of a final expression.
   */
  lemma {:induction false} ProgramRuns(prog: seq<Cmd>, pool: seq<MValue>, stack: seq<MValue>, fuel: nat, r: Answer)
                                       returns (m: State)
    requires OkProgram(prog, pool) && |stack| == STACK_SIZE && r == Run(prog, fuel) && r.Normal?
    ensures Reaches(Boot(prog, pool, stack), m) && Shape(m) && Step(m) == Halted && m.sp == 0
    ensures m.globals == MapVs(Lower, r.st.globals) && m.heap == MapH(Lower, r.st.heap)
    ensures EndsInEval(prog) ==> m.stack[0] == LowV(r.v)
  {
    hide OkB, CodeP, Boot, Run, Leads, Reaches, Step;
    m := ProgramLeads(prog, pool, stack, fuel, r);
    LeadsReaches(Boot(prog, pool, stack), m);
  }

  /** The same, and no instruction of the run depends on what the stack held. */
  lemma {:induction false} ProgramLeads(prog: seq<Cmd>, pool: seq<MValue>, stack: seq<MValue>, fuel: nat, r: Answer)
                                       returns (m: State)
    requires OkProgram(prog, pool) && |stack| == STACK_SIZE && r == Run(prog, fuel) && r.Normal?
    ensures Leads(Boot(prog, pool, stack), m) && Shape(m) && Step(m) == Halted && m.sp == 0
    ensures m.globals == MapVs(Lower, r.st.globals) && m.heap == MapH(Lower, r.st.heap)
    ensures EndsInEval(prog) ==> m.stack[0] == LowV(r.v)
  {
    hide EvalB, CodeB, CodeV, CodeP, LenB, LenV, OkB, Fetch, At, Done, After, Rel, Leads;
    var m0, c := Boot(prog, pool, stack), MainPlace(prog, pool);
    BootRel(prog, pool, stack);
    ProgramCode(prog, pool);
    if EndsInEval(prog) {
      var m1 := SimV(prog, EmptyStore(), fuel, m0, 0, c, r);
      m := PopStep(r.v, EmptyStore(), m0, r.st, m1, LenV(prog), c);
      Trans(m0, m1, m);
    } else {
      m := SimB(prog, EmptyStore(), fuel, m0, 0, c, r);
    }
    Normally(r.v, r.st, EmptyStore(), m0, m, LenB(prog), c, 0);
    AtHalt(m, r.st, LenB(prog), c);
  }

  /** The machine is deterministic: it cannot stop in two different states. */
  lemma {:induction false} StopsOnce(m: State, i: nat, m1: State, j: nat, m2: State)
    requires Runs.Steps(Advance, m, i, m1) && Advance(m1).None?
    requires Runs.Steps(Advance, m, j, m2) && Advance(m2).None?
    ensures m1 == m2
    decreases i
  {
    hide Advance;
    if i > 0 && j > 0 {
      StopsOnce(Advance(m).value, i - 1, m1, j - 1, m2);
    }
  }

  /** However the machine stops on a program that ends normally, it is at HALT with the program's result. */
  lemma {:induction false} ProgramStopsOnlySo(prog: seq<Cmd>, pool: seq<MValue>, stack: seq<MValue>, fuel: nat,
                                              r: Answer, m: State)
    requires OkProgram(prog, pool) && |stack| == STACK_SIZE && r == Run(prog, fuel) && r.Normal?
    requires Reaches(Boot(prog, pool, stack), m) && Advance(m).None?
    ensures Shape(m) && Step(m) == Halted && m.sp == 0
    ensures m.globals == MapVs(Lower, r.st.globals) && m.heap == MapH(Lower, r.st.heap)
    ensures EndsInEval(prog) ==> m.stack[0] == LowV(r.v)
  {
    hide EvalB, CodeB, CodeV, CodeP, LenB, LenV, OkB, Step, Boot;
    var m1 := ProgramRuns(prog, pool, stack, fuel, r);
    var boot := Boot(prog, pool, stack);
    var i: nat :| Runs.Steps(Advance, boot, i, m);
    var j: nat :| Runs.Steps(Advance, boot, j, m1);
    StopsOnce(boot, i, m, j, m1);
  }

  /**
   A call on its own. From the CALL, with callee and arguments on the stack, the
   machine gets back to the instruction after it with the result in their place;
   the frames below, every slot below the callee and the caller's locals are as
   they were, wherever in its body the function returned.
   */
  lemma {:induction false} CallReturns(f: Fun, vs: seq<SValue>, st: Store, m: State, p: nat, c: Place, fuel: nat,
                                       r: Answer) returns (m': State)
    requires Rel(m, st, p, c) && Fetch(c.fn.code, p) == Some(Instr(OpCall, |vs|))
    requires c.base + |st.locals| + 1 + |vs| <= m.sp
    requires m.stack[m.sp - |vs| - 1] == LowV(VFun(f)) && m.stack[m.sp - |vs|..m.sp] == MapVs(Lower, vs)
    requires OkF(f, c.pool) && GoodVs(vs, c.pool)
    requires Depth(c) > 0 && m.sp - |vs| + f.numLocals <= STACK_SIZE
    requires r == EvalB(f.body, st.(locals := Parameters(f.numLocals, vs)),
                        STACK_SIZE - (m.sp - |vs| + f.numLocals), Depth(c) - 1, fuel)
    requires r.Normal? || r.Returned?
    ensures Reaches(m, m') && Shape(m') && m'.sp == m.sp - |vs| && m'.stack[m'.sp - 1] == LowV(r.v)
    ensures m'.frames == c.below + [Frame(c.fn, p + 2, c.base)]
    ensures forall j | 0 <= j < m'.sp - 1 :: m'.stack[j] == m.stack[j]
    ensures m'.globals == MapVs(Lower, r.st.globals) && m'.heap == MapH(Lower, r.st.heap)
  {
    hide Fetch, GoodStore, CodeV, CodeF, CodeT, OkB, OkT, LenV, LenT, EvalB, Leads, Reaches, At, Rel, Done, DoneTs,
         After, Back;
    var base := m.sp - |vs|;
    var m1 := m.(sp := base);
    ArgumentsUp(vs, st, m1, m, p, c);
    CallRuns(m, |vs|, p, c, f);
    CalleeRel(st, m1, st, m, p, c, f, vs);
    CalleeCode(f);
    var c3, m3, st3 := CalleeAt(base, p, c, f), CalleeState(m, base, p, c, f),
      st.(locals := Parameters(f.numLocals, vs));
    var m4 := SimV(f.body, st3, fuel, m3, 0, c3, r);
    var m5 := FunctionEnd(f, r, st3, fuel, m3, m4, c3);
    Trans(m3, m4, m5);
    Trans(m, m3, m5);
    LeadsReaches(m, m5);
    m' := m5;
    ResumeAfter(r.v, r.st, m3, m', c3, c.below, Frame(c.fn, p + 1, c.base));
  }

  lemma {:induction false} ArgumentsUp(vs: seq<SValue>, st: Store, m1: State, m: State, p: nat, c: Place)
    requires Rel(m, st, p, c) && c.base + |st.locals| + 1 + |vs| <= m.sp && m1 == m.(sp := m.sp - |vs|)
    requires m.stack[m.sp - |vs|..m.sp] == MapVs(Lower, vs) && GoodVs(vs, c.pool)
    ensures DoneTs(Values(vs, st), st, m1, m, p, c) && m.frames == c.below + [Frame(c.fn, p, c.base)] && Shape(m)
    ensures Depth(c) > 0 ==> |c.below| + 1 < FRAMES_SIZE
  {
    hide GoodStore;
  }

  lemma {:induction false} ResumeAfter(v: SValue, st: Store, m: State, m': State, c: Place, below: seq<Frame>,
                                       caller: Frame)
    requires Back(v, st, m, m', c) && c.below == below + [caller]
    ensures Shape(m') && m'.sp == c.base && 1 <= c.base && m'.stack[c.base - 1] == LowV(v)
    ensures m'.frames == below + [caller.(ip := caller.ip + 1)]
    ensures |m.stack| == |m'.stack| && forall j | 0 <= j < c.base - 1 :: m'.stack[j] == m.stack[j]
    ensures m'.globals == MapVs(Lower, st.globals) && m'.heap == MapH(Lower, st.heap)
  {
    hide GoodVs, GoodH;
  }
}
