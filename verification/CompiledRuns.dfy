/** What holds of every run of what the compiler makes of a program: the heap and the collector. */
module CompiledRuns {
  import opened Wrappers
  import opened Objects
  import opened Machine
  import opened Elaboration
  import opened Emission
  import opened Compilation
  import opened Fragment
  import opened StackDiscipline
  import opened Mutators
  import opened CollectorSafety
  import opened CollectedMachine
  import opened Acyclicity
  import Core
  import Ast

  lemma {:induction false} PoolOf(v0: View, v1: View, r: Elab<seq<Core.Cmd>>)
    requires r.Good? && ProgramDone(r, None, v0, v1)
    ensures |v1.pool| <= CONSTANTS_SIZE && NoArrays(v1.pool)
  {
  }

  /** No program that compiles makes a cycle of arrays, in the fragment or not. */
  lemma {:induction false} CompiledRunsStayAcyclic(b: seq<Ast.Stmt>, v0: View, v1: View, r: Elab<seq<Core.Cmd>>,
                                                   stack: seq<MValue>, m: State, v: MValue)
    requires r == ElabB(b, v0.symbols, |v0.pool|) && r.Good? && ProgramDone(r, None, v0, v1)
    requires |stack| == STACK_SIZE && NoArrays(stack) && Reaches(Loaded(v1, stack), m)
    requires v in m.stack || v in m.globals || v in m.constants
    ensures Acyclic(m.heap) && CopyObject(m.heap, v).Some?
  {
    hide ElabB, ProgramDone, Reaches, CopyObject;
    PoolOf(v0, v1, r);
    StartsAcyclic(Loaded(v1, stack));
    RunsStayAcyclic(Loaded(v1, stack), m, v);
  }

  lemma {:induction false} UnreferringIsFlat(vs: seq<MValue>)
    requires Unreferring(vs)
    ensures FlatVs(vs)
  {
    forall i | 0 <= i < |vs| ensures FlatV(vs[i]) {}
  }

  /**
   A compiled program of the fragment and its collector: on every execution without
   arrays, all values in use refer to unfreed objects at all times if and only if no
   call exposes a slot whose object was dropped and no collection drops a global
   behind a null.
   */
  lemma {:induction false} CompiledExecutionSafeIff(b: seq<Ast.Stmt>, v0: View, v1: View, r: Elab<seq<Core.Cmd>>,
                                                    stack: seq<MValue>,
                                                    ms: seq<State>, run: seq<Move>)
    requires v0.code == [] && v0.pool == [] && r == ElabB(b, v0.symbols, 0) && r.Good? && FragProgram(r.x)
    requires ProgramDone(r, None, v0, v1)
    requires SlotsProgram(r.x, r.consts) && |stack| == STACK_SIZE && Unreferring(stack)
    requires Execution(ms) && ms[0] == Loaded(v1, stack) && Beside(ms, StartOf(ms[0]), run)
    ensures var a := StartOf(ms[0]);
            (forall k | 0 <= k < |ms| :: Live(ms[k], StateAt(a, run, k)))
              <==> (forall k | 0 <= k < |run| :: Watched(a, run, k))
  {
    hide ElabB, ProgramDone, FragProgram, SlotsProgram, Steady, Live, Watched, Beside, StartOf;
    PoolOf(v0, v1, r);
    UnreferringIsFlat(stack);
    CompiledStartsSteady(b, v0, v1, r, stack);
    ExecutionSafeIff(ms, run);
  }
}
