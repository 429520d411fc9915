/** The whole chain: scan, parse, compile, run (src/pepper.c:113-149). */
module Interpretation {
  import opened Wrappers
  import opened Opcodes
  import opened Core
  import opened Codegen
  import opened Objects
  import opened Naturality
  import opened Semantics
  import opened Machine
  import opened Simulation
  import opened CompilerCorrectness
  import opened Leftovers
  import opened Elaboration
  import opened Emission
  import opened Compilation
  import opened Fragment
  import opened VirtualMachine
  import opened Lexing
  import opened RoundTrips
  import Parsing
  import ParserMethods
  import Ast
  import Runs

  datatype Ending =
    | NotParsed
    | NotCompiled(e: CompileError)
    | Stopped(status: Status, last: MValue, globals: seq<MValue>)

  /** What may come of a program that has a meaning: unless the limit was hit, what it means. */
  predicate AsMeant(prog: seq<Cmd>, fuel: nat, e: Ending) {
    var r := CompilerCorrectness.Run(prog, fuel);
    r.Normal? ==>
      && e.Stopped? && !e.status.Error?
      && (e.status == Success ==> e.globals == MapVs(Lower, r.st.globals) && (EndsInEval(prog) ==> e.last == LowV(r.v)))
  }

  /**
   The number of instructions to HALT belongs to the program alone, whatever the stack
   held; the limit decides only whether HALT is reached.
   */
  ghost predicate InTime(prog: seq<Cmd>, consts: seq<SValue>, limit: nat, fuel: nat, e: Ending) {
    CompilerCorrectness.Run(prog, fuel).Normal? ==>
      && |consts| <= CONSTANTS_SIZE && e.Stopped?
      && exists n: nat :: HaltCount(prog, MapVs(Lower, consts), n) && (e.status == Success <==> n < limit)
  }

  /** What may come of a syntax tree: the compiler's error, or the end of a run as meant. */
  ghost predicate ProgramRan(b: seq<Ast.Stmt>, limit: nat, e: Ending) {
    match ElabB(b, Builtins(), 0)
    case Bad(x) => e == NotCompiled(x)
    case Good(prog, _, consts) =>
      e.Stopped?
      && (FragProgram(prog) ==> forall fuel :: AsMeant(prog, fuel, e) && InTime(prog, consts, limit, fuel, e))
  }

  /** Compile and run, for at most `limit` instructions. */
  method RunProgram(b: seq<Ast.Stmt>, limit: nat) returns (e: Ending)
    ensures ProgramRan(b, limit, e)
  {
    hide ElabB, FragProgram, ProgramDone, CompilerCorrectness.Run, AsMeant, InTime, Loaded, Advance;
    var compiler := new Compiler();
    ghost var v0 := compiler.Now();
    var err := compiler.CompileProgram(b);
    ghost var v1, r := compiler.Now(), ElabB(b, Builtins(), 0);
    Outcomes(r, err, v0, v1);
    if err.Some? {
      return NotCompiled(err.value);
    }
    var code := compiler.Bytecode();
    var vm := new Vm(code, compiler.constants);
    ghost var m0 := vm.Now();
    IsLoaded(v1, m0);
    var status, n := vm.Run(limit);
    var last := VNull;
    if status == Success && vm.sp < STACK_SIZE {
      last := vm.LastPopped();
    }
    e := Ending.Stopped(status, last, vm.globals[..]);
    if FragProgram(r.x) {
      forall fuel ensures AsMeant(r.x, fuel, e) && InTime(r.x, r.consts, limit, fuel, e) {
        RanAsMeant(b, v0, v1, r, m0, fuel, n, vm.Now(), e);
        RanInTime(b, v0, v1, r, m0, fuel, limit, n, vm.Now(), e);
      }
    }
  }

  lemma {:induction false} Outcomes(r: Elab<seq<Cmd>>, err: Option<CompileError>, v0: View, v1: View)
    requires ProgramDone(r, err, v0, v1)
    ensures match r case Bad(x) => err == Some(x) case Good(_, _, _) => err == None
  {
  }

  lemma {:induction false} IsLoaded(v: View, m: State)
    requires Shape(m)
    requires m == State(m.stack, 0, [Frame(Compiled(v.code, 0), 0, 0)], seq(GLOBALS_SIZE, _ => VNull), v.pool, [])
    ensures |v.pool| <= CONSTANTS_SIZE && m == Loaded(v, m.stack)
  {
  }

  lemma {:induction false} RanAsMeant(b: seq<Ast.Stmt>, v0: View, v1: View, r: Elab<seq<Cmd>>, m0: State, fuel: nat,
                                      n: nat, m: State, e: Ending)
    requires v0.code == [] && v0.pool == [] && r == ElabB(b, v0.symbols, 0) && r.Good? && FragProgram(r.x)
    requires ProgramDone(r, None, v0, v1)
    requires Shape(m0) && m0 == Loaded(v1, m0.stack) && e.Stopped? && Shape(m)
    requires e.status == Success ==> Runs.Steps(Advance, m0, n, m) && Step(m) == Halted
    requires e.status.Error? ==> exists m1 ::
             Runs.Steps(Advance, m0, n, m1) && Shape(m1)
             && Step(m1) == Fault(e.status.why)
    requires e.globals == m.globals && (e.status == Success && m.sp < STACK_SIZE ==> e.last == m.stack[m.sp])
    ensures AsMeant(r.x, fuel, e)
  {
    hide ElabB, FragProgram, ProgramDone, CompilerCorrectness.Run, Loaded, Step;
    var a := CompilerCorrectness.Run(r.x, fuel);
    if a.Normal? {
      if e.status == Success {
        assert Reaches(m0, m) && Advance(m).None?;
        CompiledProgramRuns(b, v0, v1, r.x, m0.stack, fuel, a, m);
      } else if e.status.Error? {
        var m1 :| Runs.Steps(Advance, m0, n, m1) && Shape(m1) && Step(m1) == Fault(e.status.why);
        assert Reaches(m0, m1) && Advance(m1).None?;
        CompiledProgramRuns(b, v0, v1, r.x, m0.stack, fuel, a, m1);
        assert false;
      }
    }
  }

  lemma {:induction false} RanInTime(b: seq<Ast.Stmt>, v0: View, v1: View, r: Elab<seq<Cmd>>, m0: State, fuel: nat,
                                     limit: nat, n: nat, m: State, e: Ending)
    requires v0.code == [] && v0.pool == [] && r == ElabB(b, v0.symbols, 0) && r.Good? && FragProgram(r.x)
    requires ProgramDone(r, None, v0, v1)
    requires Shape(m0) && |v1.pool| <= CONSTANTS_SIZE && m0 == Loaded(v1, m0.stack) && e.Stopped? && Shape(m)
    requires n <= limit
    requires e.status == Running ==> n == limit && Runs.Steps(Advance, m0, n, m)
    requires e.status == Success ==> n < limit && Runs.Steps(Advance, m0, n, m) && Step(m) == Halted
    requires AsMeant(r.x, fuel, e)
    ensures InTime(r.x, r.consts, limit, fuel, e)
  {
    hide ElabB, FragProgram, ProgramDone, CompilerCorrectness.Run, Step, OkB, CodeP, HaltsAfter, Loaded, Boot, Advance;
    var a := CompilerCorrectness.Run(r.x, fuel);
    if a.Normal? {
      CompiledIsCode(b, v0, v1, r);
      LoadedBoots(r.x, v1, m0);
      var k := OneCount(r.x, v1.pool, fuel);
      if e.status == Success {
        HaltStays(m);
      }
      if e.status == Success || e.status == Running {
        CountMatches(m0, k, n, m);
      }
    }
  }

  lemma {:induction false} LoadedBoots(prog: seq<Cmd>, v: View, m: State)
    requires Shape(m) && |v.pool| <= CONSTANTS_SIZE && m == Loaded(v, m.stack) && v.code == CodeP(prog)
    ensures m == Boot(prog, v.pool, m.stack)
  {
  }

  /** From the text of a program; `first` is what the first token held before it was scanned. */
  method Interpret(text: string, first: TokenType, limit: nat) returns (e: Ending)
    ensures match Parsing.ProgramLoop(Tokens(text, 0, first), [], 0, true)
            case Fail(_) => e == NotParsed
            case Done(b, _) => ProgramRan(b, limit, e)
  {
    hide Tokens, Parsing.ProgramLoop, ElabB, FragProgram, ProgramRan;
    var ts := RoundTrips.Scanned(text, first);
    var parser := new ParserMethods.Parser(ts);
    var b := parser.ParseProgram();
    if b.None? {
      return NotParsed;
    }
    e := RunProgram(b.value, limit);
  }
}
