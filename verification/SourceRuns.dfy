/** From the text of a program to what its syntax tree means (src/pepper.c:113-149). */
module SourceRuns {
  import opened Core
  import opened Naturality
  import opened Semantics
  import opened Machine
  import opened Simulation
  import opened CompilerCorrectness
  import opened Elaboration
  import opened Compilation
  import opened Fragment
  import opened VirtualMachine
  import opened Lexing
  import opened RoundTrips
  import opened Interpretation
  import opened SyntaxMeaning
  import opened MeaningKept
  import opened SourceTokens
  import opened SourceTexts
  import Parsing
  import Ast

  /** Unless the limit was hit, what the tree means. */
  predicate EndedAs(b: seq<Ast.Stmt>, fuel: nat, e: Ending) {
    var r := MeaningOf(b, Builtins(), fuel);
    r.Normal? ==>
      && e.Stopped? && !e.status.Error?
      && (e.status == Success ==> e.globals == MapVs(Lower, r.st.globals) && (EndsInValue(b) ==> e.last == LowV(r.v)))
  }

  /** The compiler takes the program, and it is in the fragment. */
  predicate Compiles(b: seq<Ast.Stmt>) {
    ElabB(b, Builtins(), 0).Good? && FragProgram(ElabB(b, Builtins(), 0).x)
  }

  lemma {:induction false} RanAsTree(b: seq<Ast.Stmt>, limit: nat, e: Ending, fuel: nat)
    requires Compiles(b) && ProgramRan(b, limit, e)
    ensures EndedAs(b, fuel, e)
  {
    hide ElabB, FragProgram, InTime, MeaningB, EvalB, Builtins, EndsInEval, EndsInValue;
    MeansB(b, Builtins(), 0, EmptyStore(), Budget(STACK_SIZE, FRAMES_SIZE - 1, fuel));
    ValueIsLast(b, Builtins(), 0);
    assert AsMeant(ElabB(b, Builtins(), 0).x, fuel, e);
  }

  /**
   The text of any program that can be written, with blanks and comments anywhere between its
   tokens, is scanned, parsed, compiled and run to what its tree means.
   */
  method RunText(b: seq<Ast.Stmt>, lead: seq<Gap>, gaps: seq<seq<Gap>>, first: TokenType, limit: nat)
                 returns (e: Ending)
    requires SourceTokens.OkB(b) && Lexable(TokB(b)) && |gaps| == |TokB(b)| && GapsOk(lead) && Separated(gaps)
    ensures Compiles(b) ==> forall fuel :: EndedAs(b, fuel, e)
    ensures match ElabB(b, Builtins(), 0) case Bad(x) => e == NotCompiled(x) case Good(_, _, _) => e.Stopped?
  {
    hide SourceTokens.OkB, TokB, Tokens, Parsing.ProgramLoop, GapText, TextOf, GapsOk, Separated, Lexable, EndedAs,
         Compiles, ElabB;
    hide FragProgram, AsMeant, InTime;
    SourceReparses(b, lead, gaps, first);
    e := Interpret(GapText(lead) + TextOf(TokB(b), gaps), first, limit);
    if Compiles(b) {
      forall fuel ensures EndedAs(b, fuel, e) { RanAsTree(b, limit, e, fuel); }
    }
  }
}
