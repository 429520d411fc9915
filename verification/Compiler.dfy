/** The one-pass compiler: it emits into the buffer of the current function and patches it later. */
module Compilation {
  import opened Wrappers
  import opened Opcodes
  import opened Core
  import opened Codegen
  import opened Objects
  import opened Semantics
  import opened Machine
  import opened Patching
  import opened Scopes
  import opened Elaboration
  import opened Emission
  import opened CodeBuffer
  import Ast

  /** A function being compiled. */
  datatype Scope = Scope(code: Buffer, last: Emitted, previous: Emitted)

  function ConstantOf(lit: Lit, s: Symbols, k: nat): Elab<Term> {
    if k >= CONSTANTS_SIZE then Bad(ConstantsOverflow) else Good(Const(k, lit), s, [LitV(lit)])
  }

  /** The rest of a list after what is already elaborated. */
  function MoreTerms(done: seq<Term>, cs: seq<SValue>, r: Elab<seq<Term>>): Elab<seq<Term>> {
    match r case Bad(x) => Bad(x) case Good(ts, s, c2) => Good(done + ts, s, cs + c2)
  }

  function MoreBlock(done: seq<Cmd>, cs: seq<SValue>, r: Elab<seq<Cmd>>): Elab<seq<Cmd>> {
    match r case Bad(x) => Bad(x) case Good(b, s, c2) => Good(done + b, s, cs + c2)
  }

  lemma {:induction false} MoreTermsTwice(done: seq<Term>, cs: seq<SValue>, ts: seq<Term>, c1: seq<SValue>,
                                          r: Elab<seq<Term>>)
    ensures MoreTerms(done, cs, MoreTerms(ts, c1, r)) == MoreTerms(done + ts, cs + c1, r)
  {
    if r.Good? {
      assert done + (ts + r.x) == (done + ts) + r.x;
      assert cs + (c1 + r.consts) == (cs + c1) + r.consts;
    }
  }

  lemma {:induction false} MoreBlockTwice(done: seq<Cmd>, cs: seq<SValue>, b: seq<Cmd>, c1: seq<SValue>,
                                          r: Elab<seq<Cmd>>)
    ensures MoreBlock(done, cs, MoreBlock(b, c1, r)) == MoreBlock(done + b, cs + c1, r)
  {
    if r.Good? {
      assert done + (b + r.x) == (done + b) + r.x;
      assert cs + (c1 + r.consts) == (cs + c1) + r.consts;
    }
  }

  lemma {:induction false} TermsStep(es: seq<Ast.Expr>, i: nat, s: Symbols, k: nat)
    requires i < |es|
    ensures ElabEs(es[i..], s, k) == (match ElabE(es[i], s, k)
                                      case Bad(x) => Bad(x)
                                      case Good(a, s1, c1) => MoreTerms([a], c1, ElabEs(es[i + 1..], s1, k + |c1|)))
  {
    hide ElabE;
    assert es[i..][1..] == es[i + 1..];
  }

  lemma {:induction false} BlockStep(b: seq<Ast.Stmt>, i: nat, s: Symbols, k: nat)
    requires i < |b|
    ensures ElabB(b[i..], s, k) == (match ElabS(b[i], s, k)
                                    case Bad(x) => Bad(x)
                                    case Good(a, s1, c1) => MoreBlock(a, c1, ElabB(b[i + 1..], s1, k + |c1|)))
  {
    hide ElabS;
    assert b[i..][1..] == b[i + 1..];
  }

  lemma {:induction false} NoneLeft(es: seq<Ast.Expr>, b: seq<Ast.Stmt>, s: Symbols, k: nat)
    ensures ElabEs(es[|es|..], s, k) == Good([], s, []) && ElabB(b[|b|..], s, k) == Good([], s, [])
  {
  }

  lemma {:induction false} ElabCount(es: seq<Ast.Expr>, s: Symbols, k: nat)
    ensures ElabEs(es, s, k).Good? ==> |ElabEs(es, s, k).x| == |es|
    decreases |es|
  {
    hide ElabE;
    if es != [] && ElabE(es[0], s, k).Good? {
      var r := ElabE(es[0], s, k);
      ElabCount(es[1..], r.symbols, k + |r.consts|);
    }
  }

  lemma {:induction false} LastNone(before: Emitted, size: int)
    ensures LastOf([], before, size) == before
  {
  }

  lemma {:induction false} LastMore(a: seq<Cmd>, b: seq<Cmd>, before: Emitted, n: nat, m: nat, v1: View, v2: View,
                                    cs: seq<SValue>)
    requires n == |v1.code| && m == |v2.code| && DidB(v1, v2, b, cs)
    ensures LastOf(b, LastOf(a, before, n), m) == LastOf(a + b, before, m)
  {
    hide Did;
    LengthB(v1, v2, b, cs);
    if b == [] {
      assert a + b == a;
    }
  }

  /** Condition and consequence of an `if`. */
  function ElabThen(e: Ast.Expr, s: Symbols, k: nat): Elab<(Term, seq<Cmd>)>
    requires e.If?
  {
    match ElabE(e.cond, s, k)
    case Bad(x) => Bad(x)
    case Good(a, s1, c1) =>
      match ElabB(e.conseq, s1, k + |c1|)
      case Bad(x) => Bad(x)
      case Good(b, s2, c2) => Good((a, b), s2, c1 + c2)
  }

  lemma {:induction false} ElabIfParts(e: Ast.Expr, s: Symbols, k: nat)
    requires e.If?
    ensures ElabIf(e, s, k) == (match ElabThen(e, s, k)
                                case Bad(x) => Bad(x)
                                case Good(ab, s2, c12) =>
                                  match ElabElse(e.alt, s2, k + |c12|)
                                  case Bad(x) => Bad(x)
                                  case Good(c, s3, c3) => Good(Cond(ab.0, ab.1, c), s3, c12 + c3))
  {
    hide ElabE, ElabB, ElabElse;
  }

  predicate ThenDone(r: Elab<(Term, seq<Cmd>)>, err: Option<CompileError>, v0: View, v1: View) {
    match r
    case Bad(x) => err == Some(x)
    case Good(ab, s, cs) =>
      && err == None && v1.symbols == s && |v1.pool| == |v0.pool| + |cs|
      && |v1.code| == |v0.code| + LenT(ab.0) + 3 + LenV(ab.1) + 3 && CondClosed(v0, v1, ab.0, ab.1, cs)
  }

  predicate FunctionDone(r: Elab<seq<Cmd>>, err: Option<CompileError>, p0: seq<MValue>, p1: seq<MValue>,
                         code: seq<byte>, n: nat) {
    match r
    case Bad(x) => err == Some(x)
    case Good(b, s, cs) =>
      && err == None && n == s.size && PoolGrown(p0, p1, cs, ShortB(b))
      && |code| == |CodeF(b)| && (|code| <= CODE_MAX ==> code == CodeF(b))
  }

  /** An empty buffer then holds the program's code. */
  predicate ProgramDone(r: Elab<seq<Cmd>>, err: Option<CompileError>, v0: View, v1: View) {
    match r
    case Bad(x) => err == Some(x)
    case Good(b, s, cs) =>
      && err == None && v1.symbols == s && |v1.pool| <= CONSTANTS_SIZE && NoArrays(v1.pool)
         && PoolGrown(v0.pool, v1.pool, cs, ShortB(b))
      && (v0.code == [] ==> |v1.code| == |CodeP(b)| && (|v1.code| <= CODE_MAX ==> v1.code == CodeP(b)))
  }

  lemma {:induction false} ProgramDid(v0: View, v1: View, v2: View, b: seq<Cmd>, cs: seq<SValue>)
    requires DidB(v0, v1, b, cs) && v2.code == v1.code + Encode(Plain(OpHalt)) && v2.pool == v1.pool
    ensures PoolGrown(v0.pool, v2.pool, cs, ShortB(b))
    ensures v0.code == [] ==> |v2.code| == |CodeP(b)| && (|v2.code| <= CODE_MAX ==> v2.code == CodeP(b))
  {
    hide CodeB, ShortB, Encode, Alike, LenB;
    LengthB(v0, v1, b, cs);
    assert v0.code == [] ==> v0.code + CodeB(b, 0, BRK, CONT) == CodeB(b, 0, BRK, CONT);
  }

  /** How an index is elaborated, left operand first. */
  lemma {:induction false} IndexParts(e: Ast.Expr, s: Symbols, k: nat)
    requires e.Index?
    ensures ElabE(e, s, k) ==
            match ElabE(e.left, s, k)
            case Bad(x) => Bad(x)
            case Good(a, s1, c1) =>
              match ElabE(e.index, s1, k + |c1|)
              case Bad(x) => Bad(x)
              case Good(b, s2, c2) => Good(Prim(OpIndexGet, [a, b]), s2, c1 + c2)
  {
  }

  /** How a call is, callee first. */
  lemma {:induction false} CallParts(e: Ast.Expr, s: Symbols, k: nat)
    requires e.Call?
    ensures ElabE(e, s, k) ==
            match ElabE(e.callee, s, k)
            case Bad(x) => Bad(x)
            case Good(a, s1, c1) =>
              match ElabEs(e.args, s1, k + |c1|)
              case Bad(x) => Bad(x)
              case Good(bs, s2, c2) => Good(Core.Call(a, bs), s2, c1 + c2)
  {
  }

  /** The condition of an `if`: either its error is that of the whole, or it is compiled. */
  lemma {:induction false} ThenCondition(e: Ast.Expr, s: Symbols, k: nat, err: Option<CompileError>,
                                         v0: View, v1: View, v2: View)
    requires e.If? && TermDone(ElabE(e.cond, s, k), err, v0, v1)
    ensures err.Some? ==> ThenDone(ElabThen(e, s, k), err, v0, v2)
    ensures err.None? ==> var c := ElabE(e.cond, s, k);
                          c.Good? && v1.symbols == c.symbols && |v1.pool| == |v0.pool| + |c.consts|
                            && DidT(v0, v1, c.x, c.consts)
  {
    hide ElabE, ElabB, DidT;
  }

  lemma {:induction false} ThenConsequence(e: Ast.Expr, s: Symbols, k: nat, err: Option<CompileError>,
                                           v0: View, v1: View, v2: View, v3: View)
    requires e.If? && TermDone(ElabE(e.cond, s, k), None, v0, v1) && k == |v0.pool| && v2.pool == v1.pool
    requires ValueDone(ElabB(e.conseq, v1.symbols, |v1.pool|), err, v2, v3)
    ensures err.Some? ==> ThenDone(ElabThen(e, s, k), err, v0, v3)
    ensures err.None? ==> var c, x := ElabE(e.cond, s, k), ElabB(e.conseq, v1.symbols, |v1.pool|);
                          && x.Good? && v3.symbols == x.symbols && |v3.pool| == |v2.pool| + |x.consts|
                          && DidV(v2, v3, x.x, x.consts)
                          && ElabThen(e, s, k) == Good((c.x, x.x), x.symbols, c.consts + x.consts)
  {
    hide ElabE, ElabB, DidT, DidV;
  }

  lemma {:induction false} ThenEnds(v0: View, v3: View, v1: View, c: Elab<Term>, x: Elab<seq<Cmd>>,
                                    r: Elab<(Term, seq<Cmd>)>)
    requires c.Good? && x.Good? && r == Good((c.x, x.x), x.symbols, c.consts + x.consts)
    requires v3.symbols == v1.symbols == x.symbols
    requires |v1.pool| == |v3.pool| == |v0.pool| + |c.consts| + |x.consts|
    requires |v1.code| == |v0.code| + LenT(c.x) + 3 + LenV(x.x) + 3 && CondClosed(v0, v1, c.x, x.x, c.consts + x.consts)
    ensures ThenDone(r, None, v0, v1)
  {
    hide CondClosed, LenT, LenV;
  }

  predicate TestDone(r: Elab<Option<Term>>, err: Option<CompileError>, v0: View, v1: View, test: nat) {
    match r
    case Bad(x) => err == Some(x)
    case Good(t, s, cs) =>
      && err == None && v1.symbols == s && |v1.pool| == |v0.pool| + |cs|
      && (t.Some? ==> test == |v0.code| + LenT(t.value))
      && Did(v0, v1, TestCode(t, |v0.code|, 9999, BRK, CONT), cs, CODE_MAX, ShortO(t))
  }

  /** Initialisation and test of a `for` loop. */
  function ElabHead(e: Ast.Expr, s: Symbols, k: nat): Elab<(seq<Cmd>, Option<Term>)>
    requires e.For?
  {
    match ElabS(e.init, s, k)
    case Bad(x) => Bad(x)
    case Good(a, s1, c1) =>
      match ElabTest(e.test, s1, k + |c1|)
      case Bad(x) => Bad(x)
      case Good(b, s2, c2) => Good((a, b), s2, c1 + c2)
  }

  lemma {:induction false} ElabForParts(e: Ast.Expr, s: Symbols, k: nat)
    requires e.For?
    ensures ElabFor(e, s, k) == (match ElabHead(e, s, k)
                                 case Bad(x) => Bad(x)
                                 case Good(ab, s2, c12) =>
                                   match ElabB(e.body, s2, k + |c12|)
                                   case Bad(x) => Bad(x)
                                   case Good(c, s3, c3) =>
                                     match ElabS(e.inc, s3, k + |c12| + |c3|)
                                     case Bad(x) => Bad(x)
                                     case Good(d, s4, c4) => Good(ForLoop(ab.0, ab.1, d, c), s4, c12 + c3 + c4))
  {
    hide ElabS, ElabB, ElabTest;
  }

  predicate HeadDone(r: Elab<(seq<Cmd>, Option<Term>)>, err: Option<CompileError>, v0: View, v1: View, before: nat,
                     test: nat) {
    match r
    case Bad(x) => err == Some(x)
    case Good(ab, s, cs) =>
      && err == None && v1.symbols == s && |v1.pool| == |v0.pool| + |cs|
      && before == |v0.code| + 1 + LenB(ab.0) && (ab.1.Some? ==> test == before + LenT(ab.1.value))
      && Did(v0, v1, ForFront(ab.0, ab.1, |v0.code|, 9999), cs, CODE_MAX, ShortB(ab.0) && ShortO(ab.1))
  }

  predicate WhileHeadDone(r: Elab<Term>, err: Option<CompileError>, v0: View, v1: View, before: nat, test: nat) {
    match r
    case Bad(x) => err == Some(x)
    case Good(c, s, cs) =>
      && err == None && v1.symbols == s && |v1.pool| == |v0.pool| + |cs|
      && before == |v0.code| + 1 && test == before + LenT(c)
      && Did(v0, v1, WhileFront(c, |v0.code|, 9999), cs, CODE_MAX, ShortT(c))
  }

  predicate LoopBodyDone(r: Elab<seq<Cmd>>, err: Option<CompileError>, v0: View, v1: View, start: nat, end: nat) {
    match r
    case Bad(x) => err == Some(x)
    case Good(b, s, cs) =>
      && err == None && v1.symbols == s && |v1.pool| == |v0.pool| + |cs|
      && start == |v0.code| + 1 && end == start + LenB(b)
      && Did(v0, v1, CodeL(b, |v0.code|, BRK, CONT), cs, CODE_MAX, ShortB(b))
  }

  lemma {:induction false} ChangedAs(c1: seq<byte>, c2: seq<byte>, q: nat, i: Instr, j: Instr, n: nat)
    requires Changed(c1, c2, q, i, n) && i.op == j.op
    ensures Changed(c1, c2, q, j, n) && |c2| == |c1|
  {
  }

  lemma {:induction false} MoreTermsNone(es: seq<Ast.Expr>, r: Elab<seq<Term>>)
    ensures es[0..] == es && MoreTerms([], [], r) == r
  {
    if r.Good? {
      assert [] + r.x == r.x && [] + r.consts == r.consts;
    }
  }

  lemma {:induction false} MoreBlockNone(b: seq<Ast.Stmt>, r: Elab<seq<Cmd>>)
    ensures b[0..] == b && MoreBlock([], [], r) == r
  {
    if r.Good? {
      assert [] + r.x == r.x && [] + r.consts == r.consts;
    }
  }

  class Compiler {
    var constants: seq<MValue>
    var symbols: Symbols
    var scopes: seq<Scope>

    ghost predicate Valid()
      reads this, if scopes == [] then {} else {Top().code}
    {
      && scopes != [] && Top().code.Valid()
      && |constants| <= CONSTANTS_SIZE && NoArrays(constants) && |scopes| == Levels(symbols) <= SCOPES_SIZE
    }

    function Top(): Scope
      requires scopes != []
      reads this
    {
      scopes[|scopes| - 1]
    }

    ghost function Now(): View
      requires Valid()
      reads this, Top().code, Top().code.bytes
    {
      View(Top().code.Contents(), symbols, constants, Top().last)
    }

    /** The scopes around the current one are untouched, and the current one keeps its buffer. */
    twostate predicate Framed()
      requires old(Valid()) && Valid()
      reads this, Top().code
    {
      && |scopes| == |old(scopes)| && scopes[..|scopes| - 1] == old(scopes)[..|scopes| - 1]
      && Top().code == old(Top().code)
      && (Top().code.bytes == old(Top().code.bytes) || fresh(Top().code.bytes))
    }

    method Emit(i: Instr) returns (pos: nat)
      requires Valid()
      modifies this, Top().code, Top().code.bytes
      ensures Valid() && Framed() && pos == |old(Now()).code|
      ensures Now() == old(Now()).(code := old(Now()).code + Encode(i), last := Emitted(i.op, pos))
    {
      var top := Top();
      pos := top.code.Emit(i);
      scopes := scopes[|scopes| - 1 := top.(last := Emitted(i.op, pos), previous := top.last)];
    }

    predicate LastInstructionIs(op: Opcode)
      requires scopes != []
      reads this, Top().code
    {
      Top().code.size > 0 && Top().last.op == op
    }

    method RemoveLastInstruction()
      requires Valid() && 0 <= Top().last.position <= |Now().code|
      modifies this, Top().code
      ensures Valid() && Framed() && Top().code.bytes == old(Top().code.bytes)
      ensures Now().code == old(Now()).code[..old(Top().last.position)] && Top().last == old(Top().previous)
      ensures symbols == old(symbols) && constants == old(constants)
    {
      var top := Top();
      top.code.Truncate(top.last.position);
      scopes := scopes[|scopes| - 1 := top.(last := top.previous)];
    }

    /** There must be room: the source does not check. */
    method AddConstant(v: MValue) returns (k: nat)
      requires |constants| < CONSTANTS_SIZE && NoArrays(constants) && !v.VArray?
      modifies `constants
      ensures constants == old(constants) + [v] && NoArrays(constants) && k == |old(constants)|
    {
      constants := constants + [v];
      k := |constants| - 1;
    }

    method ChangeOperand(pos: nat, n: nat)
      requires Valid() && Fetch(Now().code, pos).Some?
      modifies Top().code.bytes
      ensures Now() == old(Now()).(code := Now().code)
      ensures Changed(old(Now()).code, Now().code, pos, Fetch(old(Now()).code, pos).value, n)
    {
      Top().code.ChangeOperand(pos, n);
    }

    method ChangePlaceholders(start: nat, end: nat, placeholder: nat, n: nat)
      requires Valid() && end <= |Now().code| && (start < end ==> Stream(Now().code[start..]))
      modifies Top().code.bytes
      ensures Now() == old(Now()).(code := Now().code)
      ensures Scanned(old(Now()).code, Now().code, start, if start < end then end - start else 0, placeholder, n)
    {
      Top().code.ChangePlaceholders(start, end, placeholder, n);
    }

    /** RETURN_VALUE in place of the POP at the end. */
    method ReplaceLastInstruction(i: Instr)
      requires Valid() && 0 <= Top().last.position && Top().last.position + Size(i) == |Now().code|
      modifies this, Top().code, Top().code.bytes
      ensures Valid() && Framed() && Top().code.bytes == old(Top().code.bytes)
      ensures Now().code == old(Now()).code[..old(Top().last.position)] + Encode(i)
      ensures Top().last == Emitted(i.op, old(Top().last.position)) && Top().previous == old(Top().last)
      ensures symbols == old(symbols) && constants == old(constants)
    {
      var top := Top();
      top.code.Replace(top.last.position, i);
      scopes := scopes[|scopes| - 1 := top.(last := Emitted(i.op, top.last.position), previous := top.last)];
    }

    /** A new function; `last` and `previous` hold garbage until something is emitted. */
    method EnterScope()
      requires Valid() && |scopes| < SCOPES_SIZE
      modifies this
      ensures Valid() && scopes[..|scopes| - 1] == old(scopes) && fresh(Top().code) && fresh(Top().code.bytes)
      ensures Now().code == [] && symbols == Enclosed(old(symbols)) && constants == old(constants)
    {
      var last: Emitted, previous: Emitted := *, *;
      var code := new Buffer(1024);
      scopes := scopes + [Scope(code, last, previous)];
      symbols := Enclosed(symbols);
    }

    method LeaveScope() returns (code: seq<byte>)
      requires Valid() && |scopes| > 1 && symbols.outer.Some?
      modifies this
      ensures scopes == old(scopes)[..|old(scopes)| - 1] && symbols == old(symbols).outer.value
      ensures constants == old(constants)
      ensures code == old(Now()).code
    {
      code := Top().code.bytes[..Top().code.size];
      symbols := symbols.outer.value;
      scopes := scopes[..|scopes| - 1];
    }

    method CompileExpression(e: Ast.Expr) returns (err: Option<CompileError>)
      requires Valid()
      modifies this, Top().code, Top().code.bytes
      ensures Valid() && (err.None? ==> Framed())
      ensures TermDone(ElabE(e, old(symbols), |old(constants)|), err, old(Now()), Now())
      decreases e, 2
    {
      hide DidT, ElabInfix, ElabIf, ElabFunction, ElabSlice, ElabFor, ElabAssignIndex, Encode;
      match e
      case Infix(_, _, _) => err := CompileInfix(e);
      case Prefix(_, _) => err := CompilePrefix(e);
      case Postfix(_, _) => err := CompilePostfix(e);
      case IntLit(n) => err := CompileConstant(Core.IntLit(n));
      case StringLit(t) => err := CompileConstant(StrLit(t));
      case BoolLit(b) =>
        ghost var v0 := Now();
        var _ := Emit(Plain(if b then OpTrue else OpFalse));
        LeafDid(v0, Now(), Truth(b), Plain(if b then OpTrue else OpFalse));
        return None;
      case Ident(name) => err := CompileIdent(name);
      case If(_, _, _) => err := CompileIf(e);
      case Function(_, _) => err := CompileFunction(e);
      case Call(_, _) => err := CompileCall(e);
      case ArrayLit(_) => err := CompileArray(e);
      case Index(_, _) => err := CompileIndex(e);
      case Slice(_, _, _) => err := CompileSlice(e);
      case While(_, _) => err := CompileWhile(e);
      case For(_, _, _, _) => err := CompileFor(e);
      case Assign(_, _) => err := CompileAssign(e);
      case AssignIndex(_, _, _) => err := CompileAssignIndex(e);
    }

    method CompileConstant(lit: Lit) returns (err: Option<CompileError>)
      requires Valid()
      modifies this, Top().code, Top().code.bytes
      ensures Valid() && (err.None? ==> Framed())
      ensures TermDone(ConstantOf(lit, old(symbols), |old(constants)|), err, old(Now()), Now())
    {
      hide DidT, Encode;
      ghost var v0 := Now();
      if |constants| == CONSTANTS_SIZE {
        return Some(ConstantsOverflow);
      }
      var k := AddConstant(LitV(lit));
      var _ := Emit(Instr(OpConst, k));
      ConstDid(v0, Now(), Const(k, lit), LitV(lit), true);
      return None;
    }

    method CompileIdent(name: string) returns (err: Option<CompileError>)
      requires Valid()
      modifies this, Top().code, Top().code.bytes
      ensures Valid() && (err.None? ==> Framed())
      ensures TermDone(ElabE(Ast.Ident(name), old(symbols), |old(constants)|), err, old(Now()), Now())
      ensures err.None? ==>
                var i := GetOp(Resolve(symbols, name).value);
                Now() == old(Now()).(code := old(Now()).code + Encode(i), last := Emitted(i.op, |old(Now()).code|))
    {
      hide DidT, Encode;
      ghost var v0 := Now();
      match Resolve(symbols, name)
      case None => return Some(UnknownIdent);
      case Some(v) =>
        var _ := Emit(GetOp(v));
        LeafDid(v0, Now(), Get(v), GetOp(v));
        return None;
    }

    method CompileInfix(e: Ast.Expr) returns (err: Option<CompileError>)
      requires Valid() && e.Infix?
      modifies this, Top().code, Top().code.bytes
      ensures Valid() && (err.None? ==> Framed())
      ensures TermDone(ElabInfix(e, old(symbols), |old(constants)|), err, old(Now()), Now())
      decreases e, 0
    {
      hide DidT, DidTs, ElabE, Encode;
      ghost var v0, s0, k0 := Now(), symbols, |constants|;
      err := CompileExpression(e.left);
      if err.Some? { return; }
      ghost var v1, s1, k1 := Now(), symbols, |constants|;
      err := CompileExpression(e.right);
      if err.Some? { return; }
      ghost var v2 := Now();
      match InfixOp(e.op)
      case None => return Some(UnknownOperator);
      case Some(op) =>
        var _ := Emit(Plain(op));
        ghost var l, r := ElabE(e.left, s0, k0), ElabE(e.right, s1, k1);
        OneTerm(v0, v1, l.x, l.consts);
        NextTerm(v0, v1, v2, [l.x], r.x, l.consts, r.consts);
        assert [l.x] + [r.x] == [l.x, r.x];
        PrimDid(v0, v2, Now(), op, [l.x, r.x], l.consts + r.consts);
    }

    method CompilePrefix(e: Ast.Expr) returns (err: Option<CompileError>)
      requires Valid() && e.Prefix?
      modifies this, Top().code, Top().code.bytes
      ensures Valid() && (err.None? ==> Framed())
      ensures TermDone(ElabE(e, old(symbols), |old(constants)|), err, old(Now()), Now())
      decreases e, 0
    {
      hide DidT, DidTs, Encode;
      ghost var v0, s0, k0 := Now(), symbols, |constants|;
      err := CompileExpression(e.right);
      if err.Some? { return; }
      ghost var v1 := Now();
      match PrefixOp(e.op)
      case None => return Some(UnknownOperator);
      case Some(op) =>
        var _ := Emit(Plain(op));
        ghost var r := ElabE(e.right, s0, k0);
        OneTerm(v0, v1, r.x, r.consts);
        PrimDid(v0, v1, Now(), op, [r.x], r.consts);
    }

    method CompilePostfix(e: Ast.Expr) returns (err: Option<CompileError>)
      requires Valid() && e.Postfix?
      modifies this, Top().code, Top().code.bytes
      ensures Valid() && (err.None? ==> Framed())
      ensures TermDone(ElabE(e, old(symbols), |old(constants)|), err, old(Now()), Now())
      decreases e, 0
    {
      hide DidT, Encode, Resolve;
      ghost var v0 := Now();
      err := CompileIdent(e.name);
      if err.Some? { return; }
      err := CompileIdent(e.name);
      err := CompileStep(e.op, Resolve(symbols, e.name).value, v0);
    }

    /** One more or less, and back into the variable. */
    method CompileStep(op: Ast.Operator, v: Var, ghost v0: View) returns (err: Option<CompileError>)
      requires Valid() && Now().code == v0.code + Encode(GetOp(v)) + Encode(GetOp(v)) && constants == v0.pool
      modifies this, Top().code, Top().code.bytes
      ensures Valid() && Framed() && symbols == old(symbols)
      ensures if |v0.pool| == CONSTANTS_SIZE then err == Some(ConstantsOverflow) else
              match PostfixOp(op)
              case None => err == Some(UnknownOperator)
              case Some(o) =>
                err == None && |constants| == |v0.pool| + 1 && DidT(v0, Now(), Bump(o, v, |v0.pool|), [VInt(1)])
    {
      hide DidT, Encode, LitV, GetOp, SetOp;
      if |constants| == CONSTANTS_SIZE {
        return Some(ConstantsOverflow);
      }
      var k := AddConstant(VInt(1));
      var _ := Emit(Instr(OpConst, k));
      match PostfixOp(op)
      case None => return Some(UnknownOperator);
      case Some(o) =>
        var _ := Emit(Plain(o));
        var _ := Emit(SetOp(v));
        BumpDid(v0, Now(), v, o, k);
        return None;
    }

    method CompileCall(e: Ast.Expr) returns (err: Option<CompileError>)
      requires Valid() && e.Call?
      modifies this, Top().code, Top().code.bytes
      ensures Valid() && (err.None? ==> Framed())
      ensures TermDone(ElabE(e, old(symbols), |old(constants)|), err, old(Now()), Now())
      decreases e, 0
    {
      hide DidT, DidTs, Encode, ElabE, ElabEs;
      ghost var v0, s0, k0 := Now(), symbols, |constants|;
      CallParts(e, s0, k0);
      err := CompileExpression(e.callee);
      if err.Some? { return; }
      ghost var v1, s1, k1 := Now(), symbols, |constants|;
      err := CompileAll(e.args);
      if err.Some? { return; }
      ghost var v2 := Now();
      var _ := Emit(Instr(OpCall, |e.args|));
      ghost var f, xs := ElabE(e.callee, s0, k0), ElabEs(e.args, s1, k1);
      ElabCount(e.args, s1, k1);
      CallDid(v0, v1, v2, Now(), f.x, xs.x, f.consts, xs.consts);
    }

    method CompileArray(e: Ast.Expr) returns (err: Option<CompileError>)
      requires Valid() && e.ArrayLit?
      modifies this, Top().code, Top().code.bytes
      ensures Valid() && (err.None? ==> Framed())
      ensures TermDone(ElabE(e, old(symbols), |old(constants)|), err, old(Now()), Now())
      decreases e, 0
    {
      hide DidT, DidTs, Encode;
      ghost var v0, s0, k0 := Now(), symbols, |constants|;
      err := CompileAll(e.elems);
      if err.Some? { return; }
      ghost var v1 := Now();
      var _ := Emit(Instr(OpArray, |e.elems|));
      ElabCount(e.elems, s0, k0);
      ghost var xs := ElabEs(e.elems, s0, k0);
      PrimDid(v0, v1, Now(), OpArray, xs.x, xs.consts);
    }

    method CompileIndex(e: Ast.Expr) returns (err: Option<CompileError>)
      requires Valid() && e.Index?
      modifies this, Top().code, Top().code.bytes
      ensures Valid() && (err.None? ==> Framed())
      ensures TermDone(ElabE(e, old(symbols), |old(constants)|), err, old(Now()), Now())
      decreases e, 0
    {
      hide DidT, DidTs, Encode, ElabE;
      ghost var v0, s0, k0 := Now(), symbols, |constants|;
      IndexParts(e, s0, k0);
      err := CompileExpression(e.left);
      if err.Some? { return; }
      ghost var v1, s1, k1 := Now(), symbols, |constants|;
      err := CompileExpression(e.index);
      if err.Some? { return; }
      ghost var v2 := Now();
      var _ := Emit(Plain(OpIndexGet));
      ghost var l, r := ElabE(e.left, s0, k0), ElabE(e.index, s1, k1);
      OneTerm(v0, v1, l.x, l.consts);
      NextTerm(v0, v1, v2, [l.x], r.x, l.consts, r.consts);
      assert [l.x] + [r.x] == [l.x, r.x];
      PrimDid(v0, v2, Now(), OpIndexGet, [l.x, r.x], l.consts + r.consts);
    }

    method CompileSlice(e: Ast.Expr) returns (err: Option<CompileError>)
      requires Valid() && e.Slice?
      modifies this, Top().code, Top().code.bytes
      ensures Valid() && (err.None? ==> Framed())
      ensures TermDone(ElabSlice(e, old(symbols), |old(constants)|), err, old(Now()), Now())
      decreases e, 0
    {
      hide DidT, DidTs, ElabE, ElabO, Encode;
      ghost var v0, s0, k0 := Now(), symbols, |constants|;
      err := CompileExpression(e.left);
      if err.Some? { return; }
      ghost var v1, s1, k1 := Now(), symbols, |constants|;
      err := CompileOptional(e.start);
      if err.Some? { return; }
      ghost var v2, s2, k2 := Now(), symbols, |constants|;
      err := CompileOptional(e.end);
      if err.Some? { return; }
      ghost var v3 := Now();
      var _ := Emit(Plain(OpSlice));
      ghost var a, b, c := ElabE(e.left, s0, k0), ElabO(e.start, s1, k1), ElabO(e.end, s2, k2);
      ThreeTerms(v0, v1, v2, v3, a.x, b.x, c.x, a.consts, b.consts, c.consts);
      PrimDid(v0, v3, Now(), OpSlice, [a.x, b.x, c.x], a.consts + b.consts + c.consts);
    }

    method CompileAssignIndex(e: Ast.Expr) returns (err: Option<CompileError>)
      requires Valid() && e.AssignIndex?
      modifies this, Top().code, Top().code.bytes
      ensures Valid() && (err.None? ==> Framed())
      ensures TermDone(ElabAssignIndex(e, old(symbols), |old(constants)|), err, old(Now()), Now())
      decreases e, 0
    {
      hide DidT, DidTs, ElabE, Encode;
      ghost var v0, s0, k0 := Now(), symbols, |constants|;
      err := CompileExpression(e.left);
      if err.Some? { return; }
      ghost var v1, s1, k1 := Now(), symbols, |constants|;
      err := CompileExpression(e.index);
      if err.Some? { return; }
      ghost var v2, s2, k2 := Now(), symbols, |constants|;
      err := CompileExpression(e.value);
      if err.Some? { return; }
      ghost var v3 := Now();
      var _ := Emit(Plain(OpIndexSet));
      ghost var a, b, c := ElabE(e.left, s0, k0), ElabE(e.index, s1, k1), ElabE(e.value, s2, k2);
      ThreeTerms(v0, v1, v2, v3, a.x, b.x, c.x, a.consts, b.consts, c.consts);
      PrimDid(v0, v3, Now(), OpIndexSet, [a.x, b.x, c.x], a.consts + b.consts + c.consts);
    }

    /** An absent slice bound or initial value compiles to a null. */
    method CompileOptional(e: Option<Ast.Expr>) returns (err: Option<CompileError>)
      requires Valid()
      modifies this, Top().code, Top().code.bytes
      ensures Valid() && (err.None? ==> Framed())
      ensures TermDone(ElabO(e, old(symbols), |old(constants)|), err, old(Now()), Now())
      decreases e, 0
    {
      hide DidT, Encode;
      match e
      case None =>
        ghost var v0 := Now();
        var _ := Emit(Plain(OpNull));
        LeafDid(v0, Now(), Null, Plain(OpNull));
        return None;
      case Some(x) => err := CompileExpression(x);
    }

    method CompileAssign(e: Ast.Expr) returns (err: Option<CompileError>)
      requires Valid() && e.Assign?
      modifies this, Top().code, Top().code.bytes
      ensures Valid() && (err.None? ==> Framed())
      ensures TermDone(ElabE(e, old(symbols), |old(constants)|), err, old(Now()), Now())
      decreases e, 0
    {
      hide DidT, Encode;
      match Resolve(symbols, e.name)
      case None => return Some(UnknownIdent);
      case Some(v) =>
        ghost var v0, s0, k0 := Now(), symbols, |constants|;
        err := CompileExpression(e.value);
        if err.Some? { return; }
        if v.Builtin? {
          return Some(AssignedBuiltin);
        }
        ghost var v1 := Now();
        var _ := Emit(SetOp(v));
        var _ := Emit(GetOp(v));
        ghost var r := ElabE(e.value, s0, k0);
        PutDid(v0, v1, Now(), v, r.x, r.consts);
    }

    method CompileAll(es: seq<Ast.Expr>) returns (err: Option<CompileError>)
      requires Valid()
      modifies this, Top().code, Top().code.bytes
      ensures Valid() && (err.None? ==> Framed())
      ensures TermsDone(ElabEs(es, old(symbols), |old(constants)|), err, old(Now()), Now())
      decreases es, 0
    {
      hide DidT, DidTs, ElabE, ElabEs, Encode;
      ghost var v0, done, cs := Now(), [], [];
      NoTerms(v0);
      MoreTermsNone(es, ElabEs(es, symbols, |constants|));
      var i := 0;
      while i < |es|
        invariant 0 <= i <= |es| && Valid() && Framed()
        invariant DidTs(v0, Now(), done, cs) && |constants| == |v0.pool| + |cs|
        invariant ElabEs(es, old(symbols), |old(constants)|)
                  == MoreTerms(done, cs, ElabEs(es[i..], symbols, |constants|))
      {
        ghost var v1, s1, k1 := Now(), symbols, |constants|;
        TermsStep(es, i, s1, k1);
        err := CompileExpression(es[i]);
        if err.Some? { return; }
        ghost var r := ElabE(es[i], s1, k1);
        NextTerm(v0, v1, Now(), done, r.x, cs, r.consts);
        MoreTermsTwice(done, cs, [r.x], r.consts, ElabEs(es[i + 1..], symbols, |constants|));
        done, cs := done + [r.x], cs + r.consts;
        i := i + 1;
      }
      err := None;
      NoneLeft(es, [], symbols, |constants|);
      assert done + [] == done && cs + [] == cs;
    }

    method CompileBlock(b: seq<Ast.Stmt>) returns (err: Option<CompileError>)
      requires Valid()
      modifies this, Top().code, Top().code.bytes
      ensures Valid() && (err.None? ==> Framed())
      ensures BlockDone(ElabB(b, old(symbols), |old(constants)|), err, old(Now()), Now())
      decreases b, 0
    {
      hide DidB, ElabS, ElabB, Encode, LastOf;
      ghost var v0, done, cs := Now(), [], [];
      NoCommands(v0);
      LastNone(v0.last, |v0.code|);
      MoreBlockNone(b, ElabB(b, symbols, |constants|));
      var i := 0;
      while i < |b|
        invariant 0 <= i <= |b| && Valid() && Framed()
        invariant DidB(v0, Now(), done, cs) && |constants| == |v0.pool| + |cs|
        invariant Top().last == LastOf(done, v0.last, |Now().code|)
        invariant ElabB(b, old(symbols), |old(constants)|) == MoreBlock(done, cs, ElabB(b[i..], symbols, |constants|))
      {
        ghost var v1, s1, k1 := Now(), symbols, |constants|;
        BlockStep(b, i, s1, k1);
        err := CompileStatement(b[i]);
        if err.Some? { return; }
        ghost var r := ElabS(b[i], s1, k1);
        MoreCommands(v0, v1, Now(), done, r.x, cs, r.consts);
        LastMore(done, r.x, v0.last, |v1.code|, |Now().code|, v1, Now(), r.consts);
        MoreBlockTwice(done, cs, r.x, r.consts, ElabB(b[i + 1..], symbols, |constants|));
        done, cs := done + r.x, cs + r.consts;
        i := i + 1;
      }
      err := None;
      NoneLeft([], b, symbols, |constants|);
      assert done + [] == done && cs + [] == cs;
    }

    method CompileStatement(x: Ast.Stmt) returns (err: Option<CompileError>)
      requires Valid()
      modifies this, Top().code, Top().code.bytes
      ensures Valid() && (err.None? ==> Framed())
      ensures BlockDone(ElabS(x, old(symbols), |old(constants)|), err, old(Now()), Now())
      decreases x, 0
    {
      hide DidB, DidT, Encode, ElabE, ElabO;
      match x
      case ExprStmt(e) =>
        ghost var v0, s0, k0 := Now(), symbols, |constants|;
        err := CompileExpression(e);
        if err.Some? { return; }
        ghost var v1 := Now();
        var _ := Emit(Plain(OpPop));
        ghost var r := ElabE(e, s0, k0);
        CommandDid(v0, v1, Now(), Eval(r.x), r.x, Plain(OpPop), r.consts);
      case Empty =>
        NoCommands(Now());
        return None;
      case Let(name, init) => err := CompileLet(name, init);
      case Return(None) =>
        NoCommands(Now());
        return None;
      case Return(Some(e)) =>
        ghost var v0, s0, k0 := Now(), symbols, |constants|;
        err := CompileExpression(e);
        if err.Some? { return; }
        ghost var v1 := Now();
        var _ := Emit(Plain(OpReturnValue));
        ghost var r := ElabE(e, s0, k0);
        CommandDid(v0, v1, Now(), Core.Return(r.x), r.x, Plain(OpReturnValue), r.consts);
      case Break => err := CompileJump(Core.Break, JUMP_PLACEHOLDER_BREAK);
      case Continue => err := CompileJump(Core.Continue, JUMP_PLACEHOLDER_CONTINUE);
    }

    /** `break` and `continue`: the null that is the value of the loop, and a jump without a target. */
    method CompileJump(x: Cmd, placeholder: nat) returns (err: Option<CompileError>)
      requires Valid()
      requires (x.Break? && placeholder == JUMP_PLACEHOLDER_BREAK)
               || (x.Continue? && placeholder == JUMP_PLACEHOLDER_CONTINUE)
      modifies this, Top().code, Top().code.bytes
      ensures Valid() && Framed()
      ensures BlockDone(Good([x], old(symbols), []), err, old(Now()), Now())
    {
      hide DidB, Encode;
      ghost var v0 := Now();
      var _ := Emit(Plain(OpNull));
      var _ := Emit(Instr(OpJump, placeholder));
      JumpDid(v0, Now(), x, placeholder);
      return None;
    }

    method CompileLet(name: string, init: Option<Ast.Expr>) returns (err: Option<CompileError>)
      requires Valid()
      modifies this, Top().code, Top().code.bytes
      ensures Valid() && (err.None? ==> Framed())
      ensures BlockDone(ElabS(Ast.Let(name, init), old(symbols), |old(constants)|), err, old(Now()), Now())
      decreases init, 1
    {
      hide DidB, DidT, Encode, ElabO;
      ghost var before := symbols;
      var (s, v) := Scopes.Define(symbols, name);
      symbols := s;
      ghost var v0 := Now();
      err := CompileOptional(init);
      if err.Some? { return; }
      ghost var v1 := Now();
      var _ := Emit(SetOp(v));
      ghost var r := ElabO(init, s, |v0.pool|);
      CommandDid(v0, v1, Now(), Core.Define(v, r.x), r.x, SetOp(v), r.consts);
      FromSymbols(v0, Now(), before, [Core.Define(v, r.x)], r.consts);
    }

    /** The POP at the end of a block goes, and its value stays. */
    method DropPop(ghost v0: View, ghost b: seq<Cmd>, ghost cs: seq<SValue>)
      requires Valid() && DidB(v0, Now(), b, cs) && Top().last == LastOf(b, v0.last, |Now().code|)
      requires v0.last.op != OpPop
      modifies this, Top().code
      ensures Valid() && Framed() && symbols == old(symbols) && constants == old(constants)
      ensures DidV(v0, Now(), b, cs)
    {
      hide DidB, DidV;
      ghost var v1 := Now();
      LengthB(v0, v1, b, cs);
      LenPositive(b);
      if LastInstructionIs(OpPop) {
        RemoveLastInstruction();
      }
      TrimDid(v0, v1, Now(), b, cs);
    }

    /** A block whose value stays on the stack. */
    method CompileValue(b: seq<Ast.Stmt>) returns (err: Option<CompileError>)
      requires Valid() && Top().last.op != OpPop
      modifies this, Top().code, Top().code.bytes
      ensures Valid() && (err.None? ==> Framed())
      ensures ValueDone(ElabB(b, old(symbols), |old(constants)|), err, old(Now()), Now())
      decreases b, 1
    {
      hide DidB, DidV, ElabB;
      ghost var v0 := Now();
      err := CompileBlock(b);
      if err.Some? { return; }
      ghost var r := ElabB(b, v0.symbols, |v0.pool|);
      DropPop(v0, r.x, r.consts);
    }

    method CompileElse(b: Ast.Alternative) returns (err: Option<CompileError>)
      requires Valid() && Top().last.op != OpPop
      modifies this, Top().code, Top().code.bytes
      ensures Valid() && (err.None? ==> Framed())
      ensures ValueDone(ElabElse(b, old(symbols), |old(constants)|), err, old(Now()), Now())
      decreases b, 1
    {
      hide DidB, DidV, ElabB, Encode;
      match b
      case NoElse =>
        ghost var v0 := Now();
        var _ := Emit(Plain(OpNull));
        NullBranchDid(v0, Now());
        return None;
      case Else(alt) => err := CompileValue(alt);
    }

    /** A condition and the jump that tests it, whose target is open; v1 is the state between them. */
    method CompileGuard(c: Ast.Expr) returns (err: Option<CompileError>, test: nat, ghost v1: View)
      requires Valid()
      modifies this, Top().code, Top().code.bytes
      ensures Valid() && (err.None? ==> Framed())
      ensures TermDone(ElabE(c, old(symbols), |old(constants)|), err, old(Now()), v1)
      ensures err.None? ==> test == |v1.code| && symbols == v1.symbols && constants == v1.pool
      ensures err.None? ==> Now().code == v1.code + Encode(Instr(OpJumpNotTrue, 9999)) && Top().last.op == OpJumpNotTrue
      decreases c, 3
    {
      hide TermDone, ElabE, Encode;
      test := 0;
      err := CompileExpression(c);
      v1 := Now();
      if err.Some? { return; }
      test := Emit(Instr(OpJumpNotTrue, 9999));
    }

    /** Condition and consequence; the condition jumps past the jump at `over`, whose target is open. */
    method CompileThen(e: Ast.Expr) returns (err: Option<CompileError>, over: nat)
      requires Valid() && e.If?
      modifies this, Top().code, Top().code.bytes
      ensures Valid() && (err.None? ==> Framed())
      ensures ThenDone(ElabThen(e, old(symbols), |old(constants)|), err, old(Now()), Now())
      ensures err.None? ==> over == |Now().code| - 3 && Top().last.op == OpJump
      decreases e, 0
    {
      hide DidT, DidV, CondClosed, ElabE, ElabB, ElabThen, ThenDone, TermDone, ValueDone, Encode, LenT, LenV;
      over := 0;
      ghost var v0, s0, k0 := Now(), symbols, |constants|;
      var test;
      ghost var v1;
      err, test, v1 := CompileGuard(e.cond);
      ghost var v2, s1, k1 := Now(), symbols, |constants|;
      ThenCondition(e, s0, k0, err, v0, v1, v2);
      if err.Some? { return; }
      err := CompileValue(e.conseq);
      ghost var v3 := Now();
      ThenConsequence(e, s0, k0, err, v0, v1, v2, v3);
      if err.Some? { return; }
      ghost var c, x := ElabE(e.cond, s0, k0), ElabB(e.conseq, s1, k1);
      over := CloseThen(test, v0, v1, v2, c.x, x.x, c.consts, x.consts);
      ThenEnds(v0, v3, Now(), c, x, ElabThen(e, s0, k0));
    }

    /** The jump over the alternative, and the target of the condition's jump after it. */
    method CloseThen(test: nat, ghost v0: View, ghost v1: View, ghost v2: View,
                     ghost c: Term, ghost x: seq<Cmd>, ghost c1: seq<SValue>, ghost c2: seq<SValue>)
      returns (over: nat)
      requires Valid() && DidT(v0, v1, c, c1) && DidV(v2, Now(), x, c2) && test == |v1.code|
      requires v2.code == v1.code + Encode(Instr(OpJumpNotTrue, 9999)) && v2.pool == v1.pool
      modifies this, Top().code, Top().code.bytes
      ensures Valid() && Framed() && symbols == old(symbols) && constants == old(constants)
      ensures over == |Now().code| - 3 && Top().last.op == OpJump && CondClosed(v0, Now(), c, x, c1 + c2)
      ensures |Now().code| == |v0.code| + LenT(c) + 3 + LenV(x) + 3
    {
      hide DidT, DidV, CondOpen, CondClosed, Encode, Changed, Fetch, LenT, LenV;
      ghost var v3 := Now();
      over := Emit(Instr(OpJump, 9999));
      ghost var v4 := Now();
      CondFirst(v0, v1, v2, v3, v4, c, x, c1, c2);
      ChangeOperand(test, Top().code.size);
      ChangedAs(v4.code, Now().code, test, Fetch(v4.code, test).value, Instr(OpJumpNotTrue, 9999), |v4.code|);
      CondTested(v0, v4, Now(), c, x, c1 + c2);
    }

    method CompileIf(e: Ast.Expr) returns (err: Option<CompileError>)
      requires Valid() && e.If?
      modifies this, Top().code, Top().code.bytes
      ensures Valid() && (err.None? ==> Framed())
      ensures TermDone(ElabIf(e, old(symbols), |old(constants)|), err, old(Now()), Now())
      decreases e, 1
    {
      hide DidT, DidV, CondClosed, CondHalf, ElabE, ElabB, ElabElse, ElabIf, ElabThen, Encode, Changed, Fetch;
      hide LenT, LenV;
      ghost var v0, s0, k0 := Now(), symbols, |constants|;
      ElabIfParts(e, s0, k0);
      var over;
      err, over := CompileThen(e);
      if err.Some? { return; }
      ghost var v5, s5, k5 := Now(), symbols, |constants|;
      err := CompileElse(e.alt);
      if err.Some? { return; }
      ghost var v6 := Now();
      ghost var t, y := ElabThen(e, s0, k0), ElabElse(e.alt, s5, k5);
      CondSecond(v0, v5, v6, t.x.0, t.x.1, y.x, t.consts, y.consts);
      var end := Top().code.size;
      ChangeOperand(over, end);
      ChangedAs(v6.code, Now().code, over, Fetch(v6.code, over).value, Instr(OpJump, 9999), end);
      CondThird(v0, v6, Now(), t.x.0, t.x.1, y.x, t.consts + y.consts);
    }

    method DefineParameters(names: seq<string>)
      requires scopes != []
      modifies `symbols
      ensures symbols == DefineAll(old(symbols), names) && symbols.outer == old(symbols).outer
      ensures Levels(symbols) == Levels(old(symbols))
    {
      var i := 0;
      while i < |names|
        invariant 0 <= i <= |names| && symbols.outer == old(symbols).outer
        invariant DefineAll(old(symbols), names) == DefineAll(symbols, names[i..])
      {
        assert names[i..][1..] == names[i + 1..];
        symbols := Scopes.Define(symbols, names[i]).0;
        i := i + 1;
      }
    }

    /** A function in a scope of its own; its code and the number of its slots. */
    method CompileFunctionBody(params: seq<string>, body: seq<Ast.Stmt>)
                               returns (err: Option<CompileError>, code: seq<byte>, numLocals: nat)
      requires Valid()
      modifies this
      ensures Valid() && (err.None? ==> scopes == old(scopes) && symbols == old(symbols))
      ensures FunctionDone(ElabBody(params, body, old(symbols), |old(constants)|), err,
                           old(constants), constants, code, numLocals)
      decreases body, 1
    {
      hide DidB, ElabB, CodeF, ShortB;
      code, numLocals := [], 0;
      if |scopes| == SCOPES_SIZE {
        return Some(ScopesOverflow), code, numLocals;
      }
      EnterScope();
      DefineParameters(params);
      ghost var w0 := Now();
      err := CompileBlock(body);
      if err.Some? { return; }
      ghost var r := ElabB(body, w0.symbols, |w0.pool|);
      EndFunction(w0, r.x, r.consts);
      OuterB(body, w0.symbols, |w0.pool|);
      numLocals := symbols.size;
      code := LeaveScope();
      assert scopes == old(scopes);
    }

    method CompileFunction(e: Ast.Expr) returns (err: Option<CompileError>)
      requires Valid() && e.Function?
      modifies this, Top().code, Top().code.bytes
      ensures Valid() && (err.None? ==> Framed())
      ensures TermDone(ElabFunction(e, old(symbols), |old(constants)|), err, old(Now()), Now())
      decreases e, 0
    {
      hide DidT, DidB, ElabB, Encode, CodeF, ShortB, Grown;
      ghost var v0 := Now();
      var code, numLocals;
      err, code, numLocals := CompileFunctionBody(e.params, e.body);
      if err.Some? { return; }
      ghost var r := ElabB(e.body, DefineAll(Enclosed(v0.symbols), e.params), |v0.pool|);
      if |constants| == CONSTANTS_SIZE {
        return Some(ConstantsOverflow);
      }
      var k := AddConstant(VFun(Compiled(code, numLocals)));
      var _ := Emit(Instr(OpConst, k));
      LambdaDid(v0, Now(), Fun(numLocals, r.x), r.consts, code);
    }

    /** A body returns its last expression statement; one that does not end in a return returns null. */
    method EndFunction(ghost v0: View, ghost b: seq<Cmd>, ghost cs: seq<SValue>)
      requires Valid() && DidB(v0, Now(), b, cs) && Top().last == LastOf(b, v0.last, |Now().code|) && v0.code == []
      modifies this, Top().code, Top().code.bytes
      ensures Valid() && Framed() && symbols == old(symbols) && constants == old(constants)
      ensures |Now().code| == |CodeF(b)| && (|Now().code| <= CODE_MAX ==> Now().code == CodeF(b))
      ensures PoolGrown(v0.pool, constants, cs, ShortB(b))
    {
      hide Encode, CodeB, ShortB, CodeF, Grown;
      ghost var v1 := Now();
      LengthB(v0, v1, b, cs);
      LenPositive(b);
      if LastInstructionIs(OpPop) {
        ReplaceLastInstruction(Plain(OpReturnValue));
      } else if !LastInstructionIs(OpReturnValue) {
        var _ := Emit(Plain(OpReturn));
      }
      FunctionDid(v0, v1, Now(), b, cs);
    }

    /** A loop leaves the value of its last expression statement, or null. */
    method LoopValue(ghost v3: View, ghost v4: View, ghost b: seq<Cmd>, ghost cs: seq<SValue>)
      requires Valid() && DidB(v4, Now(), b, cs) && Top().last == LastOf(b, v4.last, |Now().code|)
      requires v4.code == v3.code + Encode(Plain(OpPop)) && v4.pool == v3.pool && v4.last == Emitted(OpPop, |v3.code|)
      modifies this, Top().code, Top().code.bytes
      ensures Valid() && Framed() && symbols == old(symbols) && constants == old(constants)
      ensures Did(v3, Now(), CodeL(b, |v3.code|, BRK, CONT), cs, CODE_MAX, ShortB(b))
    {
      hide DidB, Did, Encode, CodeL, LenB, ShortB;
      ghost var v5 := Now();
      LengthB(v4, v5, b, cs);
      LenPositive(b);
      if LastInstructionIs(OpPop) {
        RemoveLastInstruction();
      } else {
        var _ := Emit(Plain(OpNull));
      }
      BodyDid(v3, v4, v5, Now(), b, cs);
    }

    /** Both scans over a loop body. */
    method BindLoopJumps(start: nat, end: nat, after: nat, cont: nat, ghost v0: View, ghost a: seq<byte>,
                         ghost b: seq<Cmd>,
                         ghost tail: seq<byte>, ghost cs: seq<SValue>, ghost short: bool)
      requires Valid() && DidLoop(v0, Now(), a, b, BRK, CONT, tail, cs, short) && Stream(a)
      requires TailFits(Now().code, tail)
      requires start == |v0.code| + |a| + 1 && end == start + LenB(b)
      requires |Now().code| <= CODE_MAX ==> after <= CODE_MAX && cont <= CODE_MAX
      modifies Top().code.bytes
      ensures Now() == old(Now()).(code := Now().code)
      ensures DidLoop(v0, Now(), a, b, after, cont, tail, cs, short)
    {
      hide Did, Stream, Scanned, LenB, Fetch, CodeL;
      ghost var v1 := Now();
      ScanReady(v0, v1, a, b, BRK, CONT, tail, cs, short);
      ChangePlaceholders(start, end, JUMP_PLACEHOLDER_BREAK, after);
      ghost var v2 := Now();
      ScanDid(v0, v1, v2, a, b, BRK, CONT, tail, cs, short, BRK, after);
      ScanReady(v0, v2, a, b, after, CONT, tail, cs, short);
      ChangePlaceholders(start, end, JUMP_PLACEHOLDER_CONTINUE, cont);
      BindBoth(v0, v1, v2, Now(), a, b, after, cont, tail, cs, short);
    }

    /** The POP for the value so far, the body, and its own value; `start` and `end` bound the later scans. */
    method CompileLoopBody(b: seq<Ast.Stmt>) returns (err: Option<CompileError>, start: nat, end: nat)
      requires Valid()
      modifies this, Top().code, Top().code.bytes
      ensures Valid() && (err.None? ==> Framed())
      ensures LoopBodyDone(ElabB(b, old(symbols), |old(constants)|), err, old(Now()), Now(), start, end)
      decreases b, 1
    {
      hide DidB, Did, ElabB, Encode, CodeL, LenB, ShortB;
      end := 0;
      ghost var v3 := Now();
      var _ := Emit(Plain(OpPop));
      ghost var v4 := Now();
      start := Top().code.size;
      err := CompileBlock(b);
      if err.Some? { return; }
      ghost var r := ElabB(b, v3.symbols, |v3.pool|);
      LengthB(v4, Now(), r.x, r.consts);
      end := Top().code.size;
      LoopValue(v3, v4, r.x, r.consts);
    }

    /** The null and the condition, with its jump at `test`. */
    method CompileWhileHead(cond: Ast.Expr) returns (err: Option<CompileError>, before: nat, test: nat)
      requires Valid()
      modifies this, Top().code, Top().code.bytes
      ensures Valid() && (err.None? ==> Framed())
      ensures WhileHeadDone(ElabE(cond, old(symbols), |old(constants)|), err, old(Now()), Now(), before, test)
      decreases cond, 3
    {
      hide DidT, Did, ElabE, Encode, LenT, WhileFront;
      before, test := 0, 0;
      ghost var v0 := Now();
      var _ := Emit(Plain(OpNull));
      ghost var v1 := Now();
      before := Top().code.size;
      err := CompileExpression(cond);
      if err.Some? { return; }
      ghost var v2 := Now();
      test := Emit(Instr(OpJumpNotTrue, 9999));
      ghost var c := ElabE(cond, v0.symbols, |v0.pool|);
      WhileFrontDid(v0, v1, v2, Now(), c.x, c.consts);
    }

    method CompileWhile(e: Ast.Expr) returns (err: Option<CompileError>)
      requires Valid() && e.While?
      modifies this, Top().code, Top().code.bytes
      ensures Valid() && (err.None? ==> Framed())
      ensures TermDone(ElabE(e, old(symbols), |old(constants)|), err, old(Now()), Now())
      decreases e, 0
    {
      hide DidT, Did, ElabB, Encode, LenB, LenL, CodeL, LenT, WhileFront, Resolve;
      hide ElabInfix, ElabIf, ElabFunction, ElabSlice, ElabFor, ElabAssignIndex, ElabEs, ShortB, ShortT;
      ghost var v0, s0, k0 := Now(), symbols, |constants|;
      var before, test, start, end;
      err, before, test := CompileWhileHead(e.cond);
      if err.Some? { return; }
      ghost var v3, s3, k3 := Now(), symbols, |constants|;
      err, start, end := CompileLoopBody(e.body);
      if err.Some? { return; }
      ghost var c, b := ElabE(e.cond, s0, k0), ElabB(e.body, s3, k3);
      CloseWhile(before, test, start, end, v0, v3, c.x, b.x, c.consts, b.consts);
    }

    /** The test of a `while` jumps past the loop. */
    method BindWhileTest(test: nat, after: nat, ghost v0: View, ghost c: Term, ghost b: seq<Cmd>, ghost cs: seq<SValue>,
                         ghost short: bool)
      requires Valid() && test == |v0.code| + 1 + LenT(c) && after == |Now().code| == test + 3 + LenL(b) + 3
      requires Fetch(Now().code, test).Some? && Fetch(Now().code, test).value.op == OpJumpNotTrue
      requires DidLoop(v0, Now(), WhileFront(c, |v0.code|, 9999), b, BRK, CONT, Encode(Instr(OpJump, |v0.code| + 1)),
               cs,
                       short)
      modifies Top().code.bytes
      ensures Now() == old(Now()).(code := Now().code) && |Now().code| == |old(Now()).code|
      ensures DidLoop(v0, Now(), WhileFront(c, |v0.code|, after), b, BRK, CONT, Encode(Instr(OpJump, |v0.code| + 1)),
              cs,
                      short)
      ensures Stream(WhileFront(c, |v0.code|, after)) && TailFits(Now().code, Encode(Instr(OpJump, |v0.code| + 1)))
    {
      hide DidLoop, Encode, Changed, Fetch, LenT, LenL, WhileFront, TailFits, Stream;
      ghost var v7 := Now();
      ChangeOperand(test, after);
      ChangedAs(v7.code, Now().code, test, Fetch(v7.code, test).value, Instr(OpJumpNotTrue, 9999), after);
      WhileTested(v0, v7, Now(), c, b, cs, short);
    }

    /** The jump back, and the target of the test behind it. */
    method JumpBack(before: nat, test: nat, ghost v0: View, ghost v3: View,
                    ghost c: Term, ghost b: seq<Cmd>, ghost c1: seq<SValue>, ghost c2: seq<SValue>)
      returns (after: nat)
      requires Valid()
      requires Did(v0, v3, WhileFront(c, |v0.code|, 9999), c1, CODE_MAX, ShortT(c))
      requires Did(v3, Now(), CodeL(b, |v3.code|, BRK, CONT), c2, CODE_MAX, ShortB(b))
      requires before == |v0.code| + 1 && test == |v0.code| + 1 + LenT(c)
      modifies this, Top().code, Top().code.bytes
      ensures Valid() && Framed() && symbols == old(symbols) && constants == old(constants)
      ensures after == |Now().code| == |v3.code| + LenL(b) + 3 && |v3.code| == test + 3
      ensures DidLoop(v0, Now(), WhileFront(c, |v0.code|, after), b, BRK, CONT, Encode(Instr(OpJump, before)), c1 + c2,
                      ShortT(c) && ShortB(b))
      ensures TailFits(Now().code, Encode(Instr(OpJump, before)))
    {
      hide Did, DidLoop, Encode, Changed, Fetch, LenT, LenL, CodeL, WhileFront, TailFits, Stream, ShortT, ShortB;
      ghost var v6 := Now();
      var _ := Emit(Instr(OpJump, before));
      WhileOpen(v0, v3, v6, Now(), c, b, c1, c2);
      after := Top().code.size;
      BindWhileTest(test, after, v0, c, b, c1 + c2, ShortT(c) && ShortB(b));
    }

    /** The jump back, and all targets. */
    method CloseWhile(before: nat, test: nat, start: nat, end: nat, ghost v0: View, ghost v3: View,
                      ghost c: Term, ghost b: seq<Cmd>, ghost c1: seq<SValue>, ghost c2: seq<SValue>)
      requires Valid()
      requires Did(v0, v3, WhileFront(c, |v0.code|, 9999), c1, CODE_MAX, ShortT(c))
      requires Did(v3, Now(), CodeL(b, |v3.code|, BRK, CONT), c2, CODE_MAX, ShortB(b))
      requires before == |v0.code| + 1 && test == |v0.code| + 1 + LenT(c) && start == |v3.code| + 1
      requires end == start + LenB(b)
      modifies this, Top().code, Top().code.bytes
      ensures Valid() && Framed() && symbols == old(symbols) && constants == old(constants)
      ensures DidT(v0, Now(), Loop(c, b), c1 + c2)
    {
      hide DidT, Did, DidLoop, Encode, LenT, LenB, LenL, CodeL, WhileFront, TailFits, Stream, ShortT, ShortB;
      var after := JumpBack(before, test, v0, v3, c, b, c1, c2);
      WhileFrontStream(c, |v0.code|, after);
      BindLoopJumps(start, end, after, before, v0, WhileFront(c, |v0.code|, after), b, Encode(Instr(OpJump, before)),
                    c1 + c2, ShortT(c) && ShortB(b));
      WhileWhole(v0, Now(), c, b, c1 + c2);
    }

    /** The test of a `for` loop, if it has one, and the position of its jump. */
    method CompileTest(t: Option<Ast.Expr>) returns (err: Option<CompileError>, test: nat)
      requires Valid()
      modifies this, Top().code, Top().code.bytes
      ensures Valid() && (err.None? ==> Framed())
      ensures TestDone(ElabTest(t, old(symbols), |old(constants)|), err, old(Now()), Now(), test)
      decreases t, 0
    {
      hide DidT, Did, ElabE, Encode, LenT;
      test := 0;
      ghost var v0 := Now();
      match t
      case None =>
        NoTestDid(v0);
        return None, 0;
      case Some(e) =>
        err := CompileExpression(e);
        if err.Some? { return; }
        ghost var v1 := Now();
        test := Emit(Instr(OpJumpNotTrue, 9999));
        ghost var r := ElabE(e, v0.symbols, |v0.pool|);
        TestDid(v0, v1, Now(), r.x, r.consts);
    }

    /** The null, the initialisation and the test; `before` is where the test is. */
    method CompileForHead(e: Ast.Expr) returns (err: Option<CompileError>, before: nat, test: nat)
      requires Valid() && e.For?
      modifies this, Top().code, Top().code.bytes
      ensures Valid() && (err.None? ==> Framed())
      ensures HeadDone(ElabHead(e, old(symbols), |old(constants)|), err, old(Now()), Now(), before, test)
      ensures err.None? ==> ElabHead(e, old(symbols), |old(constants)|).x.1.Some? == e.test.Some?
      decreases e, 0
    {
      hide DidT, DidB, Did, ElabB, ElabS, ElabE, Encode, LenB, LenT, TestCode, ForFront;
      before, test := 0, 0;
      ghost var v0, s0, k0 := Now(), symbols, |constants|;
      var _ := Emit(Plain(OpNull));
      ghost var v1 := Now();
      err := CompileStatement(e.init);
      if err.Some? { return; }
      ghost var v2, s2, k2 := Now(), symbols, |constants|;
      before := Top().code.size;
      err, test := CompileTest(e.test);
      if err.Some? { return; }
      ghost var a, t := ElabS(e.init, s0, k0), ElabTest(e.test, s2, k2);
      ForFrontDid(v0, v1, v2, Now(), a.x, t.x, a.consts, t.consts);
    }

    method CompileFor(e: Ast.Expr) returns (err: Option<CompileError>)
      requires Valid() && e.For?
      modifies this, Top().code, Top().code.bytes
      ensures Valid() && (err.None? ==> Framed())
      ensures TermDone(ElabFor(e, old(symbols), |old(constants)|), err, old(Now()), Now())
      decreases e, 1
    {
      hide DidT, DidB, Did, ElabB, ElabS, ElabTest, ElabHead, ElabFor, Encode, LenB, LenL, CodeL, LenT, ForFront;
      ghost var v0, s0, k0 := Now(), symbols, |constants|;
      ElabForParts(e, s0, k0);
      var before, test, start, end;
      err, before, test := CompileForHead(e);
      if err.Some? { return; }
      ghost var v4, s4, k4 := Now(), symbols, |constants|;
      err, start, end := CompileLoopBody(e.body);
      if err.Some? { return; }
      ghost var v6, s6, k6 := Now(), symbols, |constants|;
      var next := Top().code.size;
      err := CompileStatement(e.inc);
      if err.Some? { return; }
      ghost var h, b, d := ElabHead(e, s0, k0), ElabB(e.body, s4, k4), ElabS(e.inc, s6, k6);
      CloseFor(e.test.Some?, before, test, start, end, next, v0, v4, v6, h.x.0, h.x.1, d.x, b.x, h.consts, b.consts,
               d.consts);
    }

    /** The target of the test of a `for` loop, if it has one. */
    method BindTest(tested: bool, test: nat, after: nat, ghost v0: View, ghost init: seq<Cmd>,
                    ghost until: Option<Term>,
                    ghost b: seq<Cmd>, ghost tail: seq<byte>, ghost cs: seq<SValue>, ghost short: bool)
      requires Valid() && tested == until.Some?
      requires DidLoop(v0, Now(), ForFront(init, until, |v0.code|, 9999), b, BRK, CONT, tail, cs, short)
      requires tested ==> test == |v0.code| + 1 + LenB(init) + LenT(until.value)
      modifies Top().code.bytes
      ensures Now() == old(Now()).(code := Now().code) && |Now().code| == |old(Now()).code|
      ensures DidLoop(v0, Now(), ForFront(init, until, |v0.code|, after), b, BRK, CONT, tail, cs, short)
    {
      hide DidLoop, Encode, Changed, Fetch, LenB, LenT, ForFront;
      ghost var v8 := Now();
      if tested {
        ForOperand(v0, v8, init, until.value, b, tail, cs, short);
        ChangeOperand(test, after);
        ChangedAs(v8.code, Now().code, test, Fetch(v8.code, test).value, Instr(OpJumpNotTrue, 9999), after);
        ForTested(v0, v8, Now(), init, until.value, b, after, tail, cs, short);
      } else {
        NoTestFront(init, |v0.code|, 9999, after);
      }
    }

    /** The jump back, and all targets. */
    method CloseFor(tested: bool, before: nat, test: nat, start: nat, end: nat, next: nat,
                    ghost v0: View, ghost v4: View, ghost v6: View,
                    ghost init: seq<Cmd>, ghost until: Option<Term>, ghost inc: seq<Cmd>, ghost b: seq<Cmd>,
                    ghost c12: seq<SValue>, ghost c3: seq<SValue>, ghost c4: seq<SValue>)
      requires Valid() && tested == until.Some?
      requires Did(v0, v4, ForFront(init, until, |v0.code|, 9999), c12, CODE_MAX, ShortB(init) && ShortO(until))
      requires Did(v4, v6, CodeL(b, |v4.code|, BRK, CONT), c3, CODE_MAX, ShortB(b))
      requires DidB(v6, Now(), inc, c4)
      requires before == |v0.code| + 1 + LenB(init) && (tested ==> test == before + LenT(until.value))
      requires next == |v6.code|
      requires start == |v4.code| + 1 && end == start + LenB(b)
      modifies this, Top().code, Top().code.bytes
      ensures Valid() && Framed() && symbols == old(symbols) && constants == old(constants)
      ensures DidT(v0, Now(), ForLoop(init, until, inc, b), c12 + c3 + c4)
    {
      hide DidT, DidB, Did, DidLoop, Encode, Changed, Fetch, LenB, LenL, CodeL, LenT, TestCode, ForFront, ForTail,
           TailFits, Stream, ShortB;
      ghost var v7 := Now();
      var _ := Emit(Instr(OpJump, before));
      ghost var v8 := Now();
      ForOpen(v0, v4, v6, v7, v8, init, until, inc, b, c12, c3, c4);
      var after := Top().code.size;
      ghost var cs, short, tail := c12 + c3 + c4, ShortB(init) && ShortO(until) && ShortB(b)
        && ShortB(inc), ForTail(inc, next, before);
      ForFrontStream(init, until, |v0.code|, after);
      BindTest(tested, test, after, v0, init, until, b, tail, cs, short);
      ForTailFits(Now().code, inc, next, before);
      BindLoopJumps(start, end, after, next, v0, ForFront(init, until, |v0.code|, after), b, tail, cs, short);
      ForWhole(v0, Now(), init, until, inc, b, cs);
    }

    constructor ()
      ensures Valid() && |scopes| == 1 && Now().code == [] && symbols == Builtins() && constants == []
      ensures fresh(Top().code) && fresh(Top().code.bytes)
    {
      var last: Emitted, previous: Emitted := *, *;
      var code := new Buffer(2048);
      scopes := [Scope(code, last, previous)];
      symbols := Builtins();
      constants := [];
    }

    /** A whole program; HALT ends it. */
    method CompileProgram(b: seq<Ast.Stmt>) returns (err: Option<CompileError>)
      requires Valid()
      modifies this, Top().code, Top().code.bytes
      ensures Valid() && (err.None? ==> Framed())
      ensures ProgramDone(ElabB(b, old(symbols), |old(constants)|), err, old(Now()), Now())
    {
      hide DidB, ElabB, Encode, CodeP;
      ghost var v0 := Now();
      err := CompileBlock(b);
      if err.Some? { return; }
      ghost var v1 := Now();
      var _ := Emit(Plain(OpHalt));
      ghost var r := ElabB(b, v0.symbols, |v0.pool|);
      ProgramDid(v0, v1, Now(), r.x, r.consts);
    }

    /** get_bytecode: the bytes in use. */
    method Bytecode() returns (code: seq<byte>)
      requires Valid()
      ensures code == Now().code
    {
      code := Top().code.bytes[..Top().code.size];
    }
  }

  const BUILTIN_NAMES: seq<string> :=
    ["print", "len", "type", "int", "array_pop", "array_push", "file_get_contents", "str_split", "str_contains"]

  function BuiltinsFrom(s: Symbols, i: nat): Symbols
    requires i <= |BUILTIN_NAMES|
    decreases |BUILTIN_NAMES| - i
  {
    if i == |BUILTIN_NAMES| then s else BuiltinsFrom(DefineBuiltin(s, i, BUILTIN_NAMES[i]), i + 1)
  }

  /** The global scope before a program. */
  function Builtins(): Symbols { BuiltinsFrom(NO_SYMBOLS, 0) }
}
