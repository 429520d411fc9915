/**
 The height of the stack at every instruction: compiled code has one, the same
 along every way to the instruction, and every jump goes to an instruction of
 the same function.
 */
module StackHeights {
  import opened Wrappers
  import opened Opcodes
  import opened Core
  import opened Codegen
  import opened Objects
  import opened Simulation
  import opened Patching
  import opened Fragment

  // ---- annotated bytecode ----

  /** What an instruction takes off the stack. */
  function Takes(i: Instr): nat {
    match i.op
    case OpPop => 1 case OpJumpNotTrue => 1 case OpSetGlobal => 1 case OpSetLocal => 1 case OpReturnValue => 1
    case OpCall => i.arg + 1
    case _ => if IsOperator(i.op) then Arity(i.op, i.arg) else 0
  }

  /** What it leaves in its place. */
  function Leaves(i: Instr): nat {
    match i.op
    case OpPop => 0 case OpJump => 0 case OpJumpNotTrue => 0 case OpSetGlobal => 0 case OpSetLocal => 0
    case _ => 1
  }

  /** An instruction starts at byte p and finds h values there. */
  predicate HeightIs(hs: seq<int>, p: nat, h: int) { p < |hs| && hs[p] == h }

  /**
   One entry per byte, -1 inside instructions. At an instruction there are
   enough operands, and each next instruction finds what this one leaves.
   A main program does not return, a function does not halt.
   */
  predicate WellAt(fn: Compiled, hs: seq<int>, main: bool, p: nat)
    requires |hs| == |fn.code|
  {
    p < |hs| && hs[p] >= 0 ==>
      match Fetch(fn.code, p)
      case None => false
      case Some(i) =>
        && Takes(i) <= hs[p]
        && match i.op
           case OpReturnValue => !main
           case OpReturn => !main
           case OpHalt => main
           case OpJump => HeightIs(hs, i.arg, hs[p])
           case OpJumpNotTrue => HeightIs(hs, i.arg, hs[p] - 1) && HeightIs(hs, p + 3, hs[p] - 1)
           case OpGetLocal => i.arg < fn.numLocals && HeightIs(hs, p + 2, hs[p] + 1)
           case OpSetLocal => i.arg < fn.numLocals && HeightIs(hs, p + 2, hs[p] - 1)
           case _ => HeightIs(hs, p + Size(i), hs[p] - Takes(i) + Leaves(i))
  }

  predicate Span(fn: Compiled, hs: seq<int>, main: bool, from: nat, to: nat)
    requires |hs| == |fn.code|
  {
    forall p | from <= p < to :: WellAt(fn, hs, main, p)
  }

  /** The function has one stack height per instruction. */
  predicate Balanced(fn: Compiled, hs: seq<int>, main: bool) {
    |hs| == |fn.code| && HeightIs(hs, 0, 0) && Span(fn, hs, main, 0, |fn.code|)
  }

  // ---- the heights of compiled code ----

  function HI(i: Instr, h: int): (hs: seq<int>)
    ensures |hs| == Size(i)
  {
    match Width(i.op) case 0 => [h] case 1 => [h, -1] case _ => [h, -1, -1]
  }

  function HT(t: Term, h: int): (hs: seq<int>)
    ensures |hs| == LenT(t)
    decreases t, 1
  {
    match t
    case Const(k, _) => HI(Instr(OpConst, k), h)
    case Lambda(k, _) => HI(Instr(OpConst, k), h)
    case Null => HI(Plain(OpNull), h)
    case Truth(b) => HI(Plain(if b then OpTrue else OpFalse), h)
    case Get(v) => HI(GetOp(v), h)
    case Prim(op, args) => HTs(args, h) + HI(Operator(op, |args|), h + |args|)
    case Bump(step, v, k) =>
      HI(GetOp(v), h) + (HI(GetOp(v), h + 1) + (HI(Instr(OpConst, k), h + 2)
         + (HI(Plain(step), h + 3) + HI(SetOp(v), h + 2))))
    case Put(v, e) => HT(e, h) + (HI(SetOp(v), h + 1) + HI(GetOp(v), h))
    case Cond(_, _, _) => HCond(t, h)
    case Loop(_, _) => HLoop(t, h)
    case ForLoop(_, _, _, _) => HFor(t, h)
    case Call(f, args) => HT(f, h) + (HTs(args, h + 1) + HI(Instr(OpCall, |args|), h + 1 + |args|))
  }

  function HCond(t: Term, h: int): (hs: seq<int>)
    requires t.Cond?
    ensures |hs| == LenT(t)
    decreases t, 0
  {
    HT(t.test, h) + (HI(Instr(OpJumpNotTrue, 0), h + 1)
       + (HV(t.conseq, h) + (HI(Instr(OpJump, 0), h + 1) + HV(t.alt, h))))
  }

  /** The value of the rounds so far is below everything in a loop. */
  function HLoop(t: Term, h: int): (hs: seq<int>)
    requires t.Loop?
    ensures |hs| == LenT(t)
    decreases t, 0
  {
    HI(Plain(OpNull), h)
    + (HT(t.test, h + 1) + (HI(Instr(OpJumpNotTrue, 0), h + 2) + (HL(t.body, h) + HI(Instr(OpJump, 0), h + 1))))
  }

  function HFor(t: Term, h: int): (hs: seq<int>)
    requires t.ForLoop?
    ensures |hs| == LenT(t)
    decreases t, 0
  {
    HI(Plain(OpNull), h)
    + (HB(t.init, h + 1)
    + ((match t.until case None => [] case Some(c) => HT(c, h + 1) + HI(Instr(OpJumpNotTrue, 0), h + 2))
    + (HL(t.body, h) + (HB(t.inc, h + 1) + HI(Instr(OpJump, 0), h + 1)))))
  }

  function HTs(ts: seq<Term>, h: int): (hs: seq<int>)
    ensures |hs| == LenTs(ts)
    decreases ts, 0
  {
    if ts == [] then [] else HT(ts[0], h) + HTs(ts[1..], h + 1)
  }

  function HC(c: Cmd, h: int): (hs: seq<int>)
    ensures |hs| == LenC(c)
    decreases c, 0
  {
    match c
    case Define(v, e) => HT(e, h) + HI(SetOp(v), h + 1)
    case Return(e) => HT(e, h) + HI(Plain(OpReturnValue), h + 1)
    case Eval(e) => HT(e, h) + HI(Plain(OpPop), h + 1)
    case Break => HI(Plain(OpNull), h) + HI(Instr(OpJump, 0), h + 1)
    case Continue => HI(Plain(OpNull), h) + HI(Instr(OpJump, 0), h + 1)
  }

  function HCV(c: Cmd, h: int): (hs: seq<int>)
    ensures |hs| == LenCV(c)
    decreases c, 1
  {
    if c.Eval? then HT(c.e, h) else HC(c, h)
  }

  function HB(b: seq<Cmd>, h: int): (hs: seq<int>)
    ensures |hs| == LenB(b)
    decreases b, 0
  {
    if b == [] then [] else HC(b[0], h) + HB(b[1..], h)
  }

  function HV(b: seq<Cmd>, h: int): (hs: seq<int>)
    ensures |hs| == LenV(b)
    decreases b, 0
  {
    if b == [] then [] else if |b| == 1 then HCV(b[0], h) else HC(b[0], h) + HV(b[1..], h)
  }

  function HL(b: seq<Cmd>, h: int): (hs: seq<int>)
    ensures |hs| == LenL(b)
    decreases b, 1
  {
    if b == [] then []
    else HI(Plain(OpPop), h + 1) + (HV(b, h) + (if EndsInEval(b) then [] else HI(Plain(OpNull), h)))
  }

  function HF(b: seq<Cmd>): (hs: seq<int>)
    ensures |hs| == |CodeF(b)|
  {
    HV(b, 0) + (if EndsInEval(b) then HI(Plain(OpReturnValue), 1) else if EndsInReturn(b) then []
       else HI(Plain(OpReturn), 0))
  }

  function HP(b: seq<Cmd>): (hs: seq<int>)
    ensures |hs| == |CodeP(b)|
  {
    HB(b, 0) + HI(Plain(OpHalt), 0)
  }

  // ---- slots and returns ----

  predicate SlotOk(v: Var, n: nat) { v.Global? || (v.Local? && v.i < n) }

  /**
   Local slots belong to the function, whose number of slots is n, and are not
   builtins; a main program has no `return` outside functions.
   */
  predicate SlotsT(t: Term, n: nat, main: bool)
    decreases t, 0
  {
    match t
    case Get(v) => v.Builtin? || SlotOk(v, n)
    case Prim(_, args) => SlotsTs(args, n, main)
    case Bump(_, v, _) => SlotOk(v, n)
    case Put(v, e) => SlotOk(v, n) && SlotsT(e, n, main)
    case Cond(c, x, y) => SlotsT(c, n, main) && SlotsB(x, n, main) && SlotsB(y, n, main)
    case Loop(c, body) => SlotsT(c, n, main) && SlotsB(body, n, main)
    case ForLoop(init, until, inc, body) =>
      SlotsB(init, n, main) && (match until case None => true case Some(c) => SlotsT(c, n, main))
      && SlotsB(inc, n, main) && SlotsB(body, n, main)
    case Call(f, args) => SlotsT(f, n, main) && SlotsTs(args, n, main)
    case _ => true
  }

  predicate SlotsTs(ts: seq<Term>, n: nat, main: bool)
    decreases ts, 0
  {
    ts == [] || (SlotsT(ts[0], n, main) && SlotsTs(ts[1..], n, main))
  }

  predicate SlotsC(c: Cmd, n: nat, main: bool)
    decreases c, 0
  {
    match c
    case Define(v, e) => SlotOk(v, n) && SlotsT(e, n, main)
    case Return(e) => !main && SlotsT(e, n, main)
    case Eval(e) => SlotsT(e, n, main)
    case _ => true
  }

  predicate SlotsB(b: seq<Cmd>, n: nat, main: bool)
    decreases b, 0
  {
    b == [] || (SlotsC(b[0], n, main) && SlotsB(b[1..], n, main))
  }

  // ---- pieces of an annotation ----

  /** The annotation from byte p on begins with part. */
  predicate HasAt(hs: seq<int>, p: nat, part: seq<int>) {
    p + |part| <= |hs| && hs[p..p + |part|] == part
  }

  lemma {:induction false} HasCat(hs: seq<int>, p: nat, a: seq<int>, b: seq<int>)
    ensures HasAt(hs, p, a + b) <==> HasAt(hs, p, a) && HasAt(hs, p + |a|, b)
  {
    if p + |a| + |b| <= |hs| {
      var s := hs[p..p + |a| + |b|];
      assert s == hs[p..p + |a|] + hs[p + |a|..p + |a| + |b|];
      assert (a + b)[..|a|] == a && (a + b)[|a|..] == b;
      assert s[..|a|] == hs[p..p + |a|] && s[|a|..] == hs[p + |a|..p + |a| + |b|];
    }
  }

  lemma {:induction false} HasFirst(hs: seq<int>, p: nat, i: Instr, h: int)
    requires HasAt(hs, p, HI(i, h))
    ensures HeightIs(hs, p, h) && (forall q | p < q < p + Size(i) :: HeightIs(hs, q, -1))
  {
    var part := HI(i, h);
    assert forall k | 0 <= k < |part| :: hs[p + k] == part[k];
  }

  /** Where a function's code and its annotation are looked at, and where the enclosing loop is. */
  datatype Site = Site(fn: Compiled, hs: seq<int>, main: bool, brk: nat, cont: nat)

  predicate SiteOk(s: Site) { |s.hs| == |s.fn.code| < LIMIT && s.brk < LIMIT && s.cont < LIMIT }

  /** A `break` or `continue` from height h leaves its null for the loop. */
  predicate LoopAt(s: Site, lp: bool, h: int) {
    lp ==> HeightIs(s.hs, s.brk, h + 1) && HeightIs(s.hs, s.cont, h + 1)
  }

  lemma {:induction false} SpanCat(s: Site, a: nat, b: nat, c: nat)
    requires SiteOk(s) && Span(s.fn, s.hs, s.main, a, b) && Span(s.fn, s.hs, s.main, b, c)
    ensures Span(s.fn, s.hs, s.main, a, c)
  {
    hide WellAt;
  }

  /** The instruction i at p, with what it finds; `next` says that its successors find what it leaves. */
  lemma {:induction false} OneSpan(s: Site, p: nat, i: Instr, h: int)
    requires SiteOk(s) && At(s.fn, p, Encode(i)) && Fits(i) && HasAt(s.hs, p, HI(i, h)) && Takes(i) <= h
    requires match i.op
             case OpReturnValue => !s.main
             case OpReturn => !s.main
             case OpHalt => s.main
             case OpJump => HeightIs(s.hs, i.arg, h)
             case OpJumpNotTrue => HeightIs(s.hs, i.arg, h - 1) && HeightIs(s.hs, p + 3, h - 1)
             case OpGetLocal => i.arg < s.fn.numLocals && HeightIs(s.hs, p + 2, h + 1)
             case OpSetLocal => i.arg < s.fn.numLocals && HeightIs(s.hs, p + 2, h - 1)
             case _ => HeightIs(s.hs, p + Size(i), h - Takes(i) + Leaves(i))
    ensures Span(s.fn, s.hs, s.main, p, p + Size(i)) && HeightIs(s.hs, p, h)
  {
    AtFetch(s.fn, p, i);
    HasFirst(s.hs, p, i, h);
    hide Fetch;
    forall q | p <= q < p + Size(i) ensures WellAt(s.fn, s.hs, s.main, q) {
      if q > p { assert HeightIs(s.hs, q, -1); }
    }
  }

  /** Code and heights together. */
  predicate Here(s: Site, p: nat, code: seq<byte>, part: seq<int>) {
    match s
    case Site(fn, hs, _, _, _) => |code| == |part| && At(fn, p, code) && HasAt(hs, p, part)
  }

  lemma {:induction false} HereCat(s: Site, p: nat, a: seq<byte>, b: seq<byte>, x: seq<int>, y: seq<int>)
    requires Here(s, p, a + b, x + y) && |a| == |x|
    ensures Here(s, p, a, x) && Here(s, p + |a|, b, y)
  {
    hide At, HasAt;
    AtCat(s.fn, p, a, b);
    HasCat(s.hs, p, x, y);
  }

  /** The enclosing loop does not matter for what is where. */
  lemma {:induction false} SameHere(s: Site, s': Site, p: nat, code: seq<byte>, part: seq<int>)
    requires Here(s, p, code, part) && s'.fn == s.fn && s'.hs == s.hs
    ensures Here(s', p, code, part)
  {
    hide At, HasAt;
  }

  /** An instruction in place. */
  lemma {:induction false} InstrHere(s: Site, p: nat, i: Instr, j: Instr, h: int)
    requires Here(s, p, Encode(i), HI(j, h)) && i.op == j.op
    ensures At(s.fn, p, Encode(i)) && HasAt(s.hs, p, HI(i, h)) && HeightIs(s.hs, p, h)
  {
    hide At, Encode;
    HasFirst(s.hs, p, j, h);
  }

  // ---- where pieces start ----

  lemma {:induction false} StartT(t: Term, h: int)
    ensures LenT(t) >= 1 && HT(t, h)[0] == h
    decreases t, 1
  {
    hide HL, HV, HB, LenL, LenV, LenB;
    match t
    case Prim(op, args) =>
      if args == [] {
        assert HTs(args, h) == [];
      } else {
        StartT(args[0], h);
      }
    case Put(_, e) => StartT(e, h);
    case Cond(c, _, _) => StartT(c, h);
    case Call(f, _) => StartT(f, h);
    case _ =>
  }

  lemma {:induction false} StartC(c: Cmd, h: int)
    ensures LenC(c) >= 1 && HC(c, h)[0] == h
  {
    hide LenT, HT;
    match c
    case Define(_, e) => StartT(e, h);
    case Return(e) => StartT(e, h);
    case Eval(e) => StartT(e, h);
    case _ =>
  }

  lemma {:induction false} StartV(b: seq<Cmd>, h: int)
    requires b != []
    ensures LenV(b) >= 1 && HV(b, h)[0] == h
  {
    hide LenT, HT, LenC, HC;
    StartC(b[0], h);
    if b[0].Eval? {
      StartT(b[0].e, h);
    }
  }

  lemma {:induction false} First(hs: seq<int>, p: nat, part: seq<int>, h: int)
    requires HasAt(hs, p, part) && part != [] && part[0] == h
    ensures HeightIs(hs, p, h)
  {
    assert hs[p..p + |part|][0] == h;
  }

  lemma {:induction false} BeginT(s: Site, p: nat, code: seq<byte>, t: Term, h: int)
    requires Here(s, p, code, HT(t, h))
    ensures HeightIs(s.hs, p, h)
  {
    hide HT, LenT;
    StartT(t, h);
    First(s.hs, p, HT(t, h), h);
  }

  lemma {:induction false} BeginTs(s: Site, p: nat, code: seq<byte>, ts: seq<Term>, h: int)
    requires Here(s, p, code, HTs(ts, h)) && HeightIs(s.hs, p + LenTs(ts), h + |ts|)
    ensures HeightIs(s.hs, p, h)
  {
    hide HT, LenT;
    if ts != [] {
      StartT(ts[0], h);
      First(s.hs, p, HTs(ts, h), h);
    }
  }

  lemma {:induction false} BeginB(s: Site, p: nat, code: seq<byte>, b: seq<Cmd>, h: int)
    requires Here(s, p, code, HB(b, h)) && HeightIs(s.hs, p + LenB(b), h)
    ensures HeightIs(s.hs, p, h)
  {
    hide HC, LenC;
    if b != [] {
      StartC(b[0], h);
      First(s.hs, p, HB(b, h), h);
    }
  }

  lemma {:induction false} BeginV(s: Site, p: nat, code: seq<byte>, b: seq<Cmd>, h: int)
    requires Here(s, p, code, HV(b, h)) && b != []
    ensures HeightIs(s.hs, p, h)
  {
    hide HV, LenV;
    StartV(b, h);
    First(s.hs, p, HV(b, h), h);
  }

  lemma {:induction false} BeginL(s: Site, p: nat, code: seq<byte>, b: seq<Cmd>, h: int)
    requires Here(s, p, code, HL(b, h)) && HeightIs(s.hs, p + LenL(b), h + 1)
    ensures HeightIs(s.hs, p, h + 1)
  {
    hide HV, LenV;
    if b != [] {
      First(s.hs, p, HL(b, h), h + 1);
    }
  }

  // ---- compiled code is balanced ----

  lemma {:induction false} SpanT(s: Site, t: Term, p: nat, h: int, lp: bool)
    requires SiteOk(s) && h >= 0 && Here(s, p, CodeT(t, p, s.brk, s.cont), HT(t, h))
    requires HeightIs(s.hs, p + LenT(t), h + 1)
    requires FragT(t, lp) && SlotsT(t, s.fn.numLocals, s.main) && LoopAt(s, lp, h)
    ensures Span(s.fn, s.hs, s.main, p, p + LenT(t))
    decreases t, 2
  {
    hide Here, Encode, HI, CodeTs, CodeV, CodeB, CodeL, HTs, HV, HB, HL, LenTs, LenV, LenB, LenL, FragTs, FragB,
         FragBranch, SlotsTs, SlotsB, Span;
    hide HeightIs, LoopAt, SiteOk;
    match t
    case Prim(_, _) => SpanPrim(s, t, p, h, lp);
    case Bump(_, _, _) => SpanBump(s, t, p, h);
    case Put(_, _) => SpanPut(s, t, p, h, lp);
    case Cond(_, _, _) => SpanCond(s, t, p, h, lp);
    case Loop(_, _) => SpanLoop(s, t, p, h);
    case ForLoop(_, _, _, _) => SpanFor(s, t, p, h);
    case Call(_, _) => SpanCall(s, t, p, h, lp);
    case Const(k, _) => SpanPush(s, Instr(OpConst, k), p, h);
    case Lambda(k, _) => SpanPush(s, Instr(OpConst, k), p, h);
    case Null => SpanPush(s, Plain(OpNull), p, h);
    case Truth(b) => SpanPush(s, Plain(if b then OpTrue else OpFalse), p, h);
    case Get(v) => SpanPush(s, GetOp(v), p, h);
  }

  lemma {:induction false} SpanPush(s: Site, i: Instr, p: nat, h: int)
    requires SiteOk(s) && h >= 0 && Here(s, p, Encode(i), HI(i, h)) && HeightIs(s.hs, p + Size(i), h + 1) && Fits(i)
    requires match i.op
             case OpConst => true case OpNull => true case OpTrue => true case OpFalse => true
             case OpGetGlobal => true case OpGetBuiltin => true
             case OpGetLocal => i.arg < s.fn.numLocals
             case _ => false
    ensures Span(s.fn, s.hs, s.main, p, p + Size(i))
  {
    hide Here, Encode, HI, Span, At;
    InstrHere(s, p, i, i, h);
    OneSpan(s, p, i, h);
  }

  lemma {:induction false} SpanPut(s: Site, t: Term, p: nat, h: int, lp: bool)
    requires t.Put?
    requires SiteOk(s) && h >= 0 && Here(s, p, CodeT(t, p, s.brk, s.cont), HT(t, h))
    requires HeightIs(s.hs, p + LenT(t), h + 1)
    requires FragT(t, lp) && SlotsT(t, s.fn.numLocals, s.main) && LoopAt(s, lp, h)
    ensures Span(s.fn, s.hs, s.main, p, p + LenT(t))
    decreases t, 0
  {
    hide Here, Encode, HI, Span, At;
    var e, w, g := t.value, SetOp(t.v), GetOp(t.v);
    var q := p + LenT(e);
    HereCat(s, p, CodeT(e, p, s.brk, s.cont), Encode(w) + Encode(g), HT(e, h), HI(w, h + 1) + HI(g, h));
    HereCat(s, q, Encode(w), Encode(g), HI(w, h + 1), HI(g, h));
    InstrHere(s, q, w, w, h + 1);
    InstrHere(s, q + Size(w), g, g, h);
    SpanT(s, e, p, h, lp);
    OneSpan(s, q, w, h + 1);
    OneSpan(s, q + Size(w), g, h);
    SpanCat(s, p, q, q + Size(w));
    SpanCat(s, p, q + Size(w), p + LenT(t));
  }

  lemma {:induction false} SpanPrim(s: Site, t: Term, p: nat, h: int, lp: bool)
    requires t.Prim?
    requires SiteOk(s) && h >= 0 && Here(s, p, CodeT(t, p, s.brk, s.cont), HT(t, h))
    requires HeightIs(s.hs, p + LenT(t), h + 1)
    requires FragT(t, lp) && SlotsT(t, s.fn.numLocals, s.main) && LoopAt(s, lp, h)
    ensures Span(s.fn, s.hs, s.main, p, p + LenT(t))
    decreases t, 0
  {
    hide Here, Encode, HI, CodeTs, HTs, LenTs, FragTs, SlotsTs, Span;
    var n, q := |t.args|, p + LenTs(t.args);
    var i := Operator(t.op, n);
    HereCat(s, p, CodeTs(t.args, p, s.brk, s.cont), Encode(i), HTs(t.args, h), HI(i, h + n));
    InstrHere(s, q, i, i, h + n);
    SpanTs(s, t.args, p, h, lp);
    OneSpan(s, q, i, h + n);
    SpanCat(s, p, q, p + LenT(t));
  }

  lemma {:induction false} SpanCall(s: Site, t: Term, p: nat, h: int, lp: bool)
    requires t.Call?
    requires SiteOk(s) && h >= 0 && Here(s, p, CodeT(t, p, s.brk, s.cont), HT(t, h))
    requires HeightIs(s.hs, p + LenT(t), h + 1)
    requires FragT(t, lp) && SlotsT(t, s.fn.numLocals, s.main) && LoopAt(s, lp, h)
    ensures Span(s.fn, s.hs, s.main, p, p + LenT(t))
    decreases t, 0
  {
    hide Here, Encode, HI, CodeTs, HTs, LenTs, FragTs, SlotsTs, Span;
    var n, q := |t.args|, p + LenT(t.callee);
    var r, i := q + LenTs(t.args), Instr(OpCall, n);
    var args, hargs := CodeTs(t.args, q, s.brk, s.cont), HTs(t.args, h + 1);
    HereCat(s, p, CodeT(t.callee, p, s.brk, s.cont), args + Encode(i), HT(t.callee, h), hargs + HI(i, h + 1 + n));
    HereCat(s, q, args, Encode(i), hargs, HI(i, h + 1 + n));
    InstrHere(s, r, i, i, h + 1 + n);
    BeginTs(s, q, args, t.args, h + 1);
    SpanT(s, t.callee, p, h, lp);
    SpanTs(s, t.args, q, h + 1, false);
    OneSpan(s, r, i, h + 1 + n);
    SpanCat(s, p, q, r);
    SpanCat(s, p, r, p + LenT(t));
  }

  lemma {:induction false} SpanBump(s: Site, t: Term, p: nat, h: int)
    requires t.Bump?
    requires SiteOk(s) && h >= 0 && Here(s, p, CodeT(t, p, s.brk, s.cont), HT(t, h))
    requires HeightIs(s.hs, p + LenT(t), h + 1)
    requires FragT(t, false) && SlotsT(t, s.fn.numLocals, s.main)
    ensures Span(s.fn, s.hs, s.main, p, p + LenT(t))
  {
    hide Here, Encode, HI, Span, HeightIs;
    var g, c, a, w := GetOp(t.v), Instr(OpConst, t.k), Plain(t.step), SetOp(t.v);
    var n := Size(g);
    HereFour(s, p, Encode(g), Encode(g), Encode(c), Encode(a), Encode(w),
             HI(g, h), HI(g, h + 1), HI(c, h + 2), HI(a, h + 3), HI(w, h + 2));
    BumpEnds(s, p + 2 * n + 3, a, w, h);
    InstrHere(s, p + 2 * n, c, c, h + 2);
    InstrHere(s, p + n, g, g, h + 1);
    SpanPush(s, g, p, h);
    SpanPush(s, g, p + n, h + 1);
    SpanPush(s, c, p + 2 * n, h + 2);
    SpanFive(s, p, p + n, p + 2 * n, p + 2 * n + 3, p + 2 * n + 4, p + LenT(t));
  }

  /** The addition or subtraction, and the store of its result. */
  lemma {:induction false} BumpEnds(s: Site, p: nat, a: Instr, w: Instr, h: int)
    requires SiteOk(s) && h >= 0 && Here(s, p, Encode(a), HI(a, h + 3)) && Here(s, p + 1, Encode(w), HI(w, h + 2))
    requires (a == Plain(OpAdd) || a == Plain(OpSubtract)) && Fits(w) && HeightIs(s.hs, p + 1 + Size(w), h + 1)
    requires w.op == OpSetGlobal || (w.op == OpSetLocal && w.arg < s.fn.numLocals)
    ensures Span(s.fn, s.hs, s.main, p, p + 1) && Span(s.fn, s.hs, s.main, p + 1, p + 1 + Size(w))
    ensures HeightIs(s.hs, p, h + 3)
  {
    hide Here, Encode, HI, Span;
    InstrHere(s, p, a, a, h + 3);
    InstrHere(s, p + 1, w, w, h + 2);
    OneSpan(s, p, a, h + 3);
    OneSpan(s, p + 1, w, h + 2);
  }

  lemma {:induction false} SpanTs(s: Site, ts: seq<Term>, p: nat, h: int, lp: bool)
    requires SiteOk(s) && h >= 0 && Here(s, p, CodeTs(ts, p, s.brk, s.cont), HTs(ts, h))
    requires HeightIs(s.hs, p + LenTs(ts), h + |ts|)
    requires FragTs(ts, lp) && SlotsTs(ts, s.fn.numLocals, s.main) && LoopAt(s, lp, h)
    ensures Span(s.fn, s.hs, s.main, p, p + LenTs(ts))
    decreases ts, 0
  {
    hide Here, CodeT, HT, LenT, FragT, SlotsT;
    if ts != [] {
      var q := p + LenT(ts[0]);
      HereCat(s, p, CodeT(ts[0], p, s.brk, s.cont), CodeTs(ts[1..], q, s.brk, s.cont), HT(ts[0], h),
              HTs(ts[1..], h + 1));
      BeginTs(s, q, CodeTs(ts[1..], q, s.brk, s.cont), ts[1..], h + 1);
      SpanT(s, ts[0], p, h, lp);
      SpanTs(s, ts[1..], q, h + 1, false);
      SpanCat(s, p, q, p + LenTs(ts));
    }
  }

  lemma {:induction false} SpanCond(s: Site, t: Term, p: nat, h: int, lp: bool)
    requires t.Cond?
    requires SiteOk(s) && h >= 0 && Here(s, p, CodeT(t, p, s.brk, s.cont), HT(t, h))
    requires HeightIs(s.hs, p + LenT(t), h + 1)
    requires FragT(t, lp) && SlotsT(t, s.fn.numLocals, s.main) && LoopAt(s, lp, h)
    ensures Span(s.fn, s.hs, s.main, p, p + LenT(t))
    decreases t, 0
  {
    hide Here, Encode, HI, CodeV, HV, LenV, FragB, SlotsB, Span, At, LoopAt, HeightIs;
    var conseq := p + LenT(t.test) + 3;
    var alt := conseq + LenV(t.conseq) + 3;
    var test, over := Instr(OpJumpNotTrue, alt), Instr(OpJump, alt + LenV(t.alt));
    var test0, over0 := Instr(OpJumpNotTrue, 0), Instr(OpJump, 0);
    var x, y := CodeV(t.conseq, conseq, s.brk, s.cont), CodeV(t.alt, alt, s.brk, s.cont);
    HereFour(s, p, CodeT(t.test, p, s.brk, s.cont), Encode(test), x, Encode(over), y,
             HT(t.test, h), HI(test0, h + 1), HV(t.conseq, h), HI(over0, h + 1), HV(t.alt, h));
    InstrHere(s, conseq - 3, test, test0, h + 1);
    InstrHere(s, alt - 3, over, over0, h + 1);
    InCode(s, p, LenT(t), h + 1);
    BeginV(s, conseq, x, t.conseq, h);
    BeginV(s, alt, y, t.alt, h);
    SpanT(s, t.test, p, h, lp);
    OneSpan(s, conseq - 3, test, h + 1);
    SpanV(s, t.conseq, conseq, h, lp);
    OneSpan(s, alt - 3, over, h + 1);
    SpanV(s, t.alt, alt, h, lp);
    SpanCat(s, p, conseq - 3, conseq);
    SpanCat(s, p, conseq, alt - 3);
    SpanCat(s, p, alt - 3, alt);
    SpanCat(s, p, alt, p + LenT(t));
  }

  /** Targets inside the code fit their operands. */
  lemma {:induction false} InCode(s: Site, p: nat, n: nat, h: int)
    requires SiteOk(s) && HeightIs(s.hs, p + n, h)
    ensures p + n < LIMIT
  {
  }

  lemma {:induction false} SpanLoop(s: Site, t: Term, p: nat, h: int)
    requires t.Loop?
    requires SiteOk(s) && h >= 0 && Here(s, p, CodeT(t, p, s.brk, s.cont), HT(t, h))
    requires HeightIs(s.hs, p + LenT(t), h + 1)
    requires FragT(t, false) && SlotsT(t, s.fn.numLocals, s.main)
    ensures Span(s.fn, s.hs, s.main, p, p + LenT(t))
    decreases t, 0
  {
    hide Here, Encode, HI, CodeT, HT, CodeL, HL, LenL, FragB, SlotsB, Span, At, HeightIs;
    var before := p + 1;
    var start := before + LenT(t.test) + 3;
    var end := start + LenL(t.body);
    var after := end + 3;
    var a, l := CodeT(t.test, before, s.brk, s.cont), CodeL(t.body, start, after, before);
    var s' := s.(brk := after, cont := before);
    WhileHere(s, t.test, t.body, p, h);
    InCode(s, p, LenT(t), h + 1);
    BeginT(s, before, a, t.test, h + 1);
    BeginL(s, start, l, t.body, h);
    WhileSpans(s, p, start, end, h);
    SpanT(s, t.test, before, h + 1, false);
    SameHere(s, s', start, l, HL(t.body, h));
    SpanL(s', t.body, start, h);
    SpanFive(s, p, before, start - 3, start, end, after);
  }

  /** Where the parts of a `while` loop are. */
  lemma {:induction false} WhileHere(s: Site, c: Term, b: seq<Cmd>, p: nat, h: int)
    requires Here(s, p, CodeT(Loop(c, b), p, s.brk, s.cont), HT(Loop(c, b), h))
    ensures var start := p + 1 + LenT(c) + 3;
            var end := start + LenL(b);
            var first, test, back := Plain(OpNull), Instr(OpJumpNotTrue, end + 3), Instr(OpJump, p + 1);
            && At(s.fn, p, Encode(first)) && HasAt(s.hs, p, HI(first, h)) && HeightIs(s.hs, p, h)
            && Here(s, p + 1, CodeT(c, p + 1, s.brk, s.cont), HT(c, h + 1))
            && At(s.fn, start - 3, Encode(test)) && HasAt(s.hs, start - 3, HI(test, h + 2))
            && HeightIs(s.hs, start - 3, h + 2)
            && Here(s, start, CodeL(b, start, end + 3, p + 1), HL(b, h))
            && At(s.fn, end, Encode(back)) && HasAt(s.hs, end, HI(back, h + 1)) && HeightIs(s.hs, end, h + 1)
  {
    hide Here, Encode, HI, CodeL, HL, LenL, At, HeightIs, HasAt;
    var start := p + 1 + LenT(c) + 3;
    var end := start + LenL(b);
    var first, test, back := Plain(OpNull), Instr(OpJumpNotTrue, end + 3), Instr(OpJump, p + 1);
    var test0, back0 := Instr(OpJumpNotTrue, 0), Instr(OpJump, 0);
    HereFour(s, p, Encode(first), CodeT(c, p + 1, s.brk, s.cont), Encode(test), CodeL(b, start, end + 3, p + 1),
             Encode(back), HI(first, h), HT(c, h + 1), HI(test0, h + 2), HL(b, h), HI(back0, h + 1));
    InstrHere(s, p, first, first, h);
    InstrHere(s, start - 3, test, test0, h + 2);
    InstrHere(s, end, back, back0, h + 1);
  }

  /** The instructions of the loop itself, around its test and its body. */
  lemma {:induction false} WhileSpans(s: Site, p: nat, start: nat, end: nat, h: int)
    requires SiteOk(s) && h >= 0 && p + 4 <= start && end + 3 < LIMIT && p + 1 < LIMIT
    requires At(s.fn, p, Encode(Plain(OpNull))) && HasAt(s.hs, p, HI(Plain(OpNull), h))
    requires var i := Instr(OpJumpNotTrue, end + 3);
             At(s.fn, start - 3, Encode(i)) && HasAt(s.hs, start - 3, HI(i, h + 2))
    requires var i := Instr(OpJump, p + 1); At(s.fn, end, Encode(i)) && HasAt(s.hs, end, HI(i, h + 1))
    requires HeightIs(s.hs, p + 1, h + 1) && HeightIs(s.hs, start, h + 1) && HeightIs(s.hs, end + 3, h + 1)
    ensures Span(s.fn, s.hs, s.main, p, p + 1) && Span(s.fn, s.hs, s.main, start - 3, start)
    ensures Span(s.fn, s.hs, s.main, end, end + 3)
  {
    hide Encode, HI, Span, At, HasAt, HeightIs;
    OneSpan(s, p, Plain(OpNull), h);
    OneSpan(s, start - 3, Instr(OpJumpNotTrue, end + 3), h + 2);
    OneSpan(s, end, Instr(OpJump, p + 1), h + 1);
  }

  lemma {:induction false} SpanFive(s: Site, a: nat, b: nat, c: nat, d: nat, e: nat, f: nat)
    requires SiteOk(s) && a <= b <= c <= d <= e <= f
    requires Span(s.fn, s.hs, s.main, a, b) && Span(s.fn, s.hs, s.main, b, c) && Span(s.fn, s.hs, s.main, c, d)
    requires Span(s.fn, s.hs, s.main, d, e) && Span(s.fn, s.hs, s.main, e, f)
    ensures Span(s.fn, s.hs, s.main, a, f)
  {
    hide Span;
    SpanCat(s, a, b, c);
    SpanCat(s, a, c, d);
    SpanCat(s, a, d, e);
    SpanCat(s, a, e, f);
  }

  lemma {:induction false} HereFour(s: Site, p: nat, x: seq<byte>, a: seq<byte>, b: seq<byte>, l: seq<byte>,
                                    y: seq<byte>, hx: seq<int>, ha: seq<int>, hb: seq<int>, hl: seq<int>, hy: seq<int>)
    requires Here(s, p, x + (a + (b + (l + y))), hx + (ha + (hb + (hl + hy))))
    requires |x| == |hx| && |a| == |ha| && |b| == |hb| && |l| == |hl|
    ensures Here(s, p, x, hx) && Here(s, p + |x|, a, ha) && Here(s, p + |x| + |a|, b, hb)
    ensures Here(s, p + |x| + |a| + |b|, l, hl) && Here(s, p + |x| + |a| + |b| + |l|, y, hy)
  {
    hide Here;
    HereCat(s, p, x, a + (b + (l + y)), hx, ha + (hb + (hl + hy)));
    HereCat(s, p + |x|, a, b + (l + y), ha, hb + (hl + hy));
    HereCat(s, p + |x| + |a|, b, l + y, hb, hl + hy);
    HereCat(s, p + |x| + |a| + |b|, l, y, hl, hy);
  }

  lemma {:induction false} HereFive(s: Site, p: nat, x: seq<byte>, a: seq<byte>, b: seq<byte>, l: seq<byte>,
                                    d: seq<byte>, y: seq<byte>,
                                    hx: seq<int>, ha: seq<int>, hb: seq<int>, hl: seq<int>, hd: seq<int>, hy: seq<int>)
    requires Here(s, p, x + (a + (b + (l + (d + y)))), hx + (ha + (hb + (hl + (hd + hy)))))
    requires |x| == |hx| && |a| == |ha| && |b| == |hb| && |l| == |hl| && |d| == |hd|
    ensures Here(s, p, x, hx) && Here(s, p + |x|, a, ha) && Here(s, p + |x| + |a|, b, hb)
    ensures Here(s, p + |x| + |a| + |b|, l, hl)
    ensures Here(s, p + |x| + |a| + |b| + |l|, d, hd) && Here(s, p + |x| + |a| + |b| + |l| + |d|, y, hy)
  {
    hide Here;
    HereCat(s, p, x, a + (b + (l + (d + y))), hx, ha + (hb + (hl + (hd + hy))));
    HereFour(s, p + |x|, a, b, l, d, y, ha, hb, hl, hd, hy);
  }

  /** Where the parts of a `for` loop are. */
  lemma {:induction false} ForHere(s: Site, init: seq<Cmd>, until: Option<Term>, inc: seq<Cmd>, body: seq<Cmd>, p: nat,
                                   h: int)
    requires var t := ForLoop(init, until, inc, body); Here(s, p, CodeT(t, p, s.brk, s.cont), HT(t, h))
    ensures ForPlaced(s, init, until, inc, body, p, h)
  {
    hide Here, Encode, HI, CodeB, HB, LenB, CodeL, HL, LenL, At;
    var before := p + 1 + LenB(init);
    var start := before + (match until case None => 0 case Some(c) => LenT(c) + 3);
    var next := start + LenL(body);
    var end := next + LenB(inc);
    var after := end + 3;
    var first, back, back0 := Plain(OpNull), Instr(OpJump, before), Instr(OpJump, 0);
    var a, ha := CodeB(init, p + 1, s.brk, s.cont), HB(init, h + 1);
    var b := match until case None => []
             case Some(c) => CodeT(c, before, s.brk, s.cont) + Encode(Instr(OpJumpNotTrue, after));
    var hb := match until case None => [] case Some(c) => HT(c, h + 1) + HI(Instr(OpJumpNotTrue, 0), h + 2);
    var l, hl, d, hd := CodeL(body, start, after, next), HL(body, h), CodeB(inc, next, s.brk, s.cont), HB(inc, h + 1);
    HereFive(s, p, Encode(first), a, b, l, d, Encode(back), HI(first, h), ha, hb, hl, hd, HI(back0, h + 1));
  }

  predicate ForPlaced(s: Site, init: seq<Cmd>, until: Option<Term>, inc: seq<Cmd>, body: seq<Cmd>, p: nat, h: int) {
    var before := p + 1 + LenB(init);
    var start := before + (match until case None => 0 case Some(c) => LenT(c) + 3);
    var next := start + LenL(body);
    var end := next + LenB(inc);
    var after := end + 3;
    var first, back, back0 := Plain(OpNull), Instr(OpJump, before), Instr(OpJump, 0);
    var a, ha := CodeB(init, p + 1, s.brk, s.cont), HB(init, h + 1);
    var b := match until case None => []
             case Some(c) => CodeT(c, before, s.brk, s.cont) + Encode(Instr(OpJumpNotTrue, after));
    var hb := match until case None => [] case Some(c) => HT(c, h + 1) + HI(Instr(OpJumpNotTrue, 0), h + 2);
    var l, hl, d, hd := CodeL(body, start, after, next), HL(body, h), CodeB(inc, next, s.brk, s.cont), HB(inc, h + 1);
    && Here(s, p, Encode(first), HI(first, h)) && Here(s, p + 1, a, ha) && Here(s, before, b, hb)
    && Here(s, start, l, hl) && Here(s, next, d, hd) && Here(s, end, Encode(back), HI(back0, h + 1))
  }

  lemma {:induction false} SpanFor(s: Site, t: Term, p: nat, h: int)
    requires t.ForLoop?
    requires SiteOk(s) && h >= 0 && Here(s, p, CodeT(t, p, s.brk, s.cont), HT(t, h))
    requires HeightIs(s.hs, p + LenT(t), h + 1)
    requires FragT(t, false) && SlotsT(t, s.fn.numLocals, s.main)
    ensures Span(s.fn, s.hs, s.main, p, p + LenT(t))
    decreases t, 1
  {
    hide Here, Encode, HI, CodeT, CodeB, HT, HB, LenB, CodeL, HL, LenL, FragB, SlotsB, Span, At, HeightIs;
    var ForLoop(init, until, inc, body) := t;
    ForHere(s, init, until, inc, body, p, h);
    InCode(s, p, LenT(t), h + 1);
    SpanForParts(s, t, init, until, inc, body, p, h);
  }

  lemma {:induction false} SpanForParts(s: Site, t: Term, init: seq<Cmd>, until: Option<Term>, inc: seq<Cmd>,
                                        body: seq<Cmd>, p: nat, h: int)
    requires t == ForLoop(init, until, inc, body) && SiteOk(s) && h >= 0 && ForPlaced(s, init, until, inc, body, p, h)
    requires FragB(init, false) && SlotsB(init, s.fn.numLocals, s.main)
    requires until.Some? ==> FragT(until.value, false) && SlotsT(until.value, s.fn.numLocals, s.main)
    requires FragB(body, true) && SlotsB(body, s.fn.numLocals, s.main)
    requires FragB(inc, false) && SlotsB(inc, s.fn.numLocals, s.main)
    requires p + ForLen(init, until, inc, body) < LIMIT
    requires HeightIs(s.hs, p + ForLen(init, until, inc, body), h + 1)
    ensures Span(s.fn, s.hs, s.main, p, p + ForLen(init, until, inc, body))
    decreases t, 0
  {
    hide Here, Encode, HI, CodeT, CodeB, HT, HB, LenT, LenB, CodeL, HL, LenL, FragT, SlotsT, FragB, SlotsB, Span, At,
         HeightIs;
    var before := p + 1 + LenB(init);
    var start := before + (match until case None => 0 case Some(c) => LenT(c) + 3);
    var next := start + LenL(body);
    var end := next + LenB(inc);
    var after := end + 3;
    var first, back, back0 := Plain(OpNull), Instr(OpJump, before), Instr(OpJump, 0);
    var a, ha := CodeB(init, p + 1, s.brk, s.cont), HB(init, h + 1);
    var b := match until case None => []
             case Some(c) => CodeT(c, before, s.brk, s.cont) + Encode(Instr(OpJumpNotTrue, after));
    var hb := match until case None => [] case Some(c) => HT(c, h + 1) + HI(Instr(OpJumpNotTrue, 0), h + 2);
    var l, hl, d, hd := CodeL(body, start, after, next), HL(body, h), CodeB(inc, next, s.brk, s.cont), HB(inc, h + 1);
    InstrHere(s, p, first, first, h);
    InstrHere(s, end, back, back0, h + 1);
    BeginB(s, next, d, inc, h + 1);
    BeginL(s, start, l, body, h);
    SpanTest(s, until, before, after, h);
    BeginB(s, p + 1, a, init, h + 1);
    ForSpans(s, p, end, before, h);
    SpanB(s, init, p + 1, h + 1, false);
    var s' := s.(brk := after, cont := next);
    SameHere(s, s', start, l, hl);
    SpanL(s', body, start, h);
    SpanB(s, inc, next, h + 1, false);
    SpanSix(s, p, p + 1, before, start, next, end, after);
  }

  function ForLen(init: seq<Cmd>, until: Option<Term>, inc: seq<Cmd>, body: seq<Cmd>): nat {
    1 + LenB(init) + (match until case None => 0 case Some(c) => LenT(c) + 3) + LenL(body) + LenB(inc) + 3
  }

  lemma {:induction false} ForSpans(s: Site, p: nat, end: nat, before: nat, h: int)
    requires SiteOk(s) && h >= 0 && before < LIMIT
    requires At(s.fn, p, Encode(Plain(OpNull))) && HasAt(s.hs, p, HI(Plain(OpNull), h))
    requires var i := Instr(OpJump, before); At(s.fn, end, Encode(i)) && HasAt(s.hs, end, HI(i, h + 1))
    requires HeightIs(s.hs, p + 1, h + 1) && HeightIs(s.hs, before, h + 1)
    ensures Span(s.fn, s.hs, s.main, p, p + 1) && Span(s.fn, s.hs, s.main, end, end + 3)
  {
    hide Encode, HI, Span, At, HasAt, HeightIs;
    OneSpan(s, p, Plain(OpNull), h);
    OneSpan(s, end, Instr(OpJump, before), h + 1);
  }

  lemma {:induction false} SpanSix(s: Site, a: nat, b: nat, c: nat, d: nat, e: nat, f: nat, g: nat)
    requires SiteOk(s) && a <= b <= c <= d <= e <= f <= g
    requires Span(s.fn, s.hs, s.main, a, b) && Span(s.fn, s.hs, s.main, b, c) && Span(s.fn, s.hs, s.main, c, d)
    requires Span(s.fn, s.hs, s.main, d, e) && Span(s.fn, s.hs, s.main, e, f) && Span(s.fn, s.hs, s.main, f, g)
    ensures Span(s.fn, s.hs, s.main, a, g)
  {
    hide Span;
    SpanFive(s, a, b, c, d, e, f);
    SpanCat(s, a, f, g);
  }

  lemma {:induction false} SpanTest(s: Site, until: Option<Term>, before: nat, after: nat, h: int)
    requires SiteOk(s) && h >= 0 && after < LIMIT && HeightIs(s.hs, after, h + 1)
    requires var b := match until case None => []
             case Some(c) => CodeT(c, before, s.brk, s.cont) + Encode(Instr(OpJumpNotTrue, after));
             var hb := match until case None => [] case Some(c) => HT(c, h + 1) + HI(Instr(OpJumpNotTrue, 0), h + 2);
             Here(s, before, b, hb)
    requires var start := before + (match until case None => 0 case Some(c) => LenT(c) + 3); HeightIs(s.hs, start,
             h + 1)
    requires until.Some? ==> FragT(until.value, false) && SlotsT(until.value, s.fn.numLocals, s.main)
    ensures Span(s.fn, s.hs, s.main, before, before + (match until case None => 0 case Some(c) => LenT(c) + 3))
    ensures HeightIs(s.hs, before, h + 1)
    decreases until, 0
  {
    hide Here, Encode, HI, CodeT, HT, LenT, FragT, SlotsT, At;
    if until.Some? {
      var c, test, test0 := until.value, Instr(OpJumpNotTrue, after), Instr(OpJumpNotTrue, 0);
      var q := before + LenT(c);
      HereCat(s, before, CodeT(c, before, s.brk, s.cont), Encode(test), HT(c, h + 1), HI(test0, h + 2));
      InstrHere(s, q, test, test0, h + 2);
      BeginT(s, before, CodeT(c, before, s.brk, s.cont), c, h + 1);
      SpanT(s, c, before, h + 1, false);
      OneSpan(s, q, test, h + 2);
      SpanCat(s, before, q, q + 3);
    }
  }

  lemma {:induction false} SpanC(s: Site, c: Cmd, p: nat, h: int, lp: bool)
    requires SiteOk(s) && h >= 0 && Here(s, p, CodeC(c, p, s.brk, s.cont), HC(c, h))
    requires c.Define? || c.Eval? ==> HeightIs(s.hs, p + LenC(c), h)
    requires FragC(c, lp) && SlotsC(c, s.fn.numLocals, s.main) && LoopAt(s, lp, h)
    ensures Span(s.fn, s.hs, s.main, p, p + LenC(c))
    decreases c, 0
  {
    hide Here, Encode, HI, CodeT, HT, LenT, FragT, SlotsT, Span, At;
    match c
    case Define(v, e) => SpanEnd(s, e, SetOp(v), p, h, lp);
    case Return(e) => SpanEnd(s, e, Plain(OpReturnValue), p, h, lp);
    case Eval(e) => SpanEnd(s, e, Plain(OpPop), p, h, lp);
    case Break => SpanJump(s, s.brk, p, h);
    case Continue => SpanJump(s, s.cont, p, h);
  }

  lemma {:induction false} SpanEnd(s: Site, e: Term, i: Instr, p: nat, h: int, lp: bool)
    requires SiteOk(s) && h >= 0 && Here(s, p, CodeT(e, p, s.brk, s.cont) + Encode(i), HT(e, h) + HI(i, h + 1))
    requires FragT(e, lp) && SlotsT(e, s.fn.numLocals, s.main) && LoopAt(s, lp, h) && Fits(i)
    requires match i.op
             case OpReturnValue => !s.main
             case OpPop => HeightIs(s.hs, p + LenT(e) + Size(i), h)
             case OpSetGlobal => HeightIs(s.hs, p + LenT(e) + Size(i), h)
             case OpSetLocal => i.arg < s.fn.numLocals && HeightIs(s.hs, p + LenT(e) + Size(i), h)
             case _ => false
    ensures Span(s.fn, s.hs, s.main, p, p + LenT(e) + Size(i))
    decreases e, 3
  {
    hide Here, Encode, HI, CodeT, HT, LenT, FragT, SlotsT, At;
    var q := p + LenT(e);
    HereCat(s, p, CodeT(e, p, s.brk, s.cont), Encode(i), HT(e, h), HI(i, h + 1));
    InstrHere(s, q, i, i, h + 1);
    SpanT(s, e, p, h, lp);
    OneSpan(s, q, i, h + 1);
    SpanCat(s, p, q, q + Size(i));
  }

  lemma {:induction false} SpanJump(s: Site, target: nat, p: nat, h: int)
    requires SiteOk(s) && h >= 0 && target < LIMIT && HeightIs(s.hs, target, h + 1)
    requires Here(s, p, Encode(Plain(OpNull)) + Encode(Instr(OpJump, target)),
             HI(Plain(OpNull), h) + HI(Instr(OpJump, 0), h + 1))
    ensures Span(s.fn, s.hs, s.main, p, p + 4)
  {
    hide Here, Encode, HI, At;
    HereCat(s, p, Encode(Plain(OpNull)), Encode(Instr(OpJump, target)), HI(Plain(OpNull), h),
            HI(Instr(OpJump, 0), h + 1));
    InstrHere(s, p, Plain(OpNull), Plain(OpNull), h);
    InstrHere(s, p + 1, Instr(OpJump, target), Instr(OpJump, 0), h + 1);
    OneSpan(s, p, Plain(OpNull), h);
    OneSpan(s, p + 1, Instr(OpJump, target), h + 1);
    SpanCat(s, p, p + 1, p + 4);
  }

  lemma {:induction false} SpanB(s: Site, b: seq<Cmd>, p: nat, h: int, lp: bool)
    requires SiteOk(s) && h >= 0 && Here(s, p, CodeB(b, p, s.brk, s.cont), HB(b, h)) && HeightIs(s.hs, p + LenB(b), h)
    requires FragB(b, lp) && SlotsB(b, s.fn.numLocals, s.main) && LoopAt(s, lp, h)
    ensures Span(s.fn, s.hs, s.main, p, p + LenB(b))
    decreases b, 0
  {
    hide Here, CodeC, HC, LenC, FragC, SlotsC;
    if b != [] {
      var q := p + LenC(b[0]);
      HereCat(s, p, CodeC(b[0], p, s.brk, s.cont), CodeB(b[1..], q, s.brk, s.cont), HC(b[0], h), HB(b[1..], h));
      BeginB(s, q, CodeB(b[1..], q, s.brk, s.cont), b[1..], h);
      SpanC(s, b[0], p, h, lp);
      SpanB(s, b[1..], q, h, lp);
      SpanCat(s, p, q, p + LenB(b));
    }
  }

  lemma {:induction false} SpanV(s: Site, b: seq<Cmd>, p: nat, h: int, lp: bool)
    requires SiteOk(s) && h >= 0 && Here(s, p, CodeV(b, p, s.brk, s.cont), HV(b, h)) && b != []
    requires EndsInEval(b) ==> HeightIs(s.hs, p + LenV(b), h + 1)
    requires b[|b| - 1].Define? ==> HeightIs(s.hs, p + LenV(b), h)
    requires FragB(b, lp) && SlotsB(b, s.fn.numLocals, s.main) && LoopAt(s, lp, h)
    ensures Span(s.fn, s.hs, s.main, p, p + LenV(b))
    decreases b, 0
  {
    hide Here, CodeC, HC, LenC, CodeT, HT, LenT, FragC, SlotsC;
    if |b| == 1 {
      SpanCV(s, b[0], p, h, lp);
    } else {
      var q := p + LenC(b[0]);
      HereCat(s, p, CodeC(b[0], p, s.brk, s.cont), CodeV(b[1..], q, s.brk, s.cont), HC(b[0], h), HV(b[1..], h));
      BeginV(s, q, CodeV(b[1..], q, s.brk, s.cont), b[1..], h);
      SpanC(s, b[0], p, h, lp);
      SpanV(s, b[1..], q, h, lp);
      SpanCat(s, p, q, p + LenV(b));
    }
  }

  lemma {:induction false} SpanCV(s: Site, c: Cmd, p: nat, h: int, lp: bool)
    requires SiteOk(s) && h >= 0 && Here(s, p, CodeCV(c, p, s.brk, s.cont), HCV(c, h))
    requires c.Eval? ==> HeightIs(s.hs, p + LenCV(c), h + 1)
    requires c.Define? ==> HeightIs(s.hs, p + LenCV(c), h)
    requires FragC(c, lp) && SlotsC(c, s.fn.numLocals, s.main) && LoopAt(s, lp, h)
    ensures Span(s.fn, s.hs, s.main, p, p + LenCV(c))
    decreases c, 1
  {
    hide Here, CodeT, HT, LenT, FragT, SlotsT;
    if c.Eval? {
      SpanT(s, c.e, p, h, lp);
    } else {
      SpanC(s, c, p, h, lp);
    }
  }

  lemma {:induction false} SpanL(s: Site, b: seq<Cmd>, p: nat, h: int)
    requires SiteOk(s) && h >= 0 && Here(s, p, CodeL(b, p, s.brk, s.cont), HL(b, h))
    requires HeightIs(s.hs, p + LenL(b), h + 1)
    requires FragB(b, true) && SlotsB(b, s.fn.numLocals, s.main) && LoopAt(s, true, h)
    ensures Span(s.fn, s.hs, s.main, p, p + LenL(b))
    decreases b, 1
  {
    hide Here, Encode, HI, CodeV, HV, LenV, FragB, SlotsB, At;
    if b != [] {
      var pop, none := Plain(OpPop), Plain(OpNull);
      var last, hlast := if EndsInEval(b) then [] else Encode(none), if EndsInEval(b) then [] else HI(none, h);
      var v, hv, q := CodeV(b, p + 1, s.brk, s.cont), HV(b, h), p + 1 + LenV(b);
      HereCat(s, p, Encode(pop), v + last, HI(pop, h + 1), hv + hlast);
      HereCat(s, p + 1, v, last, hv, hlast);
      InstrHere(s, p, pop, pop, h + 1);
      BeginV(s, p + 1, v, b, h);
      OneSpan(s, p, pop, h + 1);
      if !EndsInEval(b) {
        InstrHere(s, q, none, none, h);
        OneSpan(s, q, none, h);
      }
      SpanV(s, b, p + 1, h, true);
      SpanCat(s, p, p + 1, q);
      SpanCat(s, p, q, p + LenL(b));
    }
  }

  // ---- whole functions and programs ----

  predicate FlatF(f: Fun) {
    FragF(f) && |CodeF(f.body)| <= CODE_MAX && SlotsB(f.body, f.numLocals, false)
  }

  lemma {:induction false} HereWhole(s: Site)
    requires |s.hs| == |s.fn.code|
    ensures Here(s, 0, s.fn.code, s.hs)
  {
    assert s.hs[0..|s.hs|] == s.hs && s.fn.code[0..|s.fn.code|] == s.fn.code;
  }

  /**
   A compiled function has one stack height at each instruction, jumps to its own instructions,
   and ends in a return.
   */
  lemma {:induction false} FunctionBalanced(f: Fun)
    requires FlatF(f)
    ensures Balanced(Lower(f), HF(f.body), false)
  {
    hide Here, CodeV, HV, LenV, FragB, SlotsB, At, Span, Encode, HI;
    var b, fn := f.body, Lower(f);
    var s := Site(fn, HF(b), false, JUMP_PLACEHOLDER_BREAK, JUMP_PLACEHOLDER_CONTINUE);
    var code, hs := CodeV(b, 0, s.brk, s.cont), HV(b, 0);
    var i := Plain(if EndsInEval(b) then OpReturnValue else OpReturn);
    var last, hlast := if EndsInReturn(b) then [] else Encode(i), if EndsInReturn(b) then []
      else HI(i, if EndsInEval(b) then 1 else 0);
    HereWhole(s);
    HereCat(s, 0, code, last, hs, hlast);
    if !EndsInReturn(b) {
      var h := if EndsInEval(b) then 1 else 0;
      InstrHere(s, LenV(b), i, i, h);
      OneSpan(s, LenV(b), i, h);
    }
    if b != [] {
      BeginV(s, 0, code, b, 0);
      SpanV(s, b, 0, 0, false);
    } else {
      NothingYet(s);
    }
    WholeSpan(s, LenV(b), |fn.code|);
  }

  lemma {:induction false} NothingYet(s: Site)
    requires |s.hs| == |s.fn.code|
    ensures Span(s.fn, s.hs, s.main, 0, 0) && LenV([]) == 0
  {
  }

  lemma {:induction false} WholeSpan(s: Site, m: nat, n: nat)
    requires SiteOk(s) && Span(s.fn, s.hs, s.main, 0, m) && (m < n ==> Span(s.fn, s.hs, s.main, m, n))
    requires n <= |s.fn.code|
    ensures m >= n || Span(s.fn, s.hs, s.main, 0, n)
    ensures m == n ==> Span(s.fn, s.hs, s.main, 0, n)
  {
    if m < n {
      SpanCat(s, 0, m, n);
    }
  }

  /** A compiled program has one stack height at each instruction, none where it halts. */
  lemma {:induction false} ProgramBalanced(prog: seq<Cmd>)
    requires FragProgram(prog) && SlotsB(prog, 0, true)
    ensures Balanced(Compiled(CodeP(prog), 0), HP(prog), true)
  {
    hide Here, CodeB, HB, LenB, FragB, SlotsB, At, Span, Encode, HI;
    var s := Site(Compiled(CodeP(prog), 0), HP(prog), true, JUMP_PLACEHOLDER_BREAK, JUMP_PLACEHOLDER_CONTINUE);
    var code, i := CodeB(prog, 0, s.brk, s.cont), Plain(OpHalt);
    HereWhole(s);
    HereCat(s, 0, code, Encode(i), HB(prog, 0), HI(i, 0));
    InstrHere(s, LenB(prog), i, i, 0);
    BeginB(s, 0, code, prog, 0);
    OneSpan(s, LenB(prog), i, 0);
    SpanB(s, prog, 0, 0, false);
    SpanCat(s, 0, LenB(prog), LenB(prog) + 1);
  }

  // ---- jump targets ----

  /**
   Every jump of balanced code goes to the start of an instruction of the same
   function; none is left with a placeholder for its target.
   */
  lemma {:induction false} JumpsLand(fn: Compiled, hs: seq<int>, main: bool, p: nat)
    requires Balanced(fn, hs, main) && p < |fn.code| <= CODE_MAX && hs[p] >= 0
    ensures Fetch(fn.code, p).Some?
    ensures var i := Fetch(fn.code, p).value;
            i.op == OpJump || i.op == OpJumpNotTrue ==>
              && i.arg < |fn.code| && hs[i.arg] >= 0
              && i.arg != JUMP_PLACEHOLDER_BREAK && i.arg != JUMP_PLACEHOLDER_CONTINUE
  {
    assert WellAt(fn, hs, main, p);
  }
}
