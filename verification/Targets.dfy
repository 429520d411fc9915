/**
 Jump targets: in finished code every jump, reachable or not, goes to the start
 of an instruction, unless a `break` or `continue` stands outside all loops.
 */
module JumpTargets {
  import opened Wrappers
  import opened Opcodes
  import opened Core
  import opened Codegen
  import opened Patching
  import opened Semantics
  import opened Machine
  import opened Naturality
  import opened Simulation
  import opened Elaboration
  import opened Emission
  import opened Compilation
  import opened Fragment

  // ---- instruction boundaries ----

  /** A walk over the code by whole instructions comes to byte p, and there is more code there. */
  predicate Boundary(code: seq<byte>, p: nat)
    decreases p
  {
    p <= |code|
    && (p == 0
        || match Fetch(code, 0)
           case None => false
           case Some(i) => Size(i) <= p && Boundary(code[Size(i)..], p - Size(i)))
  }

  lemma {:induction false} FetchShift(code: seq<byte>, n: nat, p: nat)
    requires n <= |code|
    ensures Fetch(code[n..], p) == Fetch(code, n + p)
  {
  }

  /** The walk goes on from a boundary by the instruction there. */
  lemma {:induction false} BoundaryNext(code: seq<byte>, p: nat, q: nat)
    requires Boundary(code, p) && Fetch(code, p).Some? && p < q <= p + Size(Fetch(code, p).value)
    ensures Boundary(code, q) <==> q == p + Size(Fetch(code, p).value)
    decreases p
  {
    hide Fetch, Size;
    if p > 0 {
      var n := Size(Fetch(code, 0).value);
      FetchShift(code, n, p - n);
      BoundaryNext(code[n..], p - n, q - n);
    }
  }

  /** An instruction of the code starts at byte p. */
  predicate Starts(code: seq<byte>, p: nat) { p < |code| && Boundary(code, p) }

  // ---- jumps of a piece of code ----

  predicate IsJump(i: Instr) { i.op == OpJump || i.op == OpJumpNotTrue }

  /** A `break` or `continue` of the piece that belongs to no loop of it. */
  predicate FreeT(t: Term)
    decreases t, 0
  {
    match t
    case Prim(_, args) => FreeTs(args)
    case Put(_, e) => FreeT(e)
    case Cond(c, x, y) => FreeT(c) || FreeB(x) || FreeB(y)
    case Loop(c, _) => FreeT(c)
    case ForLoop(init, until, inc, _) =>
      FreeB(init) || (match until case None => false case Some(c) => FreeT(c)) || FreeB(inc)
    case Call(f, args) => FreeT(f) || FreeTs(args)
    case _ => false
  }

  predicate FreeTs(ts: seq<Term>)
    decreases ts, 0
  {
    ts != [] && (FreeT(ts[0]) || FreeTs(ts[1..]))
  }

  predicate FreeC(c: Cmd)
    decreases c, 0
  {
    match c
    case Define(_, e) => FreeT(e)
    case Return(e) => FreeT(e)
    case Eval(e) => FreeT(e)
    case Break => true
    case Continue => true
  }

  predicate FreeB(b: seq<Cmd>)
    decreases b, 0
  {
    b != [] && (FreeC(b[0]) || FreeB(b[1..]))
  }

  /** The code looked at, and where the enclosing loop wants its breaks and continues. */
  datatype Scene = Scene(fn: Compiled, brk: nat, cont: nat)

  predicate SceneOk(s: Scene) { |s.fn.code| <= CODE_MAX && s.brk < LIMIT && s.cont < LIMIT }

  /** The instruction at q leaves for the enclosing loop. */
  predicate Leaves(s: Scene, q: nat) {
    Starts(s.fn.code, q)
    && (Fetch(s.fn.code, q) == Some(Instr(OpJump, s.brk)) || Fetch(s.fn.code, q) == Some(Instr(OpJump, s.cont)))
  }

  /** It goes to an instruction, if it is a jump. */
  predicate Lands(code: seq<byte>, q: nat) {
    Starts(code, q) ==>
      match Fetch(code, q) case None => false case Some(i) => IsJump(i) ==> Starts(code, i.arg)
  }

  /**
   From `from` to `to` every jump lands or leaves for the enclosing loop, and some does leave if
   there is a free one.
   */
  ghost predicate Aimed(s: Scene, from: nat, to: nat, free: bool) {
    match s
    case Scene(fn, _, _) =>
      && (forall q | from <= q < to :: Lands(fn.code, q) || (free && Leaves(s, q)))
      && (free ==> exists q :: from <= q < to && Leaves(s, q))
  }

  lemma {:induction false} AimedCat(s: Scene, a: nat, b: nat, c: nat, free: bool, more: bool)
    requires Aimed(s, a, b, free) && Aimed(s, b, c, more) && a <= b <= c
    ensures Aimed(s, a, c, free || more)
  {
    hide Lands, Leaves;
  }

  lemma {:induction false} NothingAimed(s: Scene, a: nat)
    ensures Aimed(s, a, a, false)
  {
  }

  /** The jumps that leave for a loop land once that loop has its targets. */
  lemma {:induction false} Bounds(s: Scene, s': Scene, a: nat, b: nat, free: bool)
    requires Aimed(s', a, b, free) && s'.fn == s.fn && Starts(s.fn.code, s'.brk) && Starts(s.fn.code, s'.cont)
    ensures Aimed(s, a, b, false)
  {
    hide Starts, Fetch;
    forall q | a <= q < b ensures Lands(s.fn.code, q) {}
  }

  /** An instruction in place, at a boundary. */
  lemma {:induction false} Next(s: Scene, p: nat, i: Instr)
    requires SceneOk(s) && At(s.fn, p, Encode(i)) && Boundary(s.fn.code, p)
    ensures Boundary(s.fn.code, p + Size(i)) && Fetch(s.fn.code, p) == Some(Cut(i)) && p + Size(i) <= |s.fn.code|
    ensures forall q | p < q < p + Size(i) :: !Boundary(s.fn.code, q)
  {
    hide Fetch, Encode, Boundary;
    CutEncodes(i);
    AtFetch(s.fn, p, Cut(i));
    AtBound(s.fn, p, Encode(i));
    forall q | p < q <= p + Size(i) ensures Boundary(s.fn.code, q) <==> q == p + Size(i) {
      BoundaryNext(s.fn.code, p, q);
    }
  }

  lemma {:induction false} OneAimed(s: Scene, p: nat, i: Instr)
    requires SceneOk(s) && At(s.fn, p, Encode(i)) && Boundary(s.fn.code, p)
    requires IsJump(i) ==> Starts(s.fn.code, i.arg)
    ensures Aimed(s, p, p + Size(i), false) && Boundary(s.fn.code, p + Size(i))
  {
    hide Fetch, Encode, Boundary;
    Next(s, p, i);
    forall q | p <= q < p + Size(i) ensures Lands(s.fn.code, q) {}
  }

  lemma {:induction false} OneLeaves(s: Scene, p: nat, target: nat)
    requires SceneOk(s) && At(s.fn, p, Encode(Plain(OpNull)) + Encode(Instr(OpJump, target))) && Boundary(s.fn.code, p)
    requires target == s.brk || target == s.cont
    ensures Aimed(s, p, p + 4, true) && Boundary(s.fn.code, p + 4)
  {
    hide Fetch, Encode, Boundary;
    AtCat(s.fn, p, Encode(Plain(OpNull)), Encode(Instr(OpJump, target)));
    OneAimed(s, p, Plain(OpNull));
    Next(s, p + 1, Instr(OpJump, target));
    assert Leaves(s, p + 1);
    forall q | p + 1 < q < p + 4 ensures Lands(s.fn.code, q) {}
  }

  // ---- compiled code ----

  lemma {:induction false} AimT(s: Scene, t: Term, p: nat)
    requires SceneOk(s) && At(s.fn, p, CodeT(t, p, s.brk, s.cont)) && Boundary(s.fn.code, p)
    requires p + LenT(t) < |s.fn.code|
    ensures Aimed(s, p, p + LenT(t), FreeT(t)) && Boundary(s.fn.code, p + LenT(t))
    decreases t, 1
  {
    hide At, Encode, Boundary, Aimed, CodeTs, CodeV, CodeB, CodeL, LenTs, LenV, LenB, LenL, FreeTs, FreeB;
    match t
    case Const(k, _) => OneAimed(s, p, Instr(OpConst, k));
    case Lambda(k, _) => OneAimed(s, p, Instr(OpConst, k));
    case Null => OneAimed(s, p, Plain(OpNull));
    case Truth(b) => OneAimed(s, p, Plain(if b then OpTrue else OpFalse));
    case Get(v) => OneAimed(s, p, GetOp(v));
    case Prim(_, _) => AimPrim(s, t, p);
    case Bump(_, _, _) => AimBump(s, t, p);
    case Put(v, e) => AimPut(s, t, p);
    case Cond(_, _, _) => AimCond(s, t, p);
    case Loop(_, _) => AimLoop(s, t, p);
    case ForLoop(_, _, _, _) => AimFor(s, t, p);
    case Call(_, _) => AimCall(s, t, p);
  }

  lemma {:induction false} AimPrim(s: Scene, t: Term, p: nat)
    requires t.Prim?
    requires SceneOk(s) && At(s.fn, p, CodeT(t, p, s.brk, s.cont)) && Boundary(s.fn.code, p)
    requires p + LenT(t) < |s.fn.code|
    ensures Aimed(s, p, p + LenT(t), FreeT(t)) && Boundary(s.fn.code, p + LenT(t))
    decreases t, 0
  {
    hide At, Encode, Boundary, Aimed, CodeTs, LenTs, FreeTs;
    var i, args := Operator(t.op, |t.args|), CodeTs(t.args, p, s.brk, s.cont);
    AtCat(s.fn, p, args, Encode(i));
    AimTs(s, t.args, p);
    AimEnd(s, p, p + LenTs(t.args), i, FreeTs(t.args));
  }

  /** One more instruction after a piece; if it is a jump, it lands. */
  lemma {:induction false} AimEnd(s: Scene, p: nat, q: nat, i: Instr, free: bool)
    requires SceneOk(s) && p <= q && Aimed(s, p, q, free) && Boundary(s.fn.code, q)
    requires At(s.fn, q, Encode(i)) && (IsJump(i) ==> Starts(s.fn.code, i.arg))
    ensures Aimed(s, p, q + Size(i), free) && Boundary(s.fn.code, q + Size(i))
  {
    hide At, Encode, Boundary, Aimed;
    OneAimed(s, q, i);
    AimedCat(s, p, q, q + Size(i), free, false);
  }

  lemma {:induction false} AimBump(s: Scene, t: Term, p: nat)
    requires t.Bump?
    requires SceneOk(s) && At(s.fn, p, CodeT(t, p, s.brk, s.cont)) && Boundary(s.fn.code, p)
    ensures Aimed(s, p, p + LenT(t), false) && Boundary(s.fn.code, p + LenT(t))
  {
    hide At, Encode, Boundary, Aimed;
    var g, c, a, w := GetOp(t.v), Instr(OpConst, t.k), Plain(t.step), SetOp(t.v);
    AtFour(s.fn, p, Encode(g), Encode(g), Encode(c), Encode(a), Encode(w));
    OneAimed(s, p, g);
    AimEnd(s, p, p + Size(g), g, false);
    AimEnd(s, p, p + 2 * Size(g), c, false);
    AimEnd(s, p, p + 2 * Size(g) + 3, a, false);
    AimEnd(s, p, p + 2 * Size(g) + 4, w, false);
  }

  lemma {:induction false} AimPut(s: Scene, t: Term, p: nat)
    requires t.Put?
    requires SceneOk(s) && At(s.fn, p, CodeT(t, p, s.brk, s.cont)) && Boundary(s.fn.code, p)
    requires p + LenT(t) < |s.fn.code|
    ensures Aimed(s, p, p + LenT(t), FreeT(t)) && Boundary(s.fn.code, p + LenT(t))
    decreases t, 0
  {
    hide At, Encode, Boundary, Aimed;
    var e, w, g := t.value, SetOp(t.v), GetOp(t.v);
    var q := p + LenT(e);
    AtCat(s.fn, p, CodeT(e, p, s.brk, s.cont), Encode(w) + Encode(g));
    AtCat(s.fn, q, Encode(w), Encode(g));
    AimT(s, e, p);
    AimEnd(s, p, q, w, FreeT(e));
    AimEnd(s, p, q + Size(w), g, FreeT(e));
  }

  lemma {:induction false} AimCall(s: Scene, t: Term, p: nat)
    requires t.Call?
    requires SceneOk(s) && At(s.fn, p, CodeT(t, p, s.brk, s.cont)) && Boundary(s.fn.code, p)
    requires p + LenT(t) < |s.fn.code|
    ensures Aimed(s, p, p + LenT(t), FreeT(t)) && Boundary(s.fn.code, p + LenT(t))
    decreases t, 0
  {
    hide At, Encode, Boundary, Aimed, CodeTs, LenTs, FreeTs;
    var q, i := p + LenT(t.callee), Instr(OpCall, |t.args|);
    var r, args := q + LenTs(t.args), CodeTs(t.args, q, s.brk, s.cont);
    AtCat(s.fn, p, CodeT(t.callee, p, s.brk, s.cont), args + Encode(i));
    AtCat(s.fn, q, args, Encode(i));
    AimT(s, t.callee, p);
    AimTs(s, t.args, q);
    AimedCat(s, p, q, r, FreeT(t.callee), FreeTs(t.args));
    AimEnd(s, p, r, i, FreeT(t));
  }

  lemma {:induction false} AimTs(s: Scene, ts: seq<Term>, p: nat)
    requires SceneOk(s) && At(s.fn, p, CodeTs(ts, p, s.brk, s.cont)) && Boundary(s.fn.code, p)
    requires p + LenTs(ts) < |s.fn.code|
    ensures Aimed(s, p, p + LenTs(ts), FreeTs(ts)) && Boundary(s.fn.code, p + LenTs(ts))
    decreases ts, 0
  {
    hide At, Boundary, Aimed, CodeT, LenT, FreeT;
    if ts == [] {
      NothingAimed(s, p);
    } else {
      var q := p + LenT(ts[0]);
      AtCat(s.fn, p, CodeT(ts[0], p, s.brk, s.cont), CodeTs(ts[1..], q, s.brk, s.cont));
      AimT(s, ts[0], p);
      AimTs(s, ts[1..], q);
      AimedCat(s, p, q, p + LenTs(ts), FreeT(ts[0]), FreeTs(ts[1..]));
    }
  }

  lemma {:induction false} AimCond(s: Scene, t: Term, p: nat)
    requires t.Cond?
    requires SceneOk(s) && At(s.fn, p, CodeT(t, p, s.brk, s.cont)) && Boundary(s.fn.code, p)
    requires p + LenT(t) < |s.fn.code|
    ensures Aimed(s, p, p + LenT(t), FreeT(t)) && Boundary(s.fn.code, p + LenT(t))
    decreases t, 0
  {
    hide At, Encode, Boundary, Aimed, CodeV, LenV, FreeB;
    var Cond(c, x, y) := t;
    var conseq := p + LenT(c) + 3;
    var alt := conseq + LenV(x) + 3;
    var end := alt + LenV(y);
    var test, over := Instr(OpJumpNotTrue, alt), Instr(OpJump, end);
    AtFour(s.fn, p, CodeT(c, p, s.brk, s.cont), Encode(test), CodeV(x, conseq, s.brk, s.cont), Encode(over),
           CodeV(y, alt, s.brk, s.cont));
    AimT(s, c, p);
    Next(s, conseq - 3, test);
    AimV(s, x, conseq);
    Next(s, alt - 3, over);
    AimV(s, y, alt);
    AimEnd(s, p, conseq - 3, test, FreeT(c));
    AimedCat(s, p, conseq, alt - 3, FreeT(c), FreeB(x));
    AimEnd(s, p, alt - 3, over, FreeT(c) || FreeB(x));
    AimedCat(s, p, alt, end, FreeT(c) || FreeB(x), FreeB(y));
  }

  lemma {:induction false} AimLoop(s: Scene, t: Term, p: nat)
    requires t.Loop?
    requires SceneOk(s) && At(s.fn, p, CodeT(t, p, s.brk, s.cont)) && Boundary(s.fn.code, p)
    requires p + LenT(t) < |s.fn.code|
    ensures Aimed(s, p, p + LenT(t), FreeT(t)) && Boundary(s.fn.code, p + LenT(t))
    decreases t, 0
  {
    hide At, Encode, Boundary, Aimed, CodeL, LenL, FreeB;
    var Loop(c, body) := t;
    var before := p + 1;
    var start := before + LenT(c) + 3;
    var end := start + LenL(body);
    var after := end + 3;
    var first, test, back := Plain(OpNull), Instr(OpJumpNotTrue, after), Instr(OpJump, before);
    var s' := Scene(s.fn, after, before);
    AtFour(s.fn, p, Encode(first), CodeT(c, before, s.brk, s.cont), Encode(test), CodeL(body, start, after, before),
           Encode(back));
    OneAimed(s, p, first);
    AimT(s, c, before);
    AimedCat(s, p, before, start - 3, false, FreeT(c));
    Next(s, start - 3, test);
    AimL(s', body, start);
    Next(s, end, back);
    AimEnd(s, p, start - 3, test, FreeT(c));
    Bounds(s, s', start, end, FreeB(body));
    AimedCat(s, p, start, end, FreeT(c), false);
    AimEnd(s, p, end, back, FreeT(c));
  }

  lemma {:induction false} AimFor(s: Scene, t: Term, p: nat)
    requires t.ForLoop?
    requires SceneOk(s) && At(s.fn, p, CodeFor(t, p, s.brk, s.cont)) && Boundary(s.fn.code, p)
    requires p + LenT(t) < |s.fn.code|
    ensures Aimed(s, p, p + LenT(t), FreeT(t)) && Boundary(s.fn.code, p + LenT(t))
    decreases t, 0
  {
    hide At, Encode, Boundary, Aimed, CodeB, LenB, CodeL, LenL, FreeB;
    var ForLoop(init, until, inc, body) := t;
    var before := p + 1 + LenB(init);
    var start := before + LenO(until);
    var next := start + LenL(body);
    var end := next + LenB(inc);
    var s' := Scene(s.fn, end + 3, next);
    ForAt(s, init, until, inc, body, p);
    OneAimed(s, p, Plain(OpNull));
    AimB(s, init, p + 1);
    AimTest(s, until, before, end + 3);
    AimL(s', body, start);
    AimB(s, inc, next);
    Next(s, end, Instr(OpJump, before));
    Bounds(s, s', start, next, FreeB(body));
    AimTest(s, until, before, end + 3);
    ForAimed(s, p, before, start, next, end, FreeB(init), FreeO(until), FreeB(inc));
  }

  predicate FreeO(until: Option<Term>) { match until case None => false case Some(c) => FreeT(c) }

  /** The parts of a `for` loop, one after the other. */
  lemma {:induction false} ForAimed(s: Scene, p: nat, before: nat, start: nat, next: nat, end: nat,
                                    first: bool, test: bool, last: bool)
    requires SceneOk(s) && p < before <= start <= next <= end
    requires Starts(s.fn.code, before) && Starts(s.fn.code, next) && Boundary(s.fn.code, end)
    requires Aimed(s, p, p + 1, false) && Aimed(s, p + 1, before, first) && Aimed(s, before, start, test)
    requires Aimed(s, start, next, false) && Aimed(s, next, end, last) && At(s.fn, end, Encode(Instr(OpJump, before)))
    ensures Aimed(s, p, end + 3, first || test || last)
  {
    hide At, Encode, Boundary, Aimed;
    AimedCat(s, p, p + 1, before, false, first);
    AimedCat(s, p, before, start, first, test);
    AimedCat(s, p, start, next, first || test, false);
    AimedCat(s, p, next, end, first || test, last);
    AimEnd(s, p, end, Instr(OpJump, before), first || test || last);
  }

  /** Where the parts of a `for` loop are. */
  lemma {:induction false} ForAt(s: Scene, init: seq<Cmd>, until: Option<Term>, inc: seq<Cmd>, body: seq<Cmd>, p: nat)
    requires At(s.fn, p, CodeFor(ForLoop(init, until, inc, body), p, s.brk, s.cont))
    ensures var before := p + 1 + LenB(init);
            var start := before + LenO(until);
            var next := start + LenL(body);
            var end := next + LenB(inc);
            && At(s.fn, p, Encode(Plain(OpNull))) && At(s.fn, p + 1, CodeB(init, p + 1, s.brk, s.cont))
            && At(s.fn, before, TestCode(until, before, end + 3, s.brk, s.cont))
            && At(s.fn, start, CodeL(body, start, end + 3, next))
            && At(s.fn, next, CodeB(inc, next, s.brk, s.cont)) && At(s.fn, end, Encode(Instr(OpJump, before)))
  {
    hide At, Encode, CodeT, CodeB, LenB, CodeL, LenL;
    var before := p + 1 + LenB(init);
    var start := before + LenO(until);
    var next := start + LenL(body);
    var end := next + LenB(inc);
    var first, back := Encode(Plain(OpNull)), Encode(Instr(OpJump, before));
    var a, b := CodeB(init, p + 1, s.brk, s.cont), TestCode(until, before, end + 3, s.brk, s.cont);
    var l, d := CodeL(body, start, end + 3, next), CodeB(inc, next, s.brk, s.cont);
    AtCat(s.fn, p, first, a + (b + (l + (d + back))));
    AtFour(s.fn, p + 1, a, b, l, d, back);
  }

  /** The test of a `for` loop, walked over, and once its jump has an instruction to go to. */
  lemma {:induction false} AimTest(s: Scene, until: Option<Term>, before: nat, after: nat)
    requires SceneOk(s) && At(s.fn, before, TestCode(until, before, after, s.brk, s.cont))
    requires Boundary(s.fn.code, before)
    requires before + LenO(until) <= |s.fn.code|
    ensures var start := before + LenO(until);
            && Boundary(s.fn.code, start)
            && (Starts(s.fn.code, after) ==>
                  Aimed(s, before, start, FreeO(until)))
    decreases until, 0
  {
    hide At, Encode, Boundary, Aimed, CodeT, LenT, FreeT;
    if until.Some? {
      var c, test := until.value, Instr(OpJumpNotTrue, after);
      var q := before + LenT(c);
      AtCat(s.fn, before, CodeT(c, before, s.brk, s.cont), Encode(test));
      AimT(s, c, before);
      Next(s, q, test);
      if Starts(s.fn.code, after) {
        AimEnd(s, before, q, test, FreeT(c));
      }
    } else {
      NothingAimed(s, before);
    }
  }

  lemma {:induction false} AimC(s: Scene, c: Cmd, p: nat)
    requires SceneOk(s) && At(s.fn, p, CodeC(c, p, s.brk, s.cont)) && Boundary(s.fn.code, p)
    ensures Aimed(s, p, p + LenC(c), FreeC(c)) && Boundary(s.fn.code, p + LenC(c)) && p + LenC(c) <= |s.fn.code|
    decreases c, 0
  {
    hide At, Encode, Boundary, Aimed, CodeT, LenT, FreeT;
    AtBound(s.fn, p, CodeC(c, p, s.brk, s.cont));
    match c
    case Define(v, e) => AimThen(s, e, SetOp(v), p);
    case Return(e) => AimThen(s, e, Plain(OpReturnValue), p);
    case Eval(e) => AimThen(s, e, Plain(OpPop), p);
    case Break => OneLeaves(s, p, s.brk);
    case Continue => OneLeaves(s, p, s.cont);
  }

  lemma {:induction false} AimThen(s: Scene, e: Term, i: Instr, p: nat)
    requires SceneOk(s) && At(s.fn, p, CodeT(e, p, s.brk, s.cont) + Encode(i)) && Boundary(s.fn.code, p) && !IsJump(i)
    ensures Aimed(s, p, p + LenT(e) + Size(i), FreeT(e)) && Boundary(s.fn.code, p + LenT(e) + Size(i))
    decreases e, 2
  {
    hide At, Encode, Boundary, Aimed, CodeT, LenT, FreeT;
    AtBound(s.fn, p, CodeT(e, p, s.brk, s.cont) + Encode(i));
    AtCat(s.fn, p, CodeT(e, p, s.brk, s.cont), Encode(i));
    AimT(s, e, p);
    AimEnd(s, p, p + LenT(e), i, FreeT(e));
  }

  lemma {:induction false} AimB(s: Scene, b: seq<Cmd>, p: nat)
    requires SceneOk(s) && At(s.fn, p, CodeB(b, p, s.brk, s.cont)) && Boundary(s.fn.code, p)
    ensures Aimed(s, p, p + LenB(b), FreeB(b)) && Boundary(s.fn.code, p + LenB(b))
    decreases b, 0
  {
    hide At, Boundary, Aimed, CodeC, LenC, FreeC;
    if b == [] {
      NothingAimed(s, p);
    } else {
      var q := p + LenC(b[0]);
      AtCat(s.fn, p, CodeC(b[0], p, s.brk, s.cont), CodeB(b[1..], q, s.brk, s.cont));
      AimC(s, b[0], p);
      AimB(s, b[1..], q);
      AimedCat(s, p, q, p + LenB(b), FreeC(b[0]), FreeB(b[1..]));
    }
  }

  lemma {:induction false} AimV(s: Scene, b: seq<Cmd>, p: nat)
    requires SceneOk(s) && At(s.fn, p, CodeV(b, p, s.brk, s.cont)) && Boundary(s.fn.code, p)
    requires EndsInEval(b) ==> p + LenV(b) < |s.fn.code|
    ensures Aimed(s, p, p + LenV(b), FreeB(b)) && Boundary(s.fn.code, p + LenV(b))
    decreases b, 0
  {
    hide At, Boundary, Aimed, CodeT, LenT, CodeC, LenC, FreeT, FreeC;
    if b == [] {
      NothingAimed(s, p);
    } else if |b| == 1 {
      OneFree(b);
      AimCV(s, b[0], p);
    } else {
      var q := p + LenC(b[0]);
      AtCat(s.fn, p, CodeC(b[0], p, s.brk, s.cont), CodeV(b[1..], q, s.brk, s.cont));
      AimC(s, b[0], p);
      AimV(s, b[1..], q);
      AimedCat(s, p, q, p + LenV(b), FreeC(b[0]), FreeB(b[1..]));
    }
  }

  lemma {:induction false} AimCV(s: Scene, c: Cmd, p: nat)
    requires SceneOk(s) && At(s.fn, p, CodeCV(c, p, s.brk, s.cont)) && Boundary(s.fn.code, p)
    requires c.Eval? ==> p + LenCV(c) < |s.fn.code|
    ensures Aimed(s, p, p + LenCV(c), FreeC(c)) && Boundary(s.fn.code, p + LenCV(c))
    decreases c, 1
  {
    hide At, Boundary, Aimed, CodeT, LenT, CodeC, LenC, FreeT;
    if c.Eval? {
      AimT(s, c.e, p);
    } else {
      AimC(s, c, p);
    }
  }

  lemma {:induction false} OneFree(b: seq<Cmd>)
    requires |b| == 1
    ensures FreeB(b) == FreeC(b[0])
  {
    hide FreeC;
    assert b[1..] == [];
  }

  lemma {:induction false} AimL(s: Scene, b: seq<Cmd>, p: nat)
    requires SceneOk(s) && At(s.fn, p, CodeL(b, p, s.brk, s.cont)) && Boundary(s.fn.code, p)
    requires p + LenL(b) < |s.fn.code|
    ensures Aimed(s, p, p + LenL(b), FreeB(b)) && Boundary(s.fn.code, p + LenL(b))
    decreases b, 1
  {
    hide At, Encode, Boundary, Aimed, CodeV, LenV;
    if b == [] {
      NothingAimed(s, p);
    } else {
      var pop, none, v := Plain(OpPop), Plain(OpNull), CodeV(b, p + 1, s.brk, s.cont);
      var last := if EndsInEval(b) then [] else Encode(none);
      AtCat(s.fn, p, Encode(pop), v + last);
      AtCat(s.fn, p + 1, v, last);
      OneAimed(s, p, pop);
      AimV(s, b, p + 1);
      AimedCat(s, p, p + 1, p + 1 + LenV(b), false, FreeB(b));
      if !EndsInEval(b) {
        AimEnd(s, p, p + 1 + LenV(b), none, FreeB(b));
      }
    }
  }

  // ---- whole functions and programs ----

  /** Every jump goes to the start of an instruction of the same code; no placeholder is left. */
  ghost predicate AllLand(code: seq<byte>) {
    forall p | Starts(code, p) ::
      match Fetch(code, p)
      case None => false
      case Some(i) => IsJump(i) ==> Starts(code, i.arg) && !IsPlaceholder(i.arg)
  }

  /** A jump that is still the placeholder of a `break` or `continue`. */
  predicate Dangles(code: seq<byte>, p: nat) {
    Starts(code, p) && Fetch(code, p).Some?
    && Fetch(code, p).value.op == OpJump && IsPlaceholder(Fetch(code, p).value.arg)
  }

  lemma {:induction false} LandedAll(s: Scene, free: bool)
    requires SceneOk(s) && s.brk == BRK && s.cont == CONT && Aimed(s, 0, |s.fn.code|, free)
    ensures AllLand(s.fn.code) <==> !free
    ensures !AllLand(s.fn.code) <==> exists p :: Dangles(s.fn.code, p)
  {
    hide Boundary, Fetch;
    var code := s.fn.code;
    if free {
      var q :| 0 <= q < |code| && Leaves(s, q);
      assert Dangles(code, q);
    } else {
      forall p | Starts(code, p) ensures Lands(code, p) {}
    }
    if p :| Dangles(code, p) {
      assert !AllLand(code);
    }
  }

  /**
   In a compiled program every jump, on a path that can run or not, goes to an
   instruction of the program, if and only if no `break` or `continue` is
   outside all loops; such a one is left as its placeholder, and nothing else is.
   */
  lemma {:induction false} ProgramJumpsLand(prog: seq<Cmd>)
    requires |CodeP(prog)| <= CODE_MAX
    ensures AllLand(CodeP(prog)) <==> !FreeB(prog)
    ensures FreeB(prog) <==> exists p :: Dangles(CodeP(prog), p)
  {
    hide At, Encode, Boundary, Aimed, CodeB, LenB, FreeB, AllLand;
    var code, i := CodeB(prog, 0, BRK, CONT), Plain(OpHalt);
    var s := Scene(Compiled(CodeP(prog), 0), BRK, CONT);
    AtWhole(s.fn);
    AtCat(s.fn, 0, code, Encode(i));
    AimB(s, prog, 0);
    AimEnd(s, 0, LenB(prog), i, FreeB(prog));
    LandedAll(s, FreeB(prog));
  }

  lemma {:induction false} AtWhole(fn: Compiled)
    ensures At(fn, 0, fn.code) && Boundary(fn.code, 0)
  {
  }

  /** The same of a function. */
  lemma {:induction false} FunctionJumpsLand(b: seq<Cmd>)
    requires |CodeF(b)| <= CODE_MAX
    ensures AllLand(CodeF(b)) <==> !FreeB(b)
    ensures FreeB(b) <==> exists p :: Dangles(CodeF(b), p)
  {
    hide At, Encode, Boundary, Aimed, CodeV, LenV, FreeB, AllLand;
    var s := Scene(Compiled(CodeF(b), 0), BRK, CONT);
    var code, i := CodeV(b, 0, BRK, CONT), Plain(if EndsInEval(b) then OpReturnValue else OpReturn);
    var bare := !EndsInEval(b) && EndsInReturn(b);
    AtWhole(s.fn);
    AtCat(s.fn, 0, code, if bare then [] else Encode(i));
    AimV(s, b, 0);
    if !bare {
      AimEnd(s, 0, LenV(b), i, FreeB(b));
    }
    LandedAll(s, FreeB(b));
  }

  // ---- what the compiler leaves ----

  /** The compiled constant at i, if it is a function. */
  predicate ShortAt(consts: seq<SValue>, i: nat) {
    i < |consts| && consts[i].VFun? ==> |CodeF(consts[i].f.body)| <= CODE_MAX
  }

  lemma {:induction false} CompiledParts(v0: View, v1: View, r: Elab<seq<Cmd>>)
    requires v0.code == [] && v0.pool == [] && r.Good? && ProgramDone(r, None, v0, v1)
    requires |v1.code| <= CODE_MAX && ShortB(r.x)
    ensures v1.code == CodeP(r.x) && v1.pool == MapVs(Lower, r.consts)
  {
    hide CodeP, ShortB, CodeF;
    assert [] + MapVs(Lower, r.consts) == MapVs(Lower, r.consts);
  }

  /** The function constant at i of the pool. */
  ghost predicate LandsAt(consts: seq<SValue>, pool: seq<MValue>, i: nat) {
    i < |consts| && consts[i].VFun? ==>
      i < |pool| && pool[i].VFun? && (AllLand(pool[i].f.code) <==> !FreeB(consts[i].f.body))
  }

  lemma {:induction false} ConstantJumpsLand(consts: seq<SValue>, i: nat)
    requires ShortAt(consts, i)
    ensures LandsAt(consts, MapVs(Lower, consts), i)
  {
    hide AllLand, FreeB, CodeF;
    if i < |consts| && consts[i].VFun? {
      FunctionJumpsLand(consts[i].f.body);
    }
  }

  /**
   What the compiler leaves for any program, code and function constants, while
   they end below the placeholders: all jumps land if and only if every `break`
   and `continue` has a loop around it in its own function.
   */
  lemma {:induction false} CompiledJumpsLand(v0: View, v1: View, r: Elab<seq<Cmd>>)
    requires v0.code == [] && v0.pool == [] && r.Good? && ProgramDone(r, None, v0, v1)
    requires |v1.code| <= CODE_MAX && ShortB(r.x) && forall i :: ShortAt(r.consts, i)
    ensures AllLand(v1.code) <==> !FreeB(r.x)
    ensures |v1.pool| == |r.consts| && forall i :: LandsAt(r.consts, v1.pool, i)
  {
    hide AllLand, FreeB, CodeP, ShortB, ProgramDone, LandsAt, ShortAt;
    CompiledParts(v0, v1, r);
    ProgramJumpsLand(r.x);
    forall i: nat ensures LandsAt(r.consts, v1.pool, i) {
      assert ShortAt(r.consts, i);
      ConstantJumpsLand(r.consts, i);
    }
  }

  // ---- programs of the fragment have no such break ----

  lemma {:induction false} FragBoundT(t: Term)
    requires FragT(t, false)
    ensures !FreeT(t)
    decreases t, 0
  {
    hide CodeF;
    match t
    case Prim(_, args) => FragBoundTs(args);
    case Put(_, e) => FragBoundT(e);
    case Cond(c, x, y) =>
      FragBoundT(c);
      FragBoundB(x);
      FragBoundB(y);
    case Loop(c, _) => FragBoundT(c);
    case ForLoop(init, until, inc, _) =>
      FragBoundB(init);
      if until.Some? { FragBoundT(until.value); }
      FragBoundB(inc);
    case Call(f, args) =>
      FragBoundT(f);
      FragBoundTs(args);
    case _ =>
  }

  lemma {:induction false} FragBoundTs(ts: seq<Term>)
    requires FragTs(ts, false)
    ensures !FreeTs(ts)
    decreases ts, 0
  {
    hide FragT, FreeT;
    if ts != [] {
      FragBoundT(ts[0]);
      FragBoundTs(ts[1..]);
    }
  }

  lemma {:induction false} FragBoundC(c: Cmd)
    requires FragC(c, false)
    ensures !FreeC(c)
    decreases c, 0
  {
    hide FragT, FreeT;
    match c
    case Define(_, e) => FragBoundT(e);
    case Return(e) => FragBoundT(e);
    case Eval(e) => FragBoundT(e);
    case _ =>
  }

  lemma {:induction false} FragBoundB(b: seq<Cmd>)
    requires FragB(b, false)
    ensures !FreeB(b)
    decreases b, 0
  {
    hide FragC, FreeC;
    if b != [] {
      FragBoundC(b[0]);
      FragBoundB(b[1..]);
    }
  }

  /** So every jump of a program of the fragment, and of its functions, lands. */
  lemma {:induction false} FragmentJumpsLand(v0: View, v1: View, r: Elab<seq<Cmd>>)
    requires v0.code == [] && v0.pool == [] && r.Good? && ProgramDone(r, None, v0, v1)
    requires FragProgram(r.x) && forall i | 0 <= i < |r.consts| && r.consts[i].VFun? :: FragF(r.consts[i].f)
    requires forall i :: ShortAt(r.consts, i)
    ensures AllLand(v1.code)
    ensures forall i | 0 <= i < |v1.pool| && v1.pool[i].VFun? :: AllLand(v1.pool[i].f.code)
  {
    hide AllLand, FreeB, CodeP, CodeF, ShortB, FragB, ProgramDone, ShortAt;
    FragShortB(r.x, false);
    SameLength(v0, v1, r);
    CompiledParts(v0, v1, r);
    CompiledJumpsLand(v0, v1, r);
    FragBoundB(r.x);
    forall i | 0 <= i < |v1.pool| && v1.pool[i].VFun? ensures AllLand(v1.pool[i].f.code) {
      assert LandsAt(r.consts, v1.pool, i);
      FragBoundB(r.consts[i].f.body);
    }
  }

  lemma {:induction false} SameLength(v0: View, v1: View, r: Elab<seq<Cmd>>)
    requires v0.code == [] && r.Good? && ProgramDone(r, None, v0, v1)
    ensures |v1.code| == |CodeP(r.x)|
  {
    hide CodeP, ShortB;
  }
}
