/**
 How the emitted bytes grow while a tree is compiled: what a compiler method
 has done, and how the pieces of a construct come together.
 */
module Emission {
  import opened Wrappers
  import opened Opcodes
  import opened Core
  import opened Codegen
  import opened Objects
  import opened Naturality
  import opened Semantics
  import opened Machine
  import opened Simulation
  import opened Patching
  import opened Scopes
  import opened Elaboration

  // ---- the same instructions, operands aside ----

  predicate Alike(a: seq<byte>, b: seq<byte>)
    decreases |a|
  {
    match (Fetch(a, 0), Fetch(b, 0))
    case (Some(i), Some(j)) => i.op == j.op && Alike(a[Size(i)..], b[Size(j)..])
    case _ => a == [] && b == []
  }

  lemma {:induction false} AlikeStreams(a: seq<byte>, b: seq<byte>)
    requires Alike(a, b)
    ensures Stream(a) && Stream(b) && |a| == |b|
    decreases |a|
  {
    if a != [] {
      AlikeStreams(a[Size(Fetch(a, 0).value)..], b[Size(Fetch(b, 0).value)..]);
    }
  }

  lemma {:induction false} AlikeSelf(a: seq<byte>)
    requires Stream(a)
    ensures Alike(a, a)
    decreases |a|
  {
    if a != [] {
      AlikeSelf(a[Size(Fetch(a, 0).value)..]);
    }
  }

  lemma {:induction false} AlikeTrans(a: seq<byte>, b: seq<byte>, c: seq<byte>)
    requires Alike(a, b) && Alike(b, c)
    ensures Alike(a, c)
    decreases |a|
  {
    if a != [] {
      AlikeTrans(a[Size(Fetch(a, 0).value)..], b[Size(Fetch(b, 0).value)..], c[Size(Fetch(c, 0).value)..]);
    }
  }

  lemma {:induction false} AlikeCat(a: seq<byte>, b: seq<byte>, c: seq<byte>, d: seq<byte>)
    requires Alike(a, b) && Alike(c, d)
    ensures Alike(a + c, b + d)
    decreases |a|
  {
    hide Fetch;
    NoBytes(c);
    NoBytes(d);
    if a == [] {
      NoBytes([]);
      assert a + c == c && b + d == d;
    } else {
      AlikeStreams(a, b);
      var n := Size(Fetch(a, 0).value);
      FetchPrefix(a, c);
      FetchPrefix(b, d);
      assert (a + c)[n..] == a[n..] + c && (b + d)[n..] == b[n..] + d;
      AlikeCat(a[n..], b[n..], c, d);
    }
  }

  lemma {:induction false} NoBytes(a: seq<byte>)
    ensures a == [] ==> Fetch(a, 0).None?
  {
  }

  lemma {:induction false} AlikeOne(i: Instr, j: Instr)
    requires i.op == j.op
    ensures Alike(Encode(i), Encode(j))
  {
    FetchOne(i);
    FetchOne(j);
    assert Encode(i)[Size(i)..] == [] == Encode(j)[Size(j)..];
  }

  lemma {:induction false} AlikeNext(x: seq<byte>, y: seq<byte>)
    requires Alike(x, y) && y != []
    ensures Fetch(x, 0).Some? && Fetch(y, 0).Some? && Fetch(x, 0).value.op == Fetch(y, 0).value.op
    ensures var n := Size(Fetch(y, 0).value); n <= |x| && n <= |y| && Alike(x[n..], y[n..])
  {
  }

  lemma {:induction false} AlikeMore(x: seq<byte>, y: seq<byte>)
    requires Fetch(x, 0).Some? && Fetch(y, 0).Some? && Fetch(x, 0).value.op == Fetch(y, 0).value.op
    requires var n := Size(Fetch(y, 0).value); Alike(x[n..], y[n..])
    ensures Alike(x, y)
  {
    hide Fetch;
    var i, j := Fetch(x, 0).value, Fetch(y, 0).value;
    assert Alike(x, y) == (i.op == j.op && Alike(x[Size(i)..], y[Size(j)..]));
  }

  /** What is like a + b splits where a ends. */
  lemma {:induction false} AlikeSplit(x: seq<byte>, a: seq<byte>, b: seq<byte>)
    requires Alike(x, a + b) && Stream(a)
    ensures |x| == |a + b| && Alike(x[..|a|], a) && Alike(x[|a|..], b)
    decreases |a|
  {
    hide Fetch, Alike;
    AlikeStreams(x, a + b);
    if a == [] {
      AlikeSelf([]);
      assert a + b == b && x[0..] == x && x[..0] == [];
    } else {
      AlikeNext(x, a + b);
      FetchPrefix(a, b);
      var n := Size(Fetch(a, 0).value);
      assert (a + b)[n..] == a[n..] + b;
      AlikeSplit(x[n..], a[n..], b);
      SliceTwice(x, n, |a|);
      FetchTaken(x, |a|);
      AlikeMore(x[..|a|], a);
    }
  }

  lemma {:induction false} SliceTwice<T>(x: seq<T>, n: nat, m: nat)
    requires n <= m <= |x|
    ensures x[n..][..m - n] == x[..m][n..] && x[n..][m - n..] == x[m..]
  {
  }

  lemma {:induction false} FetchTaken(x: seq<byte>, n: nat)
    requires n <= |x| && Fetch(x, 0).Some? && Size(Fetch(x, 0).value) <= n
    ensures Fetch(x[..n], 0) == Fetch(x, 0)
  {
  }

  lemma {:induction false} AlikePatched(bs: seq<byte>, n: nat, x: nat, v: nat)
    requires Stream(bs)
    ensures Alike(PatchUntil(bs, n, x, v), bs)
    decreases |bs|
  {
    hide Alike, Encode;
    if n == 0 || bs == [] {
      AlikeSelf(bs);
    } else {
      var i := Fetch(bs, 0).value;
      var rest, m := bs[Size(i)..], if n < Size(i) then 0 else n - Size(i);
      AlikePatched(rest, m, x, v);
      AlikeOne(PatchOne(i, x, v), i);
      EncodeFetched(bs);
      assert bs == Encode(i) + rest;
      AlikeCat(Encode(PatchOne(i, x, v)), Encode(i), PatchUntil(rest, m, x, v), rest);
    }
  }

  // ---- code for other targets is alike ----

  lemma {:induction false} ShapeT(t: Term, p: nat, b: nat, c: nat, b': nat, c': nat)
    ensures Alike(CodeT(t, p, b, c), CodeT(t, p, b', c'))
    decreases t, 1
  {
    hide Encode, Alike, Stream, CodeTs, CodeC, CodeB, CodeV, CodeL, LenTs, LenB, LenV, LenL;
    match t
    case Prim(op, args) =>
      var last := Operator(op, |args|);
      ShapeTs(args, p, b, c, b', c');
      AlikeOne(last, last);
      AlikeCat(CodeTs(args, p, b, c), CodeTs(args, p, b', c'), Encode(last), Encode(last));
    case Put(v, e) =>
      ShapeT(e, p, b, c, b', c');
      AlikeOne(SetOp(v), SetOp(v));
      AlikeOne(GetOp(v), GetOp(v));
      AlikeCat(Encode(SetOp(v)), Encode(SetOp(v)), Encode(GetOp(v)), Encode(GetOp(v)));
      AlikeCat(CodeT(e, p, b, c), CodeT(e, p, b', c'), Encode(SetOp(v)) + Encode(GetOp(v)),
               Encode(SetOp(v)) + Encode(GetOp(v)));
    case Cond(_, _, _) => ShapeCond(t, p, b, c, b', c');
    case Loop(_, _) => ShapeLoop(t, p, b, c, b', c');
    case ForLoop(_, _, _, _) => ShapeFor(t, p, b, c, b', c');
    case Call(_, _) => ShapeCall(t, p, b, c, b', c');
    case _ =>
      RetargetT(t, p, b, c, 0, 0);
      AlikeSelf(CodeT(t, p, b, c));
  }

  lemma {:induction false} ShapeCall(t: Term, p: nat, b: nat, c: nat, b': nat, c': nat)
    requires t.Call?
    ensures Alike(CodeT(t, p, b, c), CodeT(t, p, b', c'))
    decreases t, 0
  {
    hide Encode, Alike, Stream, CodeTs, LenTs;
    var Call(f, args) := t;
    var q, call := p + LenT(f), Encode(Instr(OpCall, |args|));
    ShapeT(f, p, b, c, b', c');
    ShapeTs(args, q, b, c, b', c');
    AlikeOne(Instr(OpCall, |args|), Instr(OpCall, |args|));
    AlikeCat(CodeTs(args, q, b, c), CodeTs(args, q, b', c'), call, call);
    AlikeCat(CodeT(f, p, b, c), CodeT(f, p, b', c'), CodeTs(args, q, b, c) + call, CodeTs(args, q, b', c') + call);
  }

  lemma {:induction false} ShapeCond(t: Term, p: nat, b: nat, c: nat, b': nat, c': nat)
    requires t.Cond?
    ensures Alike(CodeCond(t, p, b, c), CodeCond(t, p, b', c'))
    decreases t, 0
  {
    hide Encode, Alike, Stream, CodeT, CodeV, LenT, LenV;
    var conseq := p + LenT(t.test) + 3;
    var alt := conseq + LenV(t.conseq) + 3;
    var test, over := Encode(Instr(OpJumpNotTrue, alt)), Encode(Instr(OpJump, alt + LenV(t.alt)));
    ShapeT(t.test, p, b, c, b', c');
    ShapeV(t.conseq, conseq, b, c, b', c');
    ShapeV(t.alt, alt, b, c, b', c');
    AlikeOne(Instr(OpJumpNotTrue, alt), Instr(OpJumpNotTrue, alt));
    AlikeOne(Instr(OpJump, alt + LenV(t.alt)), Instr(OpJump, alt + LenV(t.alt)));
    var y, y' := over + CodeV(t.alt, alt, b, c), over + CodeV(t.alt, alt, b', c');
    AlikeCat(over, over, CodeV(t.alt, alt, b, c), CodeV(t.alt, alt, b', c'));
    var x, x' := CodeV(t.conseq, conseq, b, c) + y, CodeV(t.conseq, conseq, b', c') + y';
    AlikeCat(CodeV(t.conseq, conseq, b, c), CodeV(t.conseq, conseq, b', c'), y, y');
    AlikeCat(test, test, x, x');
    AlikeCat(CodeT(t.test, p, b, c), CodeT(t.test, p, b', c'), test + x, test + x');
  }

  lemma {:induction false} ShapeLoop(t: Term, p: nat, b: nat, c: nat, b': nat, c': nat)
    requires t.Loop?
    ensures Alike(CodeLoop(t, p, b, c), CodeLoop(t, p, b', c'))
    decreases t, 0
  {
    hide Encode, Alike, Stream, CodeT, CodeL, LenT, LenL;
    var before := p + 1;
    var start := before + LenT(t.test) + 3;
    var after := start + LenL(t.body) + 3;
    var n, test, back := Encode(Plain(OpNull)), Encode(Instr(OpJumpNotTrue, after)), Encode(Instr(OpJump, before));
    var l := CodeL(t.body, start, after, before);
    RetargetL(t.body, start, after, before, 0, 0);
    AlikeSelf(l);
    AlikeOne(Plain(OpNull), Plain(OpNull));
    AlikeOne(Instr(OpJumpNotTrue, after), Instr(OpJumpNotTrue, after));
    AlikeOne(Instr(OpJump, before), Instr(OpJump, before));
    ShapeT(t.test, before, b, c, b', c');
    AlikeCat(l, l, back, back);
    AlikeCat(test, test, l + back, l + back);
    var x, x' := CodeT(t.test, before, b, c), CodeT(t.test, before, b', c');
    AlikeCat(x, x', test + (l + back), test + (l + back));
    AlikeCat(n, n, x + (test + (l + back)), x' + (test + (l + back)));
  }

  lemma {:induction false} ShapeFor(t: Term, p: nat, b: nat, c: nat, b': nat, c': nat)
    requires t.ForLoop?
    ensures Alike(CodeFor(t, p, b, c), CodeFor(t, p, b', c'))
    decreases t, 0
  {
    hide Encode, Alike, Stream, CodeT, CodeB, CodeL, LenT, LenB, LenL;
    var ForLoop(init, until, inc, body) := t;
    var before := p + 1 + LenB(init);
    var start := before + (match until case None => 0 case Some(u) => LenT(u) + 3);
    var next := start + LenL(body);
    var after := next + LenB(inc) + 3;
    var n, back, l := Encode(Plain(OpNull)), Encode(Instr(OpJump, before)), CodeL(body, start, after, next);
    RetargetL(body, start, after, next, 0, 0);
    AlikeSelf(l);
    AlikeOne(Plain(OpNull), Plain(OpNull));
    AlikeOne(Instr(OpJump, before), Instr(OpJump, before));
    ShapeB(inc, next, b, c, b', c');
    ShapeB(init, p + 1, b, c, b', c');
    var x, x' := CodeB(inc, next, b, c) + back, CodeB(inc, next, b', c') + back;
    AlikeCat(CodeB(inc, next, b, c), CodeB(inc, next, b', c'), back, back);
    AlikeCat(l, l, x, x');
    var test, test' := TestCode(until, before, after, b, c), TestCode(until, before, after, b', c');
    match until {
      case None => AlikeSelf([]);
      case Some(u) =>
        ShapeT(u, before, b, c, b', c');
        AlikeOne(Instr(OpJumpNotTrue, after), Instr(OpJumpNotTrue, after));
        AlikeCat(CodeT(u, before, b, c), CodeT(u, before, b', c'), Encode(Instr(OpJumpNotTrue, after)),
                 Encode(Instr(OpJumpNotTrue, after)));
    }
    AlikeCat(test, test', l + x, l + x');
    AlikeCat(CodeB(init, p + 1, b, c), CodeB(init, p + 1, b', c'), test + (l + x), test' + (l + x'));
    AlikeCat(n, n, CodeB(init, p + 1, b, c) + (test + (l + x)), CodeB(init, p + 1, b', c') + (test' + (l + x')));
  }

  /** The test of a `for` loop, if it has one. */
  function TestCode(until: Option<Term>, p: nat, after: nat, brk: nat, cont: nat): seq<byte> {
    match until case None => [] case Some(u) => CodeT(u, p, brk, cont) + Encode(Instr(OpJumpNotTrue, after))
  }

  lemma {:induction false} ShapeTs(ts: seq<Term>, p: nat, b: nat, c: nat, b': nat, c': nat)
    ensures Alike(CodeTs(ts, p, b, c), CodeTs(ts, p, b', c'))
    decreases ts, 0
  {
    hide Alike, CodeT, LenT;
    if ts == [] {
      AlikeSelf([]);
    } else {
      var q := p + LenT(ts[0]);
      ShapeT(ts[0], p, b, c, b', c');
      ShapeTs(ts[1..], q, b, c, b', c');
      AlikeCat(CodeT(ts[0], p, b, c), CodeT(ts[0], p, b', c'), CodeTs(ts[1..], q, b, c), CodeTs(ts[1..], q, b', c'));
    }
  }

  lemma {:induction false} ShapeC(x: Cmd, p: nat, b: nat, c: nat, b': nat, c': nat)
    ensures Alike(CodeC(x, p, b, c), CodeC(x, p, b', c'))
    decreases x, 0
  {
    hide Encode, Alike, CodeT, LenT;
    match x
    case Define(v, e) =>
      ShapeT(e, p, b, c, b', c');
      AlikeOne(SetOp(v), SetOp(v));
      AlikeCat(CodeT(e, p, b, c), CodeT(e, p, b', c'), Encode(SetOp(v)), Encode(SetOp(v)));
    case Return(e) =>
      ShapeT(e, p, b, c, b', c');
      AlikeOne(Plain(OpReturnValue), Plain(OpReturnValue));
      AlikeCat(CodeT(e, p, b, c), CodeT(e, p, b', c'), Encode(Plain(OpReturnValue)), Encode(Plain(OpReturnValue)));
    case Eval(e) =>
      ShapeT(e, p, b, c, b', c');
      AlikeOne(Plain(OpPop), Plain(OpPop));
      AlikeCat(CodeT(e, p, b, c), CodeT(e, p, b', c'), Encode(Plain(OpPop)), Encode(Plain(OpPop)));
    case Break =>
      AlikeOne(Plain(OpNull), Plain(OpNull));
      AlikeOne(Instr(OpJump, b), Instr(OpJump, b'));
      AlikeCat(Encode(Plain(OpNull)), Encode(Plain(OpNull)), Encode(Instr(OpJump, b)), Encode(Instr(OpJump, b')));
    case Continue =>
      AlikeOne(Plain(OpNull), Plain(OpNull));
      AlikeOne(Instr(OpJump, c), Instr(OpJump, c'));
      AlikeCat(Encode(Plain(OpNull)), Encode(Plain(OpNull)), Encode(Instr(OpJump, c)), Encode(Instr(OpJump, c')));
  }

  lemma {:induction false} ShapeB(x: seq<Cmd>, p: nat, b: nat, c: nat, b': nat, c': nat)
    ensures Alike(CodeB(x, p, b, c), CodeB(x, p, b', c'))
    decreases x, 0
  {
    hide Alike, CodeC, LenC;
    if x == [] {
      AlikeSelf([]);
    } else {
      var q := p + LenC(x[0]);
      ShapeC(x[0], p, b, c, b', c');
      ShapeB(x[1..], q, b, c, b', c');
      AlikeCat(CodeC(x[0], p, b, c), CodeC(x[0], p, b', c'), CodeB(x[1..], q, b, c), CodeB(x[1..], q, b', c'));
    }
  }

  lemma {:induction false} ShapeV(x: seq<Cmd>, p: nat, b: nat, c: nat, b': nat, c': nat)
    ensures Alike(CodeV(x, p, b, c), CodeV(x, p, b', c'))
    decreases x, 0
  {
    hide Alike, CodeC, CodeCV, LenC;
    if x == [] {
      AlikeSelf([]);
    } else if |x| == 1 {
      ShapeCV(x[0], p, b, c, b', c');
    } else {
      var q := p + LenC(x[0]);
      ShapeC(x[0], p, b, c, b', c');
      ShapeV(x[1..], q, b, c, b', c');
      AlikeCat(CodeC(x[0], p, b, c), CodeC(x[0], p, b', c'), CodeV(x[1..], q, b, c), CodeV(x[1..], q, b', c'));
    }
  }

  lemma {:induction false} ShapeCV(x: Cmd, p: nat, b: nat, c: nat, b': nat, c': nat)
    ensures Alike(CodeCV(x, p, b, c), CodeCV(x, p, b', c'))
    decreases x, 1
  {
    hide Alike, CodeC, CodeT;
    if x.Eval? {
      ShapeT(x.e, p, b, c, b', c');
    } else {
      ShapeC(x, p, b, c, b', c');
    }
  }

  lemma {:induction false} ShapeL(x: seq<Cmd>, p: nat, b: nat, c: nat, b': nat, c': nat)
    ensures Alike(CodeL(x, p, b, c), CodeL(x, p, b', c'))
  {
    hide Alike, CodeV, Encode;
    if x == [] {
      AlikeSelf([]);
    } else {
      var pop, last := Encode(Plain(OpPop)), if EndsInEval(x) then [] else Encode(Plain(OpNull));
      ShapeV(x, p + 1, b, c, b', c');
      AlikeOne(Plain(OpPop), Plain(OpPop));
      AlikeOne(Plain(OpNull), Plain(OpNull));
      AlikeSelf([]);
      AlikeCat(CodeV(x, p + 1, b, c), CodeV(x, p + 1, b', c'), last, last);
      AlikeCat(pop, pop, CodeV(x, p + 1, b, c) + last, CodeV(x, p + 1, b', c') + last);
    }
  }

  // ---- growth ----

  /**
   The bytes grew by code that is like `want`, and is `want` while no more than
   `max` bytes are in use: past that, operands may be mistaken for placeholders.
   */
  predicate Grown(c0: seq<byte>, c1: seq<byte>, want: seq<byte>, max: int) {
    c0 <= c1 && Alike(c1[|c0|..], want) && (|c1| <= max ==> c1 == c0 + want)
  }

  lemma {:induction false} GrownLength(c0: seq<byte>, c1: seq<byte>, want: seq<byte>, max: int)
    requires Grown(c0, c1, want, max)
    ensures |c1| == |c0| + |want|
  {
    AlikeStreams(c1[|c0|..], want);
  }

  lemma {:induction false} GrownThen(c0: seq<byte>, c1: seq<byte>, c2: seq<byte>, a: seq<byte>, b: seq<byte>, max1: int,
                                     max2: int, max: int)
    requires Grown(c0, c1, a, max1) && Grown(c1, c2, b, max2) && max <= max1 + |b| && max <= max2
    ensures Grown(c0, c2, a + b, max)
  {
    hide Alike;
    GrownLength(c1, c2, b, max2);
    AlikeCat(c1[|c0|..], a, c2[|c1|..], b);
    assert c2[|c0|..] == c1[|c0|..] + c2[|c1|..];
  }

  lemma {:induction false} GrownEmit(c: seq<byte>, i: Instr, max: int)
    ensures Grown(c, c + Encode(i), Encode(i), max)
  {
    AlikeOne(i, i);
    assert (c + Encode(i))[|c|..] == Encode(i);
  }

  /** The POP at the end of a block is taken away again. */
  lemma {:induction false} GrownTrim(c0: seq<byte>, c1: seq<byte>, want: seq<byte>, max: int)
    requires Grown(c0, c1, want + Encode(Plain(OpPop)), max) && Stream(want)
    ensures |c1| > |c0| && Grown(c0, c1[..|c1| - 1], want, max - 1)
  {
    hide Alike;
    var n := |c0| + |want|;
    GrownLength(c0, c1, want + Encode(Plain(OpPop)), max);
    AlikeSplit(c1[|c0|..], want, Encode(Plain(OpPop)));
    assert c1[|c0|..][..|want|] == c1[..n][|c0|..];
    assert c1 == c0 + (want + Encode(Plain(OpPop))) ==> c1[..n] == c0 + want;
  }

  // ---- what a part of the compiler has done ----

  /** The opcode and the position of an emitted instruction. */
  datatype Emitted = Emitted(op: Opcode, position: int)

  datatype View = View(code: seq<byte>, symbols: Symbols, pool: seq<MValue>, last: Emitted)

  /** Every function in t is short enough for the placeholders. */
  predicate ShortT(t: Term)
    decreases t, 0
  {
    match t
    case Lambda(_, f) => |CodeF(f.body)| <= CODE_MAX && ShortF(f)
    case Prim(_, args) => ShortTs(args)
    case Put(_, e) => ShortT(e)
    case Cond(c, x, y) => ShortT(c) && ShortB(x) && ShortB(y)
    case Loop(c, body) => ShortT(c) && ShortB(body)
    case ForLoop(init, until, inc, body) =>
      ShortB(init) && (match until case None => true case Some(c) => ShortT(c)) && ShortB(body) && ShortB(inc)
    case Call(f, args) => ShortT(f) && ShortTs(args)
    case _ => true
  }

  predicate ShortF(f: Fun)
    decreases f, 0
  {
    ShortB(f.body)
  }

  predicate ShortTs(ts: seq<Term>)
    decreases ts, 0
  {
    ts == [] || (ShortT(ts[0]) && ShortTs(ts[1..]))
  }

  predicate ShortC(c: Cmd)
    decreases c, 0
  {
    match c
    case Define(_, e) => ShortT(e)
    case Return(e) => ShortT(e)
    case Eval(e) => ShortT(e)
    case _ => true
  }

  predicate ShortB(b: seq<Cmd>)
    decreases b, 0
  {
    b == [] || (ShortC(b[0]) && ShortB(b[1..]))
  }

  /** Constants were added, compiled ones in place of functions if those are short. */
  predicate PoolGrown(p0: seq<MValue>, p1: seq<MValue>, consts: seq<SValue>, short: bool) {
    p0 <= p1 && |p1| == |p0| + |consts| && (short ==> p1 == p0 + MapVs(Lower, consts))
  }

  predicate Did(v0: View, v1: View, code: seq<byte>, consts: seq<SValue>, max: int, short: bool) {
    match v0
    case View(c0, _, p0, _) => Grown(c0, v1.code, code, max) && PoolGrown(p0, v1.pool, consts, short)
  }

  lemma {:induction false} DidLength(v0: View, v1: View, code: seq<byte>, consts: seq<SValue>, max: int, short: bool)
    requires Did(v0, v1, code, consts, max, short)
    ensures |v1.code| == |v0.code| + |code| && |v1.pool| == |v0.pool| + |consts|
  {
    GrownLength(v0.code, v1.code, code, max);
  }

  lemma {:induction false} DidNothing(v: View, max: int)
    ensures Did(v, v, [], [], max, true)
  {
    AlikeSelf([]);
    assert v.code[|v.code|..] == [];
    assert MapVs(Lower, []) == [];
  }

  lemma {:induction false} DidEmit(v0: View, v1: View, i: Instr, max: int)
    requires v1.code == v0.code + Encode(i) && v1.pool == v0.pool
    ensures Did(v0, v1, Encode(i), [], max, true)
  {
    hide Grown;
    GrownEmit(v0.code, i, max);
    assert MapVs(Lower, []) == [];
  }

  lemma {:induction false} DidThen(v0: View, v1: View, v2: View, a: seq<byte>, b: seq<byte>, ca: seq<SValue>,
                                   cb: seq<SValue>,
                max1: int, max2: int, max: int, x: bool, y: bool)
    requires Did(v0, v1, a, ca, max1, x) && Did(v1, v2, b, cb, max2, y) && max <= max1 + |b| && max <= max2
    ensures Did(v0, v2, a + b, ca + cb, max, x && y)
  {
    hide Grown;
    GrownThen(v0.code, v1.code, v2.code, a, b, max1, max2, max);
    assert MapVs(Lower, ca + cb) == MapVs(Lower, ca) + MapVs(Lower, cb);
  }

  /** And one more instruction. */
  lemma {:induction false} DidThenEmit(v0: View, v1: View, v2: View, a: seq<byte>, ca: seq<SValue>, i: Instr, max1: int,
                                       max: int, x: bool)
    requires Did(v0, v1, a, ca, max1, x) && v2.code == v1.code + Encode(i) && v2.pool == v1.pool
    requires max <= max1 + Size(i)
    ensures Did(v0, v2, a + Encode(i), ca, max, x)
  {
    hide Did;
    DidEmit(v1, v2, i, max);
    DidThen(v0, v1, v2, a, Encode(i), ca, [], max1, max, max, x, true);
    assert ca + [] == ca;
  }

  const BRK := JUMP_PLACEHOLDER_BREAK
  const CONT := JUMP_PLACEHOLDER_CONTINUE

  predicate DidT(v0: View, v1: View, t: Term, cs: seq<SValue>) {
    match v0
    case View(c0, _, _, _) => Did(v0, v1, CodeT(t, |c0|, BRK, CONT), cs, CODE_MAX, ShortT(t))
  }

  predicate DidTs(v0: View, v1: View, ts: seq<Term>, cs: seq<SValue>) {
    match v0
    case View(c0, _, _, _) => Did(v0, v1, CodeTs(ts, |c0|, BRK, CONT), cs, CODE_MAX, ShortTs(ts))
  }

  predicate DidB(v0: View, v1: View, b: seq<Cmd>, cs: seq<SValue>) {
    match v0
    case View(c0, _, _, _) => Did(v0, v1, CodeB(b, |c0|, BRK, CONT), cs, CODE_MAX + 1, ShortB(b))
  }

  /** A term was compiled as it was elaborated, with placeholders for loops still open. */
  predicate TermDone(r: Elab<Term>, err: Option<CompileError>, v0: View, v1: View) {
    match r
    case Bad(x) => err == Some(x)
    case Good(t, s, cs) => err == None && v1.symbols == s && |v1.pool| == |v0.pool| + |cs| && DidT(v0, v1, t, cs)
  }

  predicate TermsDone(r: Elab<seq<Term>>, err: Option<CompileError>, v0: View, v1: View) {
    match r
    case Bad(x) => err == Some(x)
    case Good(ts, s, cs) => err == None && v1.symbols == s && |v1.pool| == |v0.pool| + |cs| && DidTs(v0, v1, ts, cs)
  }

  /** The last instruction emitted for some commands. */
  function LastOf(b: seq<Cmd>, before: Emitted, size: int): Emitted {
    if b == [] then before else
    match b[|b| - 1]
    case Define(v, _) => Emitted(SetOp(v).op, size - Size(SetOp(v)))
    case Return(_) => Emitted(OpReturnValue, size - 1)
    case Eval(_) => Emitted(OpPop, size - 1)
    case Break => Emitted(OpJump, size - 3)
    case Continue => Emitted(OpJump, size - 3)
  }

  predicate BlockDone(r: Elab<seq<Cmd>>, err: Option<CompileError>, v0: View, v1: View) {
    match r
    case Bad(x) => err == Some(x)
    case Good(b, s, cs) =>
      && err == None && v1.symbols == s && |v1.pool| == |v0.pool| + |cs|
      && v1.last == LastOf(b, v0.last, |v1.code|) && DidB(v0, v1, b, cs)
  }

  // ---- construct by construct ----

  lemma {:induction false} LengthT(v0: View, v1: View, t: Term, cs: seq<SValue>)
    requires DidT(v0, v1, t, cs)
    ensures |v1.code| == |v0.code| + LenT(t) && |v1.pool| == |v0.pool| + |cs|
  {
    hide Did, LenT, CodeT;
    DidLength(v0, v1, CodeT(t, |v0.code|, BRK, CONT), cs, CODE_MAX, ShortT(t));
  }

  lemma {:induction false} LengthTs(v0: View, v1: View, ts: seq<Term>, cs: seq<SValue>)
    requires DidTs(v0, v1, ts, cs)
    ensures |v1.code| == |v0.code| + LenTs(ts) && |v1.pool| == |v0.pool| + |cs|
  {
    hide Did, LenTs, CodeTs;
    DidLength(v0, v1, CodeTs(ts, |v0.code|, BRK, CONT), cs, CODE_MAX, ShortTs(ts));
  }

  lemma {:induction false} LengthB(v0: View, v1: View, b: seq<Cmd>, cs: seq<SValue>)
    requires DidB(v0, v1, b, cs)
    ensures |v1.code| == |v0.code| + LenB(b) && |v1.pool| == |v0.pool| + |cs|
  {
    hide Did, LenB, CodeB;
    DidLength(v0, v1, CodeB(b, |v0.code|, BRK, CONT), cs, CODE_MAX + 1, ShortB(b));
  }

  lemma {:induction false} CodeTsSnoc(ts: seq<Term>, t: Term, p: nat)
    ensures CodeTs(ts + [t], p, BRK, CONT) == CodeTs(ts, p, BRK, CONT) + CodeT(t, p + LenTs(ts), BRK, CONT)
    ensures ShortTs(ts + [t]) == (ShortTs(ts) && ShortT(t))
    decreases |ts|
  {
    hide CodeT, ShortT, LenT;
    if ts == [] {
      assert ts + [t] == [t] && [t][1..] == [];
    } else {
      CodeTsSnoc(ts[1..], t, p + LenT(ts[0]));
      assert (ts + [t])[1..] == ts[1..] + [t];
    }
  }

  lemma {:induction false} CodeBCat(a: seq<Cmd>, b: seq<Cmd>, p: nat)
    ensures CodeB(a + b, p, BRK, CONT) == CodeB(a, p, BRK, CONT) + CodeB(b, p + LenB(a), BRK, CONT)
    ensures ShortB(a + b) == (ShortB(a) && ShortB(b))
    decreases |a|
  {
    hide CodeC, ShortC, LenC;
    if a == [] {
      assert a + b == b;
    } else {
      CodeBCat(a[1..], b, p + LenC(a[0]));
      assert (a + b)[1..] == a[1..] + b;
    }
  }

  lemma {:induction false} NoTerms(v: View)
    ensures DidTs(v, v, [], [])
  {
    hide Did;
    DidNothing(v, CODE_MAX);
    assert CodeTs([], |v.code|, BRK, CONT) == [];
  }

  lemma {:induction false} NextTerm(v0: View, v1: View, v2: View, ts: seq<Term>, t: Term, c1: seq<SValue>,
                                    c2: seq<SValue>)
    requires DidTs(v0, v1, ts, c1) && DidT(v1, v2, t, c2)
    ensures DidTs(v0, v2, ts + [t], c1 + c2)
  {
    hide Did, CodeT, CodeTs, ShortT, ShortTs, LenTs;
    LengthTs(v0, v1, ts, c1);
    CodeTsSnoc(ts, t, |v0.code|);
    DidThen(v0, v1, v2, CodeTs(ts, |v0.code|, BRK, CONT), CodeT(t, |v1.code|, BRK, CONT), c1, c2,
            CODE_MAX, CODE_MAX, CODE_MAX, ShortTs(ts), ShortT(t));
  }

  lemma {:induction false} PrimDid(v0: View, v1: View, v2: View, op: PrimOp, ts: seq<Term>, cs: seq<SValue>)
    requires DidTs(v0, v1, ts, cs) && v2.code == v1.code + Encode(Operator(op, |ts|)) && v2.pool == v1.pool
    ensures DidT(v0, v2, Prim(op, ts), cs)
  {
    hide Did, CodeTs, ShortTs, LenTs, Encode;
    DidThenEmit(v0, v1, v2, CodeTs(ts, |v0.code|, BRK, CONT), cs, Operator(op, |ts|), CODE_MAX, CODE_MAX, ShortTs(ts));
  }

  lemma {:induction false} OneTerm(v0: View, v1: View, t: Term, cs: seq<SValue>)
    requires DidT(v0, v1, t, cs)
    ensures DidTs(v0, v1, [t], cs)
  {
    NoTerms(v0);
    NextTerm(v0, v0, v1, [], t, [], cs);
    assert [] + [t] == [t] && [] + cs == cs;
  }

  lemma {:induction false} ThreeTerms(v0: View, v1: View, v2: View, v3: View, a: Term, b: Term, c: Term,
                                      c1: seq<SValue>, c2: seq<SValue>, c3: seq<SValue>)
    requires DidT(v0, v1, a, c1) && DidT(v1, v2, b, c2) && DidT(v2, v3, c, c3)
    ensures DidTs(v0, v3, [a, b, c], c1 + c2 + c3)
  {
    hide DidT, DidTs;
    OneTerm(v0, v1, a, c1);
    NextTerm(v0, v1, v2, [a], b, c1, c2);
    NextTerm(v0, v2, v3, [a] + [b], c, c1 + c2, c3);
    assert [a] + [b] + [c] == [a, b, c];
  }

  lemma {:induction false} CallDid(v0: View, v1: View, v2: View, v3: View, f: Term, ts: seq<Term>, c1: seq<SValue>,
                                   c2: seq<SValue>)
    requires DidT(v0, v1, f, c1) && DidTs(v1, v2, ts, c2)
    requires v3.code == v2.code + Encode(Instr(OpCall, |ts|)) && v3.pool == v2.pool
    ensures DidT(v0, v3, Call(f, ts), c1 + c2)
  {
    hide Did, CodeTs, ShortTs, LenTs, Encode;
    LengthT(v0, v1, f, c1);
    var p, call := |v0.code|, Instr(OpCall, |ts|);
    var a, b := CodeT(f, p, BRK, CONT), CodeTs(ts, p + LenT(f), BRK, CONT);
    DidThenEmit(v1, v2, v3, b, c2, call, CODE_MAX, CODE_MAX, ShortTs(ts));
    DidThen(v0, v1, v3, a, b + Encode(call), c1, c2, CODE_MAX, CODE_MAX, CODE_MAX, ShortT(f), ShortTs(ts));
  }

  lemma {:induction false} PutDid(v0: View, v1: View, v2: View, v: Var, e: Term, cs: seq<SValue>)
    requires DidT(v0, v1, e, cs) && v2.code == v1.code + Encode(SetOp(v)) + Encode(GetOp(v)) && v2.pool == v1.pool
    ensures DidT(v0, v2, Put(v, e), cs)
  {
    hide Did, Encode;
    var mid := v1.(code := v1.code + Encode(SetOp(v)));
    var a, b, c := CodeT(e, |v0.code|, BRK, CONT), Encode(SetOp(v)), Encode(GetOp(v));
    DidThenEmit(v0, v1, mid, a, cs, SetOp(v), CODE_MAX, CODE_MAX, ShortT(e));
    DidThenEmit(v0, mid, v2, a + b, cs, GetOp(v), CODE_MAX, CODE_MAX, ShortT(e));
    assert a + b + c == a + (b + c);
  }

  /** A constant and the instruction that loads it. */
  lemma {:induction false} ConstDid(v0: View, v1: View, t: Term, x: SValue, short: bool)
    requires (t.Const? || t.Lambda?) && t.k == |v0.pool| && short == ShortT(t)
    requires v1.code == v0.code + Encode(Instr(OpConst, t.k)) && |v1.pool| == |v0.pool| + 1 && v0.pool <= v1.pool
    requires short ==> v1.pool[|v0.pool|] == LowV(x)
    ensures DidT(v0, v1, t, [x])
  {
    hide Grown, Encode, Lower;
    GrownEmit(v0.code, Instr(OpConst, t.k), CODE_MAX);
    assert MapVs(Lower, [x]) == [LowV(x)];
  }

  lemma {:induction false} LeafDid(v0: View, v1: View, t: Term, i: Instr)
    requires v1.code == v0.code + Encode(i) && v1.pool == v0.pool
    requires match t
             case Null => i == Plain(OpNull)
             case Truth(b) => i == Plain(if b then OpTrue else OpFalse)
             case Get(v) => i == GetOp(v)
             case _ => false
    ensures DidT(v0, v1, t, [])
  {
    hide Did, Encode;
    DidEmit(v0, v1, i, CODE_MAX);
  }

  lemma {:induction false} BumpDid(v0: View, v5: View, v: Var, step: StepOp, k: nat)
    requires k == |v0.pool| && v5.pool == v0.pool + [VInt(1)]
    requires v5.code == v0.code + Encode(GetOp(v)) + Encode(GetOp(v)) + Encode(Instr(OpConst, k)) + Encode(Plain(step))
             + Encode(SetOp(v))
    ensures DidT(v0, v5, Bump(step, v, k), [VInt(1)])
  {
    hide Did, Encode, Lower;
    var g, c, a, s := Encode(GetOp(v)), Encode(Instr(OpConst, k)), Encode(Plain(step)), Encode(SetOp(v));
    var v1 := v0.(code := v0.code + g);
    var v2 := v1.(code := v1.code + g);
    var v3 := v2.(code := v2.code + c, pool := v5.pool);
    var v4 := v3.(code := v3.code + a);
    DidEmit(v0, v1, GetOp(v), CODE_MAX);
    DidThenEmit(v0, v1, v2, g, [], GetOp(v), CODE_MAX, CODE_MAX, true);
    ConstDid(v2, v3, Const(k, IntLit(1)), VInt(1), true);
    DidThen(v0, v2, v3, g + g, c, [], [VInt(1)], CODE_MAX, CODE_MAX, CODE_MAX, true, true);
    var one: seq<SValue> := [VInt(1)];
    assert [] + one == one;
    DidThenEmit(v0, v3, v4, g + g + c, [VInt(1)], Plain(step), CODE_MAX, CODE_MAX, true);
    DidThenEmit(v0, v4, v5, g + g + c + a, [VInt(1)], SetOp(v), CODE_MAX, CODE_MAX, true);
    assert g + g + c + a + s == g + (g + (c + (a + s)));
  }

  lemma {:induction false} NoCommands(v: View)
    ensures DidB(v, v, [], [])
  {
    hide Did;
    DidNothing(v, CODE_MAX + 1);
    assert CodeB([], |v.code|, BRK, CONT) == [];
  }

  lemma {:induction false} MoreCommands(v0: View, v1: View, v2: View, a: seq<Cmd>, b: seq<Cmd>, c1: seq<SValue>,
                                        c2: seq<SValue>)
    requires DidB(v0, v1, a, c1) && DidB(v1, v2, b, c2)
    ensures DidB(v0, v2, a + b, c1 + c2)
  {
    hide Did, CodeB, ShortB, LenB;
    LengthB(v0, v1, a, c1);
    CodeBCat(a, b, |v0.code|);
    DidThen(v0, v1, v2, CodeB(a, |v0.code|, BRK, CONT), CodeB(b, |v1.code|, BRK, CONT), c1, c2,
            CODE_MAX + 1, CODE_MAX + 1, CODE_MAX + 1, ShortB(a), ShortB(b));
  }

  /** A statement: its expression and the instruction after it. */
  lemma {:induction false} CommandDid(v0: View, v1: View, v2: View, x: Cmd, e: Term, i: Instr, cs: seq<SValue>)
    requires DidT(v0, v1, e, cs) && v2.code == v1.code + Encode(i) && v2.pool == v1.pool
    requires match x
             case Define(v, t) => t == e && i == SetOp(v)
             case Return(t) => t == e && i == Plain(OpReturnValue)
             case Eval(t) => t == e && i == Plain(OpPop)
             case _ => false
    ensures DidB(v0, v2, [x], cs)
  {
    hide Did, Encode, CodeT, ShortT, LenT;
    DidThenEmit(v0, v1, v2, CodeT(e, |v0.code|, BRK, CONT), cs, i, CODE_MAX, CODE_MAX + 1, ShortT(e));
    JustOne(x, |v0.code|);
  }

  /** What was done does not depend on the names known before. */
  lemma {:induction false} FromSymbols(v0: View, v1: View, s: Symbols, b: seq<Cmd>, cs: seq<SValue>)
    requires DidB(v0, v1, b, cs)
    ensures DidB(v0.(symbols := s), v1, b, cs)
  {
    hide Grown;
  }

  lemma {:induction false} JustOne(x: Cmd, p: nat)
    ensures CodeB([x], p, BRK, CONT) == CodeC(x, p, BRK, CONT) && ShortB([x]) == ShortC(x)
  {
    hide CodeC, ShortC;
    assert [x][1..] == [];
    assert CodeC(x, p, BRK, CONT) + [] == CodeC(x, p, BRK, CONT);
  }

  lemma {:induction false} JumpDid(v0: View, v2: View, x: Cmd, target: nat)
    requires (x.Break? && target == BRK) || (x.Continue? && target == CONT)
    requires v2.code == v0.code + Encode(Plain(OpNull)) + Encode(Instr(OpJump, target)) && v2.pool == v0.pool
    ensures DidB(v0, v2, [x], [])
  {
    hide Did, Encode;
    var v1 := v0.(code := v0.code + Encode(Plain(OpNull)));
    DidEmit(v0, v1, Plain(OpNull), CODE_MAX + 1);
    DidThenEmit(v0, v1, v2, Encode(Plain(OpNull)), [], Instr(OpJump, target), CODE_MAX + 1, CODE_MAX + 1, true);
    JustOne(x, |v0.code|);
  }

  // ---- patched constructs ----

  /** A block whose last value stays on the stack. */
  predicate DidV(v0: View, v1: View, b: seq<Cmd>, cs: seq<SValue>) {
    match v0
    case View(c0, _, _, _) => Did(v0, v1, CodeV(b, |c0|, BRK, CONT), cs, CODE_MAX, ShortB(b))
  }

  /** A block becomes a value when its last POP is removed. */
  lemma {:induction false} TrimDid(v0: View, v1: View, v2: View, b: seq<Cmd>, cs: seq<SValue>)
    requires DidB(v0, v1, b, cs) && v2.pool == v1.pool
    requires EndsInEval(b) ==> |v1.code| > 0 && v2.code == v1.code[..|v1.code| - 1]
    requires !EndsInEval(b) ==> v2.code == v1.code
    ensures DidV(v0, v2, b, cs)
  {
    hide Grown, PoolGrown, Encode, CodeB, CodeV, ShortB;
    var p := |v0.code|;
    BlockIsValueThenPop(b, p, BRK, CONT);
    RetargetV(b, p, BRK, CONT, 0, 0);
    if EndsInEval(b) {
      GrownTrim(v0.code, v1.code, CodeV(b, p, BRK, CONT), CODE_MAX + 1);
    } else {
      assert CodeV(b, p, BRK, CONT) + [] == CodeV(b, p, BRK, CONT);
      GrownLess(v0.code, v1.code, CodeV(b, p, BRK, CONT), CODE_MAX + 1, CODE_MAX);
    }
  }

  lemma {:induction false} GrownLess(c0: seq<byte>, c1: seq<byte>, want: seq<byte>, max: int, less: int)
    requires Grown(c0, c1, want, max) && less <= max
    ensures Grown(c0, c1, want, less)
  {
  }

  /** The instruction after `a` in what was emitted. */
  lemma {:induction false} OperandAt(c0: seq<byte>, c1: seq<byte>, a: seq<byte>, i: Instr, b: seq<byte>, max: int)
    requires Grown(c0, c1, a + (Encode(i) + b), max) && Stream(a)
    ensures Fetch(c1, |c0| + |a|).Some? && Fetch(c1, |c0| + |a|).value.op == i.op
    ensures |c1| == |c0| + |a| + Size(i) + |b|
  {
    hide Alike, Fetch, Encode;
    GrownLength(c0, c1, a + (Encode(i) + b), max);
    AlikeSplit(c1[|c0|..], a, Encode(i) + b);
    var q := |c0| + |a|;
    assert c1[|c0|..][|a|..] == c1[q..];
    AlikeNext(c1[q..], Encode(i) + b);
    FetchOne(i);
    FetchPrefix(Encode(i), b);
    assert c1[..q] + c1[q..] == c1;
    FetchAt(c1[..q], c1[q..]);
  }

  /** Bytes replaced in the part that was added. */
  lemma {:induction false} Splice(c0: seq<byte>, c1: seq<byte>, c2: seq<byte>, m: nat, e: seq<byte>)
    requires c0 <= c1 && |c0| + m + |e| <= |c1|
    requires var q := |c0| + m; c2 == c1[..q] + e + c1[q + |e|..]
    ensures c0 <= c2 && |c2| == |c1|
    ensures c2[|c0|..] == c1[|c0|..][..m] + (e + c1[|c0|..][m..][|e|..])
  {
    var x := c1[|c0|..];
    assert x[m..][|e|..] == c1[|c0| + m + |e|..];
    assert x[..m] == c1[..|c0| + m][|c0|..];
  }

  lemma {:induction false} SpliceExact(c0: seq<byte>, c1: seq<byte>, c2: seq<byte>, a: seq<byte>, d: seq<byte>,
                                       e: seq<byte>, b: seq<byte>)
    requires c1 == c0 + (a + (d + b)) && |d| == |e|
    requires var q := |c0| + |a|; c2 == c1[..q] + e + c1[q + |e|..]
    ensures c2 == c0 + (a + (e + b))
  {
    var q := |c0| + |a|;
    assert c1 == (c0 + a) + (d + b) && c1 == (c0 + a + d) + b;
    assert c1[..q] == c0 + a && c1[q + |e|..] == b;
  }

  /** A new operand for it. */
  lemma {:induction false} GrownChange(c0: seq<byte>, c1: seq<byte>, c2: seq<byte>, a: seq<byte>, i: Instr, n: nat,
                                       b: seq<byte>, max: int)
    requires Grown(c0, c1, a + (Encode(i) + b), max) && Stream(a)
    requires var q, j := |c0| + |a|, Instr(i.op, n);
             q + Size(i) <= |c1| && c2 == c1[..q] + Encode(j) + c1[q + Size(i)..]
    ensures Grown(c0, c2, a + (Encode(Instr(i.op, n)) + b), max)
  {
    hide Alike, Encode;
    var e := Encode(Instr(i.op, n));
    var x := c1[|c0|..];
    Splice(c0, c1, c2, |a|, e);
    PatchPlain(i, 0, 0);
    AlikeSplit(x, a, Encode(i) + b);
    AlikeSplit(x[|a|..], Encode(i), b);
    AlikeOne(Instr(i.op, n), Instr(i.op, n));
    AlikeCat(e, e, x[|a|..][Size(i)..], b);
    AlikeCat(x[..|a|], a, e + x[|a|..][Size(i)..], e + b);
    if |c2| <= max {
      SpliceExact(c0, c1, c2, a, Encode(i), e, b);
    }
  }

  /** c2 is c1 with another operand for the instruction i at q. */
  predicate Changed(c1: seq<byte>, c2: seq<byte>, q: nat, i: Instr, n: nat) {
    q + Size(i) <= |c1| && c2 == c1[..q] + Encode(Instr(i.op, n)) + c1[q + Size(i)..]
  }

  lemma {:induction false} DidChange(v0: View, v1: View, v2: View, a: seq<byte>, i: Instr, n: nat, b: seq<byte>,
                                     cs: seq<SValue>, max: int, short: bool)
    requires Did(v0, v1, a + (Encode(i) + b), cs, max, short) && Stream(a)
    requires Changed(v1.code, v2.code, |v0.code| + |a|, i, n) && v2.pool == v1.pool
    ensures Did(v0, v2, a + (Encode(Instr(i.op, n)) + b), cs, max, short)
  {
    hide Grown, Encode;
    GrownChange(v0.code, v1.code, v2.code, a, i, n, b, max);
  }

  lemma {:induction false} DidOperand(v0: View, v1: View, a: seq<byte>, i: Instr, b: seq<byte>, cs: seq<SValue>,
                                      max: int, short: bool)
    requires Did(v0, v1, a + (Encode(i) + b), cs, max, short) && Stream(a)
    ensures Fetch(v1.code, |v0.code| + |a|).Some? && Fetch(v1.code, |v0.code| + |a|).value.op == i.op
    ensures |v1.code| == |v0.code| + |a| + Size(i) + |b|
  {
    hide Grown, Encode, Fetch;
    OperandAt(v0.code, v1.code, a, i, b, max);
  }

  lemma {:induction false} Regroup(a: seq<byte>, t: seq<byte>, b: seq<byte>, o: seq<byte>, d: seq<byte>)
    ensures a + (t + (b + o)) + d == (a + (t + b)) + (o + d) == a + (t + (b + (o + d)))
  {
  }

  lemma {:induction false} Regroup4(a: seq<byte>, t: seq<byte>, b: seq<byte>, o: seq<byte>)
    ensures (a + (t + b)) + o == a + (t + (b + o))
  {
  }

  // ---- if ----

  /** Condition, consequence and the jump over the alternative, both jumps still without targets. */
  lemma {:induction false} CondFirst(v0: View, v1: View, v2: View, v3: View, v4: View, c: Term, x: seq<Cmd>,
                                     c1: seq<SValue>, c2: seq<SValue>)
    requires DidT(v0, v1, c, c1) && DidV(v2, v3, x, c2)
    requires v2.code == v1.code + Encode(Instr(OpJumpNotTrue, 9999)) && v2.pool == v1.pool
    requires v4.code == v3.code + Encode(Instr(OpJump, 9999)) && v4.pool == v3.pool
    ensures CondOpen(v0, v4, c, x, c1 + c2)
    ensures Fetch(v4.code, |v1.code|).Some? && Fetch(v4.code, |v1.code|).value.op == OpJumpNotTrue
    ensures |v1.code| == |v0.code| + LenT(c) && |v4.code| == |v1.code| + 3 + LenV(x) + 3
  {
    hide Did, Encode, CodeT, CodeV, LenT, LenV, Fetch;
    LengthT(v0, v1, c, c1);
    var test, over := Instr(OpJumpNotTrue, 9999), Instr(OpJump, 9999);
    var a, b := CodeT(c, |v0.code|, BRK, CONT), CodeV(x, |v2.code|, BRK, CONT);
    DidThenEmit(v0, v1, v2, a, c1, test, CODE_MAX, CODE_MAX, ShortT(c));
    DidThenEmit(v2, v3, v4, b, c2, over, CODE_MAX, CODE_MAX, ShortB(x));
    DidThen(v0, v2, v4, a + Encode(test), b + Encode(over), c1, c2, CODE_MAX, CODE_MAX, CODE_MAX, ShortT(c), ShortB(x));
    assert a + Encode(test) + (b + Encode(over)) == a + (Encode(test) + (b + Encode(over)));
    RetargetT(c, |v0.code|, BRK, CONT, 0, 0);
    DidOperand(v0, v4, a, test, b + Encode(over), c1 + c2, CODE_MAX, ShortT(c) && ShortB(x));
  }

  predicate CondOpen(v0: View, v4: View, c: Term, x: seq<Cmd>, cs: seq<SValue>) {
    match v0
    case View(c0, _, _, _) =>
      var a, b := CodeT(c, |c0|, BRK, CONT), CodeV(x, |c0| + LenT(c) + 3, BRK, CONT);
      Did(v0, v4, a + (Encode(Instr(OpJumpNotTrue, 9999)) + (b + Encode(Instr(OpJump, 9999)))), cs, CODE_MAX, ShortT(c)
          && ShortB(x))
  }

  /** The first jump has its target. */
  predicate CondClosed(v0: View, v5: View, c: Term, x: seq<Cmd>, cs: seq<SValue>) {
    match v0
    case View(c0, _, _, _) =>
      var conseq := |c0| + LenT(c) + 3;
      var a, b := CodeT(c, |c0|, BRK, CONT), CodeV(x, conseq, BRK, CONT);
      var test := Instr(OpJumpNotTrue, conseq + LenV(x) + 3);
      Did(v0, v5, a + (Encode(test) + (b + Encode(Instr(OpJump, 9999)))), cs, CODE_MAX, ShortT(c) && ShortB(x))
  }

  lemma {:induction false} CondTested(v0: View, v4: View, v5: View, c: Term, x: seq<Cmd>, cs: seq<SValue>)
    requires CondOpen(v0, v4, c, x, cs)
    requires Changed(v4.code, v5.code, |v0.code| + LenT(c), Instr(OpJumpNotTrue, 9999), |v4.code|) && v5.pool == v4.pool
    requires |v4.code| == |v0.code| + LenT(c) + 3 + LenV(x) + 3
    ensures CondClosed(v0, v5, c, x, cs)
  {
    hide Did, Encode, CodeT, CodeV, LenT, LenV, Stream, Changed;
    var p := |v0.code|;
    RetargetT(c, p, BRK, CONT, 0, 0);
    DidChange(v0, v4, v5, CodeT(c, p, BRK, CONT), Instr(OpJumpNotTrue, 9999), |v4.code|,
              CodeV(x, p + LenT(c) + 3, BRK, CONT) + Encode(Instr(OpJump, 9999)), cs, CODE_MAX, ShortT(c) && ShortB(x));
  }

  /** Up to the jump over the alternative. */
  function CondFront(c: Term, x: seq<Cmd>, p: nat): seq<byte> {
    var conseq := p + LenT(c) + 3;
    CodeT(c, p, BRK, CONT) + (Encode(Instr(OpJumpNotTrue, conseq + LenV(x) + 3)) + CodeV(x, conseq, BRK, CONT))
  }

  lemma {:induction false} TermStream(t: Term, p: nat)
    ensures Stream(CodeT(t, p, BRK, CONT))
  {
    hide CodeT, Stream, Patch, LenT;
    RetargetT(t, p, BRK, CONT, 0, 0);
  }

  lemma {:induction false} ValueStream(b: seq<Cmd>, p: nat)
    ensures Stream(CodeV(b, p, BRK, CONT))
  {
    hide CodeV, Stream, Patch, LenV;
    RetargetV(b, p, BRK, CONT, 0, 0);
  }

  lemma {:induction false} StreamAround(a: seq<byte>, i: Instr, b: seq<byte>)
    requires Stream(a) && Stream(b)
    ensures Stream(a + (Encode(i) + b)) && |a + (Encode(i) + b)| == |a| + Size(i) + |b|
  {
    hide Stream, Encode, Patch;
    PatchEncoded(i, 0, 0);
    StreamCat(Encode(i), b);
    StreamCat(a, Encode(i) + b);
  }

  lemma {:induction false} CondFrontStream(c: Term, x: seq<Cmd>, p: nat)
    ensures Stream(CondFront(c, x, p)) && |CondFront(c, x, p)| == LenT(c) + 3 + LenV(x)
  {
    hide Encode, CodeT, CodeV, LenT, LenV, Stream;
    var conseq := p + LenT(c) + 3;
    TermStream(c, p);
    ValueStream(x, conseq);
    StreamAround(CodeT(c, p, BRK, CONT), Instr(OpJumpNotTrue, conseq + LenV(x) + 3), CodeV(x, conseq, BRK, CONT));
  }

  /** The first jump has its target and the alternative follows. */
  predicate CondHalf(v0: View, v6: View, c: Term, x: seq<Cmd>, y: seq<Cmd>, cs: seq<SValue>) {
    match v0
    case View(c0, _, _, _) =>
      var alt := |c0| + LenT(c) + 3 + LenV(x) + 3;
      Did(v0, v6, CondFront(c, x, |c0|) + (Encode(Instr(OpJump, 9999)) + CodeV(y, alt, BRK, CONT)), cs, CODE_MAX,
          ShortT(c) && ShortB(x) && ShortB(y))
  }

  lemma {:induction false} CondSecond(v0: View, v5: View, v6: View, c: Term, x: seq<Cmd>, y: seq<Cmd>, c12: seq<SValue>,
                                      c3: seq<SValue>)
    requires CondClosed(v0, v5, c, x, c12) && |v5.code| == |v0.code| + LenT(c) + 3 + LenV(x) + 3
    requires DidV(v5, v6, y, c3)
    ensures CondHalf(v0, v6, c, x, y, c12 + c3)
    ensures var q := |v5.code| - 3; Fetch(v6.code, q).Some? && Fetch(v6.code, q).value.op == OpJump
    ensures |v6.code| == |v5.code| + LenV(y)
  {
    hide Did, Encode, CodeT, CodeV, LenT, LenV, Fetch, Stream, ShortT, ShortB, CondFront;
    var p := |v0.code|;
    var alt := p + LenT(c) + 3 + LenV(x) + 3;
    var front, over, d := CondFront(c, x, p), Instr(OpJump, 9999), CodeV(y, alt, BRK, CONT);
    CondFrontStream(c, x, p);
    ClosedFront(v0, v5, c, x, c12);
    DidThen(v0, v5, v6, front + Encode(over), d, c12, c3, CODE_MAX, CODE_MAX, CODE_MAX, ShortT(c)
            && ShortB(x), ShortB(y));
    assert front + Encode(over) + d == front + (Encode(over) + d);
    DidOperand(v0, v6, front, over, d, c12 + c3, CODE_MAX, ShortT(c) && ShortB(x) && ShortB(y));
  }

  lemma {:induction false} ClosedFront(v0: View, v5: View, c: Term, x: seq<Cmd>, cs: seq<SValue>)
    requires CondClosed(v0, v5, c, x, cs)
    ensures Did(v0, v5, CondFront(c, x, |v0.code|) + Encode(Instr(OpJump, 9999)), cs, CODE_MAX, ShortT(c) && ShortB(x))
  {
    hide Did, Encode, CodeT, CodeV, LenT, LenV, ShortT, ShortB;
    var conseq := |v0.code| + LenT(c) + 3;
    Regroup4(CodeT(c, |v0.code|, BRK, CONT), Encode(Instr(OpJumpNotTrue, conseq + LenV(x) + 3)),
             CodeV(x, conseq, BRK, CONT),
             Encode(Instr(OpJump, 9999)));
  }

  lemma {:induction false} CondThird(v0: View, v6: View, v7: View, c: Term, x: seq<Cmd>, y: seq<Cmd>, cs: seq<SValue>)
    requires CondHalf(v0, v6, c, x, y, cs)
    requires var alt := |v0.code| + LenT(c) + 3 + LenV(x) + 3;
             Changed(v6.code, v7.code, alt - 3, Instr(OpJump, 9999), |v6.code|) && |v6.code| == alt + LenV(y)
    requires v7.pool == v6.pool
    ensures DidT(v0, v7, Cond(c, x, y), cs)
  {
    hide Did, Encode, CodeT, CodeV, LenT, LenV, Stream, Changed, ShortT, ShortB, CondFront;
    var p := |v0.code|;
    var alt := p + LenT(c) + 3 + LenV(x) + 3;
    CondFrontStream(c, x, p);
    DidChange(v0, v6, v7, CondFront(c, x, p), Instr(OpJump, 9999), |v6.code|, CodeV(y, alt, BRK, CONT), cs, CODE_MAX,
              ShortT(c) && ShortB(x) && ShortB(y));
    CondWhole(c, x, y, p);
  }

  lemma {:induction false} CondWhole(c: Term, x: seq<Cmd>, y: seq<Cmd>, p: nat)
    ensures var alt := p + LenT(c) + 3 + LenV(x) + 3;
            CodeT(Cond(c, x, y), p, BRK, CONT)
            == CondFront(c, x, p) + (Encode(Instr(OpJump, alt + LenV(y))) + CodeV(y, alt, BRK, CONT))
    ensures ShortT(Cond(c, x, y)) == (ShortT(c) && ShortB(x) && ShortB(y))
  {
    hide CodeV, LenV, LenT, Encode, ShortB;
    var conseq := p + LenT(c) + 3;
    var alt := conseq + LenV(x) + 3;
    var test, over := Encode(Instr(OpJumpNotTrue, alt)), Encode(Instr(OpJump, alt + LenV(y)));
    Regroup(CodeT(c, p, BRK, CONT), test, CodeV(x, conseq, BRK, CONT), over, CodeV(y, alt, BRK, CONT));
  }

  // ---- loops ----

  /** c2 is c1 after the scan of n bytes from `start` for placeholder x. */
  predicate Scanned(c1: seq<byte>, c2: seq<byte>, start: nat, n: nat, x: nat, v: nat) {
    if n == 0 then c2 == c1
    else start <= |c1| && Stream(c1[start..]) && c2 == c1[..start] + PatchUntil(c1[start..], n, x, v)
  }

  /** What the scan finds: the rest of a loop body after its POP, then `tail`. */
  lemma {:induction false} ScanRegion(c0: seq<byte>, c1: seq<byte>, a: seq<byte>, b: seq<byte>, max: int)
    requires Grown(c0, c1, a + b, max) && Stream(a)
    ensures var start := |c0| + |a|;
            && start <= |c1| && c1[start..] == c1[|c0|..][|a|..] && Alike(c1[start..], b) && Stream(c1[start..])
            && Alike(c1[|c0|..start], a)
            && (|c1| <= max ==> c1[start..] == b && c1[..start] == c0 + a)
  {
    hide Alike, Stream;
    GrownLength(c0, c1, a + b, max);
    AlikeSplit(c1[|c0|..], a, b);
    AlikeStreams(c1[|c0|..][|a|..], b);
    SliceSlices(c0, c1, a, b);
  }

  lemma {:induction false} SliceSlices(c0: seq<byte>, c1: seq<byte>, a: seq<byte>, b: seq<byte>)
    requires c0 <= c1 && |c1| == |c0| + |a| + |b|
    ensures var start := |c0| + |a|;
            c1[|c0|..][..|a|] == c1[|c0|..start] && c1[|c0|..][|a|..] == c1[start..]
    ensures c1 == c0 + (a + b) ==> c1[|c0| + |a|..] == b && c1[..|c0| + |a|] == c0 + a
  {
    assert c0 + (a + b) == (c0 + a) + b;
  }

  /** A scan of the region makes it like what it was, and exactly b' when it was b. */
  lemma {:induction false} GrownScan(c0: seq<byte>, c1: seq<byte>, c2: seq<byte>, a: seq<byte>, b: seq<byte>,
                                     b': seq<byte>, n: nat, x: nat, v: nat, max: int)
    requires Grown(c0, c1, a + b, max) && Stream(a) && Scanned(c1, c2, |c0| + |a|, n, x, v) && n > 0
    requires Alike(b, b') && (|c1| <= max && Stream(b) ==> PatchUntil(b, n, x, v) == b')
    ensures Grown(c0, c2, a + b', max)
  {
    hide Alike, PatchUntil, Stream;
    ScanRegion(c0, c1, a, b, max);
    var start := |c0| + |a|;
    var r := c1[start..];
    var r' := PatchUntil(r, n, x, v);
    AlikePatched(r, n, x, v);
    AlikeTrans(r', r, b);
    AlikeTrans(r', b, b');
    AlikeCat(c1[|c0|..start], a, r', b');
    assert c2[|c0|..] == c1[|c0|..start] + r';
    if |c2| <= max {
      assert c0 + a + b' == c0 + (a + b');
    }
  }

  lemma {:induction false} LenPositive(b: seq<Cmd>)
    ensures LenB(b) == 0 <==> b == []
  {
    if b != [] {
      LeadB(b, 0, BRK, CONT);
    }
  }

  function AfterValue(b: seq<Cmd>): seq<byte> {
    if EndsInEval(b) then [] else Encode(Plain(OpNull))
  }

  lemma {:induction false} TailReady(b: seq<Cmd>, tail: seq<byte>, x: nat)
    requires Stream(tail) && tail != []
    ensures Stream(AfterValue(b) + tail) && AfterValue(b) + tail != []
    ensures Fetch(tail, 0) != Some(Instr(OpJump, x)) ==> Fetch(AfterValue(b) + tail, 0).value != Instr(OpJump, x)
  {
    hide Fetch, Encode;
    if EndsInEval(b) {
      assert AfterValue(b) + tail == tail;
    } else {
      PatchPlain(Plain(OpNull), 0, 0);
      StreamCat(Encode(Plain(OpNull)), tail);
      FetchOne(Plain(OpNull));
      FetchPrefix(Encode(Plain(OpNull)), tail);
    }
  }

  /** The scan over a loop body gives its `break` or `continue` jumps their target. */
  lemma {:induction false} ScanDid(v0: View, v1: View, v2: View, a: seq<byte>, b: seq<Cmd>, k1: nat, k2: nat,
                                   tail: seq<byte>,
                cs: seq<SValue>, short: bool, x: nat, v: nat)
    requires Did(v0, v1, a + (CodeL(b, |v0.code| + |a|, k1, k2) + tail), cs, CODE_MAX, short) && v2.pool == v1.pool
    requires Stream(a) && Stream(tail) && tail != [] && IsPlaceholder(x)
    requires |v1.code| <= CODE_MAX ==> k1 < 0x1_0000 && k2 < 0x1_0000 && Fetch(tail, 0) != Some(Instr(OpJump, x))
    requires Scanned(v1.code, v2.code, |v0.code| + |a| + 1, LenB(b), x, v)
    ensures Did(v0, v2, a + (CodeL(b, |v0.code| + |a|, Swap(k1, x, v), Swap(k2, x, v)) + tail), cs, CODE_MAX, short)
  {
    hide Grown, Alike, Stream, PatchUntil, Scanned, Encode, Fetch, CodeL, CodeV, LenL, LenV, LenB, AfterValue;
    LenPositive(b);
    var p, c0, c1 := |v0.code| + |a|, v0.code, v1.code;
    if b == [] {
      ScannedNone(v1.code, v2.code, p + 1, x, v);
      NoBody(p, k1, k2, Swap(k1, x, v), Swap(k2, x, v));
      return;
    }
    BodySplit(a, b, p, k1, k2, tail);
    BodySplit(a, b, p, Swap(k1, x, v), Swap(k2, x, v), tail);
    TailReady(b, tail, x);
    PatchPlain(Plain(OpPop), 0, 0);
    StreamCat(a, Encode(Plain(OpPop)));
    ScanGrown(c0, c1, v2.code, a + Encode(Plain(OpPop)), b, k1, k2, AfterValue(b) + tail, x, v);
  }

  lemma {:induction false} StreamFirst(bs: seq<byte>)
    requires Stream(bs) && bs != []
    ensures Fetch(bs, 0).Some?
  {
  }

  lemma {:induction false} NoBody(p: nat, k1: nat, k2: nat, k1': nat, k2': nat)
    ensures CodeL([], p, k1, k2) == CodeL([], p, k1', k2')
  {
  }

  lemma {:induction false} ScannedNone(c1: seq<byte>, c2: seq<byte>, start: nat, x: nat, v: nat)
    requires Scanned(c1, c2, start, 0, x, v)
    ensures c2 == c1
  {
  }

  lemma {:induction false} ScanGrown(c0: seq<byte>, c1: seq<byte>, c2: seq<byte>, a: seq<byte>, b: seq<Cmd>, k1: nat,
                                     k2: nat, rest: seq<byte>, x: nat, v: nat)
    requires Grown(c0, c1, a + (CodeV(b, |c0| + |a|, k1, k2) + rest), CODE_MAX) && b != []
    requires Stream(a) && Stream(rest) && rest != [] && IsPlaceholder(x)
    requires |c1| <= CODE_MAX ==> k1 < 0x1_0000 && k2 < 0x1_0000 && Fetch(rest, 0) != Some(Instr(OpJump, x))
    requires Scanned(c1, c2, |c0| + |a|, LenB(b), x, v)
    ensures Grown(c0, c2, a + (CodeV(b, |c0| + |a|, Swap(k1, x, v), Swap(k2, x, v)) + rest), CODE_MAX)
  {
    hide Grown, Alike, Stream, PatchUntil, Scanned, Encode, Fetch, CodeV, LenV, LenB;
    LenPositive(b);
    StreamFirst(rest);
    var p := |c0| + |a|;
    var m, m' := CodeV(b, p, k1, k2), CodeV(b, p, Swap(k1, x, v), Swap(k2, x, v));
    ShapeV(b, p, k1, k2, Swap(k1, x, v), Swap(k2, x, v));
    AlikeSelf(rest);
    AlikeCat(m, m', rest, rest);
    GrownLength(c0, c1, a + (m + rest), CODE_MAX);
    if |c1| <= CODE_MAX {
      BodyPatched(b, p, k1, k2, rest, x, v);
    }
    GrownScan(c0, c1, c2, a, m + rest, m' + rest, LenB(b), x, v, CODE_MAX);
  }

  lemma {:induction false} BodySplit(a: seq<byte>, b: seq<Cmd>, p: nat, k1: nat, k2: nat, tail: seq<byte>)
    requires b != []
    ensures a + (CodeL(b, p, k1, k2) + tail) == (a + Encode(Plain(OpPop)))
            + (CodeV(b, p + 1, k1, k2) + (AfterValue(b) + tail))
    ensures |Encode(Plain(OpPop))| == 1
  {
    hide CodeV, Encode;
    PopFirst(a, Encode(Plain(OpPop)), CodeV(b, p + 1, k1, k2), AfterValue(b), tail);
  }

  lemma {:induction false} PopFirst(a: seq<byte>, pop: seq<byte>, m: seq<byte>, n: seq<byte>, tail: seq<byte>)
    ensures a + ((pop + (m + n)) + tail) == (a + pop) + (m + (n + tail))
  {
  }

  /** Before the scan: what lies ahead of it is whole instructions. */
  lemma {:induction false} PopAfter(a: seq<byte>)
    requires Stream(a)
    ensures Stream(a + Encode(Plain(OpPop))) && |Encode(Plain(OpPop))| == 1
  {
    hide Stream, Patch;
    PatchEncoded(Plain(OpPop), 0, 0);
    StreamCat(a, Encode(Plain(OpPop)));
  }

  lemma {:induction false} ScanReady(v0: View, v1: View, a: seq<byte>, b: seq<Cmd>, k1: nat, k2: nat, tail: seq<byte>,
                                     cs: seq<SValue>, short: bool)
    requires Did(v0, v1, a + (CodeL(b, |v0.code| + |a|, k1, k2) + tail), cs, CODE_MAX, short)
    requires Stream(a) && tail != []
    ensures var start := |v0.code| + |a| + 1; start + LenB(b) <= |v1.code| && (b != [] ==> Stream(v1.code[start..]))
    ensures LenB(b) == 0 <==> b == []
  {
    hide Grown, Alike, Stream, Encode, CodeL, CodeV, LenL, LenV, LenB, CodeB;
    LenPositive(b);
    var p := |v0.code| + |a|;
    GrownLength(v0.code, v1.code, a + (CodeL(b, p, k1, k2) + tail), CODE_MAX);
    if b != [] {
      BlockIsValueThenPop(b, p + 1, k1, k2);
      var pop, m := Encode(Plain(OpPop)), CodeV(b, p + 1, k1, k2);
      BodySplit(a, b, p, k1, k2, tail);
      PopAfter(a);
      ScanRegion(v0.code, v1.code, a + pop, m + (AfterValue(b) + tail), CODE_MAX);
    }
  }

  /** A loop from its start on, up to the jump back: front, body, tail. */
  predicate DidLoop(v0: View, v1: View, a: seq<byte>, b: seq<Cmd>, k1: nat, k2: nat, tail: seq<byte>, cs: seq<SValue>,
                    short: bool) {
    match v0
    case View(c0, _, _, _) => Did(v0, v1, a + (CodeL(b, |c0| + |a|, k1, k2) + tail), cs, CODE_MAX, short)
  }

  /** The tail does not begin with a jump that a scan could take for its own. */
  predicate TailFits(code: seq<byte>, tail: seq<byte>) {
    && Stream(tail) && tail != []
    && (|code| <= CODE_MAX ==>
          Fetch(tail, 0) != Some(Instr(OpJump, BRK)) && Fetch(tail, 0) != Some(Instr(OpJump, CONT)))
  }

  /** Both scans of a loop. */
  lemma {:induction false} BindBoth(v0: View, v1: View, v2: View, v3: View, a: seq<byte>, b: seq<Cmd>, after: nat,
                                    cont: nat, tail: seq<byte>,
                                    cs: seq<SValue>, short: bool)
    requires DidLoop(v0, v1, a, b, BRK, CONT, tail, cs, short) && v2.pool == v1.pool && v3.pool == v1.pool
    requires Stream(a) && TailFits(v1.code, tail)
    requires |v1.code| <= CODE_MAX ==> after <= CODE_MAX && cont <= CODE_MAX
    requires var start := |v0.code| + |a| + 1;
             Scanned(v1.code, v2.code, start, LenB(b), BRK, after)
                     && Scanned(v2.code, v3.code, start, LenB(b), CONT, cont)
    ensures DidLoop(v0, v3, a, b, after, cont, tail, cs, short)
  {
    hide Did, Stream, Scanned, CodeL, LenB, Fetch;
    ScanDid(v0, v1, v2, a, b, BRK, CONT, tail, cs, short, BRK, after);
    DidLength(v0, v1, a + (CodeL(b, |v0.code| + |a|, BRK, CONT) + tail), cs, CODE_MAX, short);
    DidLength(v0, v2, a + (CodeL(b, |v0.code| + |a|, after, CONT) + tail), cs, CODE_MAX, short);
    ScanDid(v0, v2, v3, a, b, after, CONT, tail, cs, short, CONT, cont);
    DidLength(v0, v3, a + (CodeL(b, |v0.code| + |a|, Swap(after, CONT, cont), cont) + tail), cs, CODE_MAX, short);
    if after == CONT {
      BindPastLimit(v0, v3, a, b, Swap(after, CONT, cont), after, cont, tail, cs, short);
    }
  }

  lemma {:induction false} BindPastLimit(v0: View, v3: View, a: seq<byte>, b: seq<Cmd>, k1: nat, k1': nat, k2: nat,
                                         tail: seq<byte>,
                                         cs: seq<SValue>, short: bool)
    requires DidLoop(v0, v3, a, b, k1, k2, tail, cs, short) && |v3.code| > CODE_MAX && Stream(a) && Stream(tail)
    ensures DidLoop(v0, v3, a, b, k1', k2, tail, cs, short)
  {
    hide Did, Stream, Alike, CodeL;
    var p := |v0.code| + |a|;
    var l, l' := CodeL(b, p, k1, k2), CodeL(b, p, k1', k2);
    ShapeL(b, p, k1, k2, k1', k2);
    AlikeSelf(a);
    AlikeSelf(tail);
    AlikeCat(l, l', tail, tail);
    AlikeCat(a, a, l + tail, l' + tail);
    PastLimit(v0, v3, a + (l + tail), a + (l' + tail), cs, short);
  }

  /** Past the limit only the opcodes matter. */
  lemma {:induction false} PastLimit(v0: View, v1: View, want: seq<byte>, want': seq<byte>, cs: seq<SValue>,
                                     short: bool)
    requires Did(v0, v1, want, cs, CODE_MAX, short) && |v1.code| > CODE_MAX && Alike(want, want')
    ensures Did(v0, v1, want', cs, CODE_MAX, short)
  {
    hide Alike;
    AlikeTrans(v1.code[|v0.code|..], want, want');
  }

  /** A loop body: its POP, its block, and a value where it has none. */
  lemma {:induction false} BodyDid(v3: View, v4: View, v5: View, v6: View, b: seq<Cmd>, cs: seq<SValue>)
    requires v4.code == v3.code + Encode(Plain(OpPop)) && v4.pool == v3.pool && DidB(v4, v5, b, cs)
    requires v6.pool == v5.pool
    requires if b == [] || EndsInEval(b) then v5.code != [] && v6.code == v5.code[..|v5.code| - 1]
             else v6.code == v5.code + Encode(Plain(OpNull))
    ensures Did(v3, v6, CodeL(b, |v3.code|, BRK, CONT), cs, CODE_MAX, ShortB(b))
  {
    hide Did, CodeV, LenV, LenB, CodeB, ShortB, Encode;
    LengthB(v4, v5, b, cs);
    var pop, m := Encode(Plain(OpPop)), CodeV(b, |v4.code|, BRK, CONT);
    DidEmit(v3, v4, Plain(OpPop), CODE_MAX);
    assert [] + cs == cs;
    if b == [] {
      EmptyBody(v3, v4, v5, v6, cs);
    } else if EndsInEval(b) {
      TrimDid(v4, v5, v6, b, cs);
      DidThen(v3, v4, v6, pop, m, [], cs, CODE_MAX, CODE_MAX, CODE_MAX, true, ShortB(b));
      assert m + [] == m;
    } else {
      TrimDid(v4, v5, v5, b, cs);
      DidThenEmit(v4, v5, v6, m, cs, Plain(OpNull), CODE_MAX, CODE_MAX, ShortB(b));
      DidThen(v3, v4, v6, pop, m + Encode(Plain(OpNull)), [], cs, CODE_MAX, CODE_MAX, CODE_MAX, true, ShortB(b));
    }
  }

  lemma {:induction false} EmptyBody(v3: View, v4: View, v5: View, v6: View, cs: seq<SValue>)
    requires v4.code == v3.code + Encode(Plain(OpPop)) && v4.pool == v3.pool && DidB(v4, v5, [], cs)
    requires v6.pool == v5.pool
    requires v5.code != [] && v6.code == v5.code[..|v5.code| - 1]
    ensures Did(v3, v6, CodeL([], |v3.code|, BRK, CONT), cs, CODE_MAX, ShortB([]))
  {
    hide Encode, Alike;
    LengthB(v4, v5, [], cs);
    assert v5.code == v4.code;
    assert v6.code == v3.code;
    AlikeSelf([]);
    assert v6.code[|v3.code|..] == [];
  }

  // ---- while ----

  /** The code before the body of a `while` loop at p. */
  function WhileFront(c: Term, p: nat, target: nat): seq<byte> {
    Encode(Plain(OpNull)) + (CodeT(c, p + 1, BRK, CONT) + Encode(Instr(OpJumpNotTrue, target)))
  }

  lemma {:induction false} WhileFrontStream(c: Term, p: nat, target: nat)
    ensures Stream(WhileFront(c, p, target)) && |WhileFront(c, p, target)| == 1 + LenT(c) + 3
    ensures Stream(Encode(Plain(OpNull)) + CodeT(c, p + 1, BRK, CONT))
  {
    hide Stream, Encode, CodeT, LenT;
    RetargetT(c, p + 1, BRK, CONT, 0, 0);
    PatchPlain(Plain(OpNull), 0, 0);
    PatchPlain(Instr(OpJumpNotTrue, target), 0, 0);
    StreamCat(Encode(Plain(OpNull)), CodeT(c, p + 1, BRK, CONT));
    StreamCat(CodeT(c, p + 1, BRK, CONT), Encode(Instr(OpJumpNotTrue, target)));
    StreamCat(Encode(Plain(OpNull)), CodeT(c, p + 1, BRK, CONT) + Encode(Instr(OpJumpNotTrue, target)));
  }

  /** The loop up to its body. */
  lemma {:induction false} WhileFrontDid(v0: View, v1: View, v2: View, v3: View, c: Term, cs: seq<SValue>)
    requires v1.code == v0.code + Encode(Plain(OpNull)) && v1.pool == v0.pool && DidT(v1, v2, c, cs)
    requires v3.code == v2.code + Encode(Instr(OpJumpNotTrue, 9999)) && v3.pool == v2.pool
    ensures Did(v0, v3, WhileFront(c, |v0.code|, 9999), cs, CODE_MAX, ShortT(c))
    ensures |v2.code| == |v0.code| + 1 + LenT(c)
  {
    hide Did, Encode, CodeT, LenT, ShortT;
    LengthT(v1, v2, c, cs);
    var n, a, test := Encode(Plain(OpNull)), CodeT(c, |v1.code|, BRK, CONT), Instr(OpJumpNotTrue, 9999);
    DidEmit(v0, v1, Plain(OpNull), CODE_MAX);
    DidThenEmit(v1, v2, v3, a, cs, test, CODE_MAX, CODE_MAX, ShortT(c));
    DidThen(v0, v1, v3, n, a + Encode(test), [], cs, CODE_MAX, CODE_MAX, CODE_MAX, true, ShortT(c));
    assert [] + cs == cs;
  }

  /** Everything is emitted: the test still jumps to a placeholder, so do `break` and `continue`. */
  lemma {:induction false} WhileOpen(v0: View, v3: View, v6: View, v7: View, c: Term, b: seq<Cmd>, c1: seq<SValue>,
                                     c2: seq<SValue>)
    requires Did(v0, v3, WhileFront(c, |v0.code|, 9999), c1, CODE_MAX, ShortT(c))
    requires Did(v3, v6, CodeL(b, |v3.code|, BRK, CONT), c2, CODE_MAX, ShortB(b))
    requires v7.code == v6.code + Encode(Instr(OpJump, |v0.code| + 1)) && v7.pool == v6.pool
    ensures DidLoop(v0, v7, WhileFront(c, |v0.code|, 9999), b, BRK, CONT, Encode(Instr(OpJump, |v0.code| + 1)), c1 + c2,
            ShortT(c) && ShortB(b))
    ensures |v7.code| == |v3.code| + LenL(b) + 3 && |v3.code| == |v0.code| + 1 + LenT(c) + 3
    ensures var q := |v0.code| + 1 + LenT(c); Fetch(v7.code, q).Some? && Fetch(v7.code, q).value.op == OpJumpNotTrue
  {
    hide Did, Stream, Encode, CodeT, LenT, CodeL, LenL, ShortT, ShortB, Fetch;
    var p := |v0.code|;
    var test, back, l := Instr(OpJumpNotTrue, 9999), Instr(OpJump, p + 1), CodeL(b, |v3.code|, BRK, CONT);
    WhileFrontStream(c, p, 9999);
    DidLength(v0, v3, WhileFront(c, p, 9999), c1, CODE_MAX, ShortT(c));
    DidLength(v3, v6, l, c2, CODE_MAX, ShortB(b));
    DidThenEmit(v3, v6, v7, l, c2, back, CODE_MAX, CODE_MAX, ShortB(b));
    DidThen(v0, v3, v7, WhileFront(c, p, 9999), l + Encode(back), c1, c2, CODE_MAX, CODE_MAX, CODE_MAX, ShortT(c),
            ShortB(b));
    Regroup3(Encode(Plain(OpNull)), CodeT(c, p + 1, BRK, CONT), Encode(test), l + Encode(back));
    DidOperand(v0, v7, Encode(Plain(OpNull)) + CodeT(c, p + 1, BRK, CONT), test, l + Encode(back), c1 + c2, CODE_MAX,
               ShortT(c) && ShortB(b));
  }

  lemma {:induction false} Regroup3(n: seq<byte>, a: seq<byte>, t: seq<byte>, r: seq<byte>)
    ensures (n + (a + t)) + r == (n + a) + (t + r) == n + (a + (t + r))
  {
  }

  /** The test has its target. */
  lemma {:induction false} WhileTested(v0: View, v7: View, v8: View, c: Term, b: seq<Cmd>, cs: seq<SValue>, short: bool)
    requires var q := |v0.code| + 1 + LenT(c);
             && |v7.code| == q + 3 + LenL(b) + 3 && v8.pool == v7.pool
             && Changed(v7.code, v8.code, q, Instr(OpJumpNotTrue, 9999), |v7.code|)
    requires DidLoop(v0, v7, WhileFront(c, |v0.code|, 9999), b, BRK, CONT, Encode(Instr(OpJump, |v0.code| + 1)), cs,
             short)
    ensures DidLoop(v0, v8, WhileFront(c, |v0.code|, |v7.code|), b, BRK, CONT, Encode(Instr(OpJump, |v0.code| + 1)), cs,
            short)
    ensures Stream(WhileFront(c, |v0.code|, |v7.code|)) && TailFits(v8.code, Encode(Instr(OpJump, |v0.code| + 1)))
    ensures |v8.code| == |v7.code|
  {
    hide Did, Stream, Encode, CodeT, LenT, CodeL, LenL, Fetch, Changed;
    var p := |v0.code|;
    var n, a, test, back := Encode(Plain(OpNull)), CodeT(c, p + 1, BRK, CONT), Instr(OpJumpNotTrue, |v7.code|),
      Encode(Instr(OpJump, p + 1));
    var l := CodeL(b, p + 1 + LenT(c) + 3, BRK, CONT);
    WhileFrontStream(c, p, 9999);
    WhileFrontStream(c, p, |v7.code|);
    Regroup3(n, a, Encode(Instr(OpJumpNotTrue, 9999)), l + back);
    Regroup3(n, a, Encode(test), l + back);
    DidChange(v0, v7, v8, n + a, Instr(OpJumpNotTrue, 9999), |v7.code|, l + back, cs, CODE_MAX, short);
    DidLength(v0, v8, (n + a) + (Encode(test) + (l + back)), cs, CODE_MAX, short);
    PatchPlain(Instr(OpJump, p + 1), 0, 0);
    FetchOne(Instr(OpJump, p + 1));
  }

  /** And with both scans done the loop is what it should be. */
  lemma {:induction false} WhileWhole(v0: View, v10: View, c: Term, b: seq<Cmd>, cs: seq<SValue>)
    requires var p := |v0.code|;
             var after := p + 1 + LenT(c) + 3 + LenL(b) + 3;
             DidLoop(v0, v10, WhileFront(c, p, after), b, after, p + 1, Encode(Instr(OpJump, p + 1)), cs, ShortT(c)
                     && ShortB(b))
    ensures DidT(v0, v10, Loop(c, b), cs)
  {
    hide Did, Stream, Encode, CodeT, LenT, CodeL, LenL, ShortT, ShortB;
    var p := |v0.code|;
    var after := p + 1 + LenT(c) + 3 + LenL(b) + 3;
    var l := CodeL(b, p + 1 + LenT(c) + 3, after, p + 1);
    Regroup3(Encode(Plain(OpNull)), CodeT(c, p + 1, BRK, CONT), Encode(Instr(OpJumpNotTrue, after)),
             l + Encode(Instr(OpJump, p + 1)));
    assert |WhileFront(c, p, after)| == 1 + LenT(c) + 3;
    WhileCode(c, b, p);
  }

  lemma {:induction false} WhileCode(c: Term, b: seq<Cmd>, p: nat)
    ensures var after := p + 1 + LenT(c) + 3 + LenL(b) + 3;
            CodeT(Loop(c, b), p, BRK, CONT)
            == Encode(Plain(OpNull)) + (CodeT(c, p + 1, BRK, CONT) + (Encode(Instr(OpJumpNotTrue, after))
               + (CodeL(b, p + 1 + LenT(c) + 3, after, p + 1) + Encode(Instr(OpJump, p + 1)))))
    ensures ShortT(Loop(c, b)) == (ShortT(c) && ShortB(b))
  {
    hide CodeL, LenL, LenT, Encode, ShortB, ShortT;
    WhileShort(c, b);
    assert CodeT(Loop(c, b), p, BRK, CONT) == CodeLoop(Loop(c, b), p, BRK, CONT);
  }

  lemma {:induction false} WhileShort(c: Term, b: seq<Cmd>)
    ensures ShortT(Loop(c, b)) == (ShortT(c) && ShortB(b))
  {
    hide ShortB;
  }

  // ---- for ----

  predicate ShortO(until: Option<Term>) {
    match until case None => true case Some(c) => ShortT(c)
  }

  function LenO(until: Option<Term>): nat {
    match until case None => 0 case Some(c) => LenT(c) + 3
  }

  function ForFront(init: seq<Cmd>, until: Option<Term>, p: nat, target: nat): seq<byte> {
    Encode(Plain(OpNull)) + (CodeB(init, p + 1, BRK, CONT) + TestCode(until, p + 1 + LenB(init), target, BRK, CONT))
  }

  function ForTail(inc: seq<Cmd>, next: nat, before: nat): seq<byte> {
    CodeB(inc, next, BRK, CONT) + Encode(Instr(OpJump, before))
  }

  lemma {:induction false} TestStream(until: Option<Term>, p: nat, target: nat)
    ensures Stream(TestCode(until, p, target, BRK, CONT)) && |TestCode(until, p, target, BRK, CONT)| == LenO(until)
  {
    hide Encode, CodeT, LenT;
    if until.Some? {
      RetargetT(until.value, p, BRK, CONT, 0, 0);
      PatchPlain(Instr(OpJumpNotTrue, target), 0, 0);
      StreamCat(CodeT(until.value, p, BRK, CONT), Encode(Instr(OpJumpNotTrue, target)));
    }
  }

  lemma {:induction false} ForFrontStream(init: seq<Cmd>, until: Option<Term>, p: nat, target: nat)
    ensures Stream(ForFront(init, until, p, target))
    ensures |ForFront(init, until, p, target)| == 1 + LenB(init) + LenO(until)
    ensures Stream(Encode(Plain(OpNull)) + CodeB(init, p + 1, BRK, CONT))
  {
    hide Stream, Encode, CodeB, LenB, TestCode, LenO;
    RetargetB(init, p + 1, BRK, CONT, 0, 0);
    TestStream(until, p + 1 + LenB(init), target);
    PatchPlain(Plain(OpNull), 0, 0);
    StreamCat(Encode(Plain(OpNull)), CodeB(init, p + 1, BRK, CONT));
    StreamCat(CodeB(init, p + 1, BRK, CONT), TestCode(until, p + 1 + LenB(init), target, BRK, CONT));
    StreamCat(Encode(Plain(OpNull)), CodeB(init, p + 1, BRK, CONT) + TestCode(until, p + 1 + LenB(init), target, BRK,
              CONT));
  }

  /** The tail of a `for` loop begins with a statement, never with its jump, or else jumps back. */
  lemma {:induction false} ForTailFits(code: seq<byte>, inc: seq<Cmd>, next: nat, before: nat)
    requires before <= |code|
    ensures TailFits(code, ForTail(inc, next, before)) && |ForTail(inc, next, before)| == LenB(inc) + 3
  {
    hide Encode, LenB, Fetch, Stream;
    var back := Encode(Instr(OpJump, before));
    RetargetB(inc, next, BRK, CONT, 0, 0);
    PatchPlain(Instr(OpJump, before), 0, 0);
    StreamCat(CodeB(inc, next, BRK, CONT), back);
    FetchOne(Instr(OpJump, before));
    if inc == [] {
      assert ForTail(inc, next, before) == back;
    } else {
      LeadB(inc, next, BRK, CONT);
      FirstOp(ForTail(inc, next, before));
    }
  }

  lemma {:induction false} FirstOp(bs: seq<byte>)
    requires bs != []
    ensures Fetch(bs, 0).Some? ==> OpByte(Fetch(bs, 0).value.op) == bs[0]
  {
    if Fetch(bs, 0).Some? {
      ByteOfOp(bs[0], Fetch(bs, 0).value.op);
    }
  }

  /** The loop up to its body. */
  lemma {:induction false} ForFrontDid(v0: View, v1: View, v2: View, v4: View, init: seq<Cmd>, until: Option<Term>,
                                       c1: seq<SValue>, c2: seq<SValue>)
    requires v1.code == v0.code + Encode(Plain(OpNull)) && v1.pool == v0.pool && DidB(v1, v2, init, c1)
    requires Did(v2, v4, TestCode(until, |v2.code|, 9999, BRK, CONT), c2, CODE_MAX, ShortO(until))
    ensures Did(v0, v4, ForFront(init, until, |v0.code|, 9999), c1 + c2, CODE_MAX, ShortB(init) && ShortO(until))
    ensures |v2.code| == |v0.code| + 1 + LenB(init)
  {
    hide Did, Stream, Encode, CodeB, LenB, ShortB, TestCode, ShortO;
    LengthB(v1, v2, init, c1);
    var n, a, t := Encode(Plain(OpNull)), CodeB(init, |v1.code|, BRK, CONT),
      TestCode(until, |v2.code|, 9999, BRK, CONT);
    DidEmit(v0, v1, Plain(OpNull), CODE_MAX);
    DidThen(v1, v2, v4, a, t, c1, c2, CODE_MAX + 1, CODE_MAX, CODE_MAX, ShortB(init), ShortO(until));
    DidThen(v0, v1, v4, n, a + t, [], c1 + c2, CODE_MAX, CODE_MAX, CODE_MAX, true, ShortB(init) && ShortO(until));
    assert [] + (c1 + c2) == c1 + c2;
  }

  lemma {:induction false} ForOpen(v0: View, v4: View, v6: View, v7: View, v8: View,
                                   init: seq<Cmd>, until: Option<Term>, inc: seq<Cmd>, b: seq<Cmd>,
                                   c12: seq<SValue>, c3: seq<SValue>, c4: seq<SValue>)
    requires Did(v0, v4, ForFront(init, until, |v0.code|, 9999), c12, CODE_MAX, ShortB(init) && ShortO(until))
    requires Did(v4, v6, CodeL(b, |v4.code|, BRK, CONT), c3, CODE_MAX, ShortB(b))
    requires DidB(v6, v7, inc, c4)
    requires v8.code == v7.code + Encode(Instr(OpJump, |v0.code| + 1 + LenB(init))) && v8.pool == v7.pool
    ensures DidLoop(v0, v8, ForFront(init, until, |v0.code|, 9999), b, BRK, CONT,
            ForTail(inc, |v6.code|, |v0.code| + 1 + LenB(init)), c12 + c3 + c4,
                    ShortB(init) && ShortO(until) && ShortB(b) && ShortB(inc))
    ensures |v4.code| == |v0.code| + 1 + LenB(init) + LenO(until) && |v6.code| == |v4.code| + LenL(b)
    ensures |v8.code| == |v6.code| + LenB(inc) + 3
  {
    hide Did, Stream, Encode, CodeB, LenB, CodeL, LenL, ShortT, ShortB, LenO, ShortO, ForFront;
    LengthB(v6, v7, inc, c4);
    var p := |v0.code|;
    var l, d, back := CodeL(b, |v4.code|, BRK, CONT), CodeB(inc, |v6.code|, BRK, CONT),
      Instr(OpJump, p + 1 + LenB(init));
    ForFrontStream(init, until, p, 9999);
    DidLength(v0, v4, ForFront(init, until, p, 9999), c12, CODE_MAX, ShortB(init) && ShortO(until));
    DidLength(v4, v6, l, c3, CODE_MAX, ShortB(b));
    DidThenEmit(v6, v7, v8, d, c4, back, CODE_MAX + 1, CODE_MAX, ShortB(inc));
    DidThen(v4, v6, v8, l, d + Encode(back), c3, c4, CODE_MAX, CODE_MAX, CODE_MAX, ShortB(b), ShortB(inc));
    DidThen(v0, v4, v8, ForFront(init, until, p, 9999), l + (d + Encode(back)), c12, c3 + c4, CODE_MAX, CODE_MAX,
            CODE_MAX,
            ShortB(init) && ShortO(until), ShortB(b) && ShortB(inc));
    assert c12 + (c3 + c4) == c12 + c3 + c4;
  }

  function ForHead(init: seq<Cmd>, c: Term, p: nat): seq<byte> {
    Encode(Plain(OpNull)) + (CodeB(init, p + 1, BRK, CONT) + CodeT(c, p + 1 + LenB(init), BRK, CONT))
  }

  lemma {:induction false} ForHeadStream(init: seq<Cmd>, c: Term, p: nat)
    ensures Stream(ForHead(init, c, p)) && |ForHead(init, c, p)| == 1 + LenB(init) + LenT(c)
  {
    hide Stream, Encode, CodeB, LenB, CodeT, LenT;
    RetargetB(init, p + 1, BRK, CONT, 0, 0);
    RetargetT(c, p + 1 + LenB(init), BRK, CONT, 0, 0);
    PatchPlain(Plain(OpNull), 0, 0);
    StreamCat(CodeB(init, p + 1, BRK, CONT), CodeT(c, p + 1 + LenB(init), BRK, CONT));
    StreamCat(Encode(Plain(OpNull)), CodeB(init, p + 1, BRK, CONT) + CodeT(c, p + 1 + LenB(init), BRK, CONT));
  }

  lemma {:induction false} NoTestDid(v: View)
    ensures Did(v, v, TestCode(None, |v.code|, 9999, BRK, CONT), [], CODE_MAX, ShortO(None))
  {
    DidNothing(v, CODE_MAX);
  }

  lemma {:induction false} TestDid(v0: View, v1: View, v2: View, c: Term, cs: seq<SValue>)
    requires DidT(v0, v1, c, cs) && v2.code == v1.code + Encode(Instr(OpJumpNotTrue, 9999)) && v2.pool == v1.pool
    ensures Did(v0, v2, TestCode(Some(c), |v0.code|, 9999, BRK, CONT), cs, CODE_MAX, ShortO(Some(c)))
    ensures |v1.code| == |v0.code| + LenT(c)
  {
    hide Did, Encode, CodeT, LenT, ShortT;
    LengthT(v0, v1, c, cs);
    DidThenEmit(v0, v1, v2, CodeT(c, |v0.code|, BRK, CONT), cs, Instr(OpJumpNotTrue, 9999), CODE_MAX, CODE_MAX,
                ShortT(c));
  }

  lemma {:induction false} NoTestFront(init: seq<Cmd>, p: nat, target: nat, target': nat)
    ensures ForFront(init, None, p, target) == ForFront(init, None, p, target')
  {
    hide CodeB, LenB;
  }

  /** Where the test of the loop is: what precedes its jump, and what follows it. */
  lemma {:induction false} ForSplit(init: seq<Cmd>, c: Term, p: nat, target: nat, rest: seq<byte>)
    ensures ForFront(init, Some(c), p, target) + rest == ForHead(init, c, p)
            + (Encode(Instr(OpJumpNotTrue, target)) + rest)
  {
    hide Encode, CodeB, LenB, CodeT, LenT;
    Regroup5(Encode(Plain(OpNull)), CodeB(init, p + 1, BRK, CONT), CodeT(c, p + 1 + LenB(init), BRK, CONT),
             Encode(Instr(OpJumpNotTrue, target)), rest);
  }

  lemma {:induction false} Regroup5(n: seq<byte>, i: seq<byte>, t: seq<byte>, j: seq<byte>, r: seq<byte>)
    ensures (n + (i + (t + j))) + r == (n + (i + t)) + (j + r)
  {
  }

  lemma {:induction false} ForOperand(v0: View, v8: View, init: seq<Cmd>, c: Term, b: seq<Cmd>, tail: seq<byte>,
                                      cs: seq<SValue>, short: bool)
    requires DidLoop(v0, v8, ForFront(init, Some(c), |v0.code|, 9999), b, BRK, CONT, tail, cs, short)
    ensures var q := |v0.code| + 1 + LenB(init) + LenT(c);
            Fetch(v8.code, q).Some? && Fetch(v8.code, q).value.op == OpJumpNotTrue
  {
    hide Did, Stream, Encode, CodeB, LenB, CodeT, LenT, CodeL, Fetch, ForFront, ForHead;
    var p := |v0.code|;
    var rest := CodeL(b, p + |ForFront(init, Some(c), p, 9999)|, BRK, CONT) + tail;
    ForSplit(init, c, p, 9999, rest);
    ForHeadStream(init, c, p);
    DidOperand(v0, v8, ForHead(init, c, p), Instr(OpJumpNotTrue, 9999), rest, cs, CODE_MAX, short);
  }

  lemma {:induction false} ForTested(v0: View, v8: View, v9: View, init: seq<Cmd>, c: Term, b: seq<Cmd>, target: nat,
                                     tail: seq<byte>, cs: seq<SValue>, short: bool)
    requires DidLoop(v0, v8, ForFront(init, Some(c), |v0.code|, 9999), b, BRK, CONT, tail, cs, short)
    requires v9.pool == v8.pool
    requires Changed(v8.code, v9.code, |v0.code| + 1 + LenB(init) + LenT(c), Instr(OpJumpNotTrue, 9999), target)
    ensures DidLoop(v0, v9, ForFront(init, Some(c), |v0.code|, target), b, BRK, CONT, tail, cs, short)
    ensures |v9.code| == |v8.code|
  {
    hide Did, Stream, Encode, CodeB, LenB, CodeT, LenT, CodeL, Fetch, Changed, ForFront, ForHead;
    var p := |v0.code|;
    ForFrontStream(init, Some(c), p, 9999);
    ForFrontStream(init, Some(c), p, target);
    var rest := CodeL(b, p + |ForFront(init, Some(c), p, 9999)|, BRK, CONT) + tail;
    ForSplit(init, c, p, 9999, rest);
    ForSplit(init, c, p, target, rest);
    ForHeadStream(init, c, p);
    DidChange(v0, v8, v9, ForHead(init, c, p), Instr(OpJumpNotTrue, 9999), target, rest, cs, CODE_MAX, short);
    SameLength(v8.code, v9.code, p + 1 + LenB(init) + LenT(c), Instr(OpJumpNotTrue, 9999), target);
  }

  lemma {:induction false} SameLength(c1: seq<byte>, c2: seq<byte>, q: nat, i: Instr, n: nat)
    requires Changed(c1, c2, q, i, n)
    ensures |c1| == |c2|
  {
  }

  lemma {:induction false} ForWhole(v0: View, v11: View, init: seq<Cmd>, until: Option<Term>, inc: seq<Cmd>,
                                    b: seq<Cmd>, cs: seq<SValue>)
    requires var p := |v0.code|;
             var before := p + 1 + LenB(init);
             var next := before + LenO(until) + LenL(b);
             var after := next + LenB(inc) + 3;
             DidLoop(v0, v11, ForFront(init, until, p, after), b, after, next, ForTail(inc, next, before), cs,
                     ShortB(init) && ShortO(until) && ShortB(b) && ShortB(inc))
    ensures DidT(v0, v11, ForLoop(init, until, inc, b), cs)
  {
    hide Did, Stream, Encode, CodeB, LenB, CodeL, LenL, TestCode, LenO;
    var p := |v0.code|;
    var before := p + 1 + LenB(init);
    var start := before + LenO(until);
    var next := start + LenL(b);
    var after := next + LenB(inc) + 3;
    ForFrontStream(init, until, p, after);
    var l, t := CodeL(b, start, after, next), TestCode(until, before, after, BRK, CONT);
    Regroup3(Encode(Plain(OpNull)), CodeB(init, p + 1, BRK, CONT), t, l + ForTail(inc, next, before));
    ForCode(init, until, inc, b, p);
  }

  lemma {:induction false} ForCode(init: seq<Cmd>, until: Option<Term>, inc: seq<Cmd>, b: seq<Cmd>, p: nat)
    ensures var before := p + 1 + LenB(init);
            var start := before + LenO(until);
            var next := start + LenL(b);
            var after := next + LenB(inc) + 3;
            CodeT(ForLoop(init, until, inc, b), p, BRK, CONT)
            == Encode(Plain(OpNull)) + (CodeB(init, p + 1, BRK, CONT)
               + (TestCode(until, before, after, BRK, CONT)
                 + (CodeL(b, start, after, next) + ForTail(inc, next, before))))
    ensures ShortT(ForLoop(init, until, inc, b)) == (ShortB(init) && ShortO(until) && ShortB(b) && ShortB(inc))
  {
    hide CodeL, LenL, CodeB, LenB, Encode, ShortB;
    assert CodeT(ForLoop(init, until, inc, b), p, BRK, CONT) == CodeFor(ForLoop(init, until, inc, b), p, BRK, CONT);
  }

  // ---- functions ----

  /** A missing `else`. */
  lemma {:induction false} NullBranchDid(v0: View, v1: View)
    requires v1.code == v0.code + Encode(Plain(OpNull)) && v1.pool == v0.pool
    ensures DidV(v0, v1, [Eval(Null)], [])
  {
    hide Did, Encode;
    var b := [Eval(Null)];
    assert b[0] == Eval(Null) && b[1..] == [];
    DidEmit(v0, v1, Plain(OpNull), CODE_MAX);
  }

  predicate ValueDone(r: Elab<seq<Cmd>>, err: Option<CompileError>, v0: View, v1: View) {
    match r
    case Bad(x) => err == Some(x)
    case Good(b, s, cs) => err == None && v1.symbols == s && |v1.pool| == |v0.pool| + |cs| && DidV(v0, v1, b, cs)
  }

  /** The finished code of a function, and how its end was made. */
  lemma {:induction false} FunctionDid(v0: View, v1: View, v2: View, b: seq<Cmd>, cs: seq<SValue>)
    requires DidB(v0, v1, b, cs) && v0.code == [] && v2.pool == v1.pool
    requires if EndsInEval(b) then |v1.code| > 0 && v2.code == v1.code[..|v1.code| - 1] + Encode(Plain(OpReturnValue))
             else if EndsInReturn(b) then v2.code == v1.code
             else v2.code == v1.code + Encode(Plain(OpReturn))
    ensures |v2.code| == |CodeF(b)| && (|v2.code| <= CODE_MAX ==> v2.code == CodeF(b))
  {
    hide CodeV, CodeB, ShortB, Encode, Alike, LenB;
    LengthB(v0, v1, b, cs);
    BlockIsValueThenPop(b, 0, BRK, CONT);
    if !EndsInEval(b) {
      assert CodeV(b, 0, BRK, CONT) + [] == CodeV(b, 0, BRK, CONT);
    }
    if |v2.code| <= CODE_MAX {
      assert v1.code == [] + CodeB(b, 0, BRK, CONT) == CodeB(b, 0, BRK, CONT);
    }
  }

  lemma {:induction false} LambdaDid(v0: View, v1: View, f: Fun, c1: seq<SValue>, code: seq<byte>)
    requires |v1.pool| == |v0.pool| + |c1| + 1 && PoolGrown(v0.pool, v1.pool[..|v1.pool| - 1], c1, ShortB(f.body))
    requires v1.pool[|v1.pool| - 1] == VFun(Compiled(code, f.numLocals))
    requires |code| == |CodeF(f.body)| && (|code| <= CODE_MAX ==> code == CodeF(f.body))
    requires v1.code == v0.code + Encode(Instr(OpConst, |v0.pool| + |c1|))
    ensures DidT(v0, v1, Lambda(|v0.pool| + |c1|, f), c1 + [VFun(f)])
  {
    hide Grown, Encode, CodeF, ShortB;
    GrownEmit(v0.code, Instr(OpConst, |v0.pool| + |c1|), CODE_MAX);
    assert v0.pool <= v1.pool;
    assert ShortF(f) == ShortB(f.body);
    if |CodeF(f.body)| <= CODE_MAX && ShortB(f.body) {
      assert MapVs(Lower, c1 + [VFun(f)]) == MapVs(Lower, c1) + [LowV(VFun(f))];
      assert v1.pool == v1.pool[..|v1.pool| - 1] + [v1.pool[|v1.pool| - 1]];
    }
  }
}
