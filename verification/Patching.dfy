/**
 Sweeps over bytecode: a buffer of instructions reads back as what was emitted,
 and patching jump operands during a sweep re-targets exactly the jumps meant.
 */
module Patching {
  import opened Wrappers
  import opened Opcodes
  import opened Core
  import opened Codegen

  /** The bytes are whole instructions: a walk by 1 + operand width ends at their end. */
  predicate Stream(bs: seq<byte>)
    decreases |bs|
  {
    bs == [] || (match Fetch(bs, 0) case None => false case Some(i) => Stream(bs[Size(i)..]))
  }

  /** The instructions that such a walk reads. */
  function Listing(bs: seq<byte>): (xs: seq<Instr>)
    requires Stream(bs)
    decreases |bs|
  {
    if bs == [] then [] else var i := Fetch(bs, 0).value; [i] + Listing(bs[Size(i)..])
  }

  function EncodeAll(xs: seq<Instr>): seq<byte> {
    if xs == [] then [] else Encode(xs[0]) + EncodeAll(xs[1..])
  }

  /** Reading at an offset is reading at the start of what follows it. */
  lemma {:induction false} FetchAt(before: seq<byte>, bs: seq<byte>)
    ensures Fetch(before + bs, |before|) == Fetch(bs, 0)
  {
    var all := before + bs;
    assert forall k | 0 <= k < |bs| :: all[|before| + k] == bs[k];
  }

  lemma {:induction false} FetchPrefix(bs: seq<byte>, more: seq<byte>)
    requires Fetch(bs, 0).Some?
    ensures Fetch(bs + more, 0) == Fetch(bs, 0)
  {
  }

  /** What is written out of range of its operand reads back cut down to its width. */
  function Cut(i: Instr): (j: Instr)
    ensures Fits(j) && Size(j) == Size(i) && (Fits(i) ==> j == i)
  {
    Instr(i.op, match Width(i.op) case 0 => 0 case 1 => i.arg % 256 case _ => i.arg % 0x1_0000)
  }

  lemma {:induction false} TwoBytes(n: nat)
    ensures n % 0x1_0000 / 256 % 256 == n / 256 % 256 && n % 0x1_0000 % 256 == n % 256
  {
    var q, r := n / 0x1_0000, n % 0x1_0000;
    assert n == 256 * (256 * q + r / 256) + r % 256;
    assert n / 256 == 256 * q + r / 256;
  }

  lemma {:induction false} CutEncodes(i: Instr)
    ensures Encode(Cut(i)) == Encode(i)
  {
    hide OpByte;
    if Width(i.op) == 2 {
      TwoBytes(i.arg);
    }
  }

  lemma {:induction false} FetchOne(i: Instr)
    ensures Fetch(Encode(i), 0) == Some(Cut(i))
  {
    CutEncodes(i);
    FetchEncoded([], Cut(i), []);
    assert [] + Encode(i) + [] == Encode(i);
  }

  /** Any instructions, emitted one after the other, are read back, operands cut to their width. */
  lemma {:induction false} SweepReadsBack(xs: seq<Instr>)
    ensures Stream(EncodeAll(xs)) && |Listing(EncodeAll(xs))| == |xs|
    ensures forall k | 0 <= k < |xs| :: Listing(EncodeAll(xs))[k] == Cut(xs[k])
  {
    if xs != [] {
      var bs, rest := EncodeAll(xs), EncodeAll(xs[1..]);
      SweepReadsBack(xs[1..]);
      FetchOne(xs[0]);
      FetchPrefix(Encode(xs[0]), rest);
      assert bs[Size(xs[0])..] == rest;
    }
  }

  /** And whatever a sweep can read was emitted so: no other instructions give the same bytes. */
  lemma {:induction false} ListingEncodes(bs: seq<byte>)
    requires Stream(bs)
    ensures EncodeAll(Listing(bs)) == bs
    decreases |bs|
  {
    hide Fetch, Encode, Size;
    if bs != [] {
      var i := Fetch(bs, 0).value;
      var rest := bs[Size(i)..];
      ListingEncodes(rest);
      EncodeAllFirst(i, Listing(rest));
      EncodeFetched(bs);
      assert bs[..Size(i)] + rest == bs;
    }
  }

  lemma {:induction false} EncodeAllFirst(i: Instr, xs: seq<Instr>)
    ensures EncodeAll([i] + xs) == Encode(i) + EncodeAll(xs)
  {
    hide Encode;
    assert ([i] + xs)[1..] == xs;
  }

  lemma {:induction false} EncodeFetched(bs: seq<byte>)
    requires Fetch(bs, 0).Some?
    ensures Encode(Fetch(bs, 0).value) == bs[..Size(Fetch(bs, 0).value)]
  {
    var i := Fetch(bs, 0).value;
    assert bs[0] == OpByte(i.op) by { ByteOfOp(bs[0], i.op); }
  }

  lemma {:induction false} ByteOfOp(b: byte, op: Opcode)
    requires OpOf(b) == Some(op)
    ensures OpByte(op) == b
  {
  }

  lemma {:induction false} StreamCat(a: seq<byte>, b: seq<byte>)
    requires Stream(a)
    ensures Stream(a + b) == Stream(b)
    ensures Stream(b) ==> Listing(a + b) == Listing(a) + Listing(b)
    decreases |a|
  {
    if a == [] {
      assert a + b == b;
    } else {
      var n := Size(Fetch(a, 0).value);
      FetchPrefix(a, b);
      assert (a + b)[n..] == a[n..] + b;
      StreamCat(a[n..], b);
    }
  }

  // ---- patching ----

  /** One instruction of a sweep: a jump to the placeholder becomes one to v. */
  function PatchOne(i: Instr, placeholder: nat, v: nat): Instr {
    if i == Instr(OpJump, placeholder) then Instr(OpJump, v) else i
  }

  function Patch(bs: seq<byte>, placeholder: nat, v: nat): (r: seq<byte>)
    requires Stream(bs)
    ensures |r| == |bs|
    decreases |bs|
  {
    if bs == [] then [] else
    var i := Fetch(bs, 0).value;
    Encode(PatchOne(i, placeholder, v)) + Patch(bs[Size(i)..], placeholder, v)
  }

  lemma {:induction false} PatchCat(a: seq<byte>, b: seq<byte>, x: nat, v: nat)
    requires Stream(a) && Stream(b)
    ensures Stream(a + b) && Patch(a + b, x, v) == Patch(a, x, v) + Patch(b, x, v)
    decreases |a|
  {
    hide Fetch, Encode;
    StreamCat(a, b);
    if a == [] {
      assert a + b == b;
    } else {
      var n := Size(Fetch(a, 0).value);
      FetchPrefix(a, b);
      assert (a + b)[n..] == a[n..] + b;
      PatchCat(a[n..], b, x, v);
      assert Patch(a + b, x, v) == Encode(PatchOne(Fetch(a, 0).value, x, v)) + Patch(a[n..] + b, x, v);
    }
  }

  lemma {:induction false} PatchEncoded(i: Instr, x: nat, v: nat)
    ensures Stream(Encode(i)) && Patch(Encode(i), x, v) == Encode(PatchOne(Cut(i), x, v))
  {
    FetchOne(i);
    assert Encode(i)[Size(i)..] == [];
  }

  /** A sweep that stops at the first instruction at or past byte n. */
  function PatchUntil(bs: seq<byte>, n: nat, placeholder: nat, v: nat): (r: seq<byte>)
    requires Stream(bs)
    ensures |r| == |bs|
    decreases |bs|
  {
    if n == 0 || bs == [] then bs else
    var i := Fetch(bs, 0).value;
    Encode(PatchOne(i, placeholder, v))
    + PatchUntil(bs[Size(i)..], if n < Size(i) then 0 else n - Size(i), placeholder, v)
  }

  lemma {:induction false} PatchUntilCat(a: seq<byte>, b: seq<byte>, k: nat, x: nat, v: nat)
    requires Stream(a) && Stream(b)
    ensures Stream(a + b) && PatchUntil(a + b, |a| + k, x, v) == Patch(a, x, v) + PatchUntil(b, k, x, v)
    decreases |a|
  {
    hide Fetch, Encode;
    StreamCat(a, b);
    if a == [] {
      assert a + b == b;
    } else {
      var n := Size(Fetch(a, 0).value);
      FetchPrefix(a, b);
      assert (a + b)[n..] == a[n..] + b;
      PatchUntilCat(a[n..], b, k, x, v);
    }
  }

  /** One instruction of a sweep that is not what it looks for. */
  lemma {:induction false} PatchUntilOther(bs: seq<byte>, x: nat, v: nat)
    requires Stream(bs) && bs != [] && Fetch(bs, 0).value != Instr(OpJump, x)
    ensures PatchUntil(bs, 1, x, v) == bs
  {
    EncodeFetched(bs);
  }

  /** x, or what takes its place. */
  function Swap(n: nat, x: nat, v: nat): nat { if n == x then v else n }

  /** Code up to here has targets of its own below both placeholders. */
  const CODE_MAX: nat := 9997

  predicate IsPlaceholder(x: nat) { x == JUMP_PLACEHOLDER_BREAK || x == JUMP_PLACEHOLDER_CONTINUE }

  lemma {:induction false} PatchPlain(i: Instr, x: nat, v: nat)
    ensures Stream(Encode(i))
    ensures IsPlaceholder(x) && (i.op != OpJump || i.arg < JUMP_PLACEHOLDER_CONTINUE)
            ==> Patch(Encode(i), x, v) == Encode(i)
  {
    hide Encode, Stream, Patch;
    PatchEncoded(i, x, v);
    CutEncodes(i);
  }

  lemma {:induction false} PatchJump(n: nat, x: nat, v: nat)
    ensures Stream(Encode(Instr(OpJump, n)))
    ensures n < 0x1_0000 ==> Patch(Encode(Instr(OpJump, n)), x, v) == Encode(Instr(OpJump, Swap(n, x, v)))
  {
    hide Encode, Stream, Patch;
    PatchEncoded(Instr(OpJump, n), x, v);
  }

  /**
   Code is whole instructions, and while it stays below the placeholders,
   patching one of them gives the code for the real target: jumps that belong to
   inner loops, and all others, stay as they are.
   */
  lemma {:induction false} RetargetT(t: Term, p: nat, brk: nat, cont: nat, x: nat, v: nat)
    ensures Stream(CodeT(t, p, brk, cont))
    ensures p + LenT(t) <= CODE_MAX && brk < 0x1_0000 && cont < 0x1_0000 && IsPlaceholder(x) ==>
              Patch(CodeT(t, p, brk, cont), x, v) == CodeT(t, p, Swap(brk, x, v), Swap(cont, x, v))
    decreases t, 1
  {
    hide Encode, Stream, Patch, CodeTs, CodeC, CodeB, CodeV, CodeL, LenTs, LenC, LenB, LenV, LenL, CodeCond, CodeLoop,
         CodeFor;
    var brk', cont' := Swap(brk, x, v), Swap(cont, x, v);
    match t
    case Const(k, _) => PatchPlain(Instr(OpConst, k), x, v);
    case Lambda(k, _) => PatchPlain(Instr(OpConst, k), x, v);
    case Null => PatchPlain(Plain(OpNull), x, v);
    case Truth(b) => PatchPlain(Plain(if b then OpTrue else OpFalse), x, v);
    case Get(n) => PatchPlain(GetOp(n), x, v);
    case Prim(op, args) =>
      RetargetTs(args, p, brk, cont, x, v);
      PatchPlain(Operator(op, |args|), x, v);
      PatchCat(CodeTs(args, p, brk, cont), Encode(Operator(op, |args|)), x, v);
    case Bump(_, _, _) => RetargetBump(t, x, v);
    case Put(n, e) =>
      RetargetT(e, p, brk, cont, x, v);
      PatchPlain(SetOp(n), x, v);
      PatchPlain(GetOp(n), x, v);
      PatchCat(Encode(SetOp(n)), Encode(GetOp(n)), x, v);
      PatchCat(CodeT(e, p, brk, cont), Encode(SetOp(n)) + Encode(GetOp(n)), x, v);
    case Cond(_, _, _) => RetargetCond(t, p, brk, cont, x, v);
    case Loop(_, _) => RetargetLoop(t, p, brk, cont, x, v);
    case ForLoop(_, _, _, _) => RetargetFor(t, p, brk, cont, x, v);
    case Call(_, _) => RetargetCall(t, p, brk, cont, x, v);
  }

  lemma {:induction false} RetargetCall(t: Term, p: nat, brk: nat, cont: nat, x: nat, v: nat)
    requires t.Call?
    ensures Stream(CodeT(t, p, brk, cont))
    ensures p + LenT(t) <= CODE_MAX && brk < 0x1_0000 && cont < 0x1_0000 && IsPlaceholder(x) ==>
              Patch(CodeT(t, p, brk, cont), x, v) == CodeT(t, p, Swap(brk, x, v), Swap(cont, x, v))
    decreases t, 0
  {
    hide Encode, Stream, Patch, CodeTs, LenTs;
    var Call(f, args) := t;
    var q, call := p + LenT(f), Encode(Instr(OpCall, |args|));
    RetargetT(f, p, brk, cont, x, v);
    RetargetTs(args, q, brk, cont, x, v);
    PatchPlain(Instr(OpCall, |args|), x, v);
    PatchCat(CodeTs(args, q, brk, cont), call, x, v);
    PatchCat(CodeT(f, p, brk, cont), CodeTs(args, q, brk, cont) + call, x, v);
  }

  lemma {:induction false} RetargetBump(t: Term, x: nat, v: nat)
    requires t.Bump?
    ensures Stream(CodeT(t, 0, 0, 0))
    ensures IsPlaceholder(x) ==> Patch(CodeT(t, 0, 0, 0), x, v) == CodeT(t, 0, 0, 0)
  {
    hide Encode, Stream, Patch, CodeTs, CodeC, CodeB, CodeV, CodeL, CodeCond, CodeLoop, CodeFor;
    var get, one, step, save := Encode(GetOp(t.v)), Encode(Instr(OpConst, t.k)), Encode(Plain(t.step)),
      Encode(SetOp(t.v));
    PatchPlain(GetOp(t.v), x, v);
    PatchPlain(Instr(OpConst, t.k), x, v);
    PatchPlain(Plain(t.step), x, v);
    PatchPlain(SetOp(t.v), x, v);
    PatchCat(step, save, x, v);
    PatchCat(one, step + save, x, v);
    PatchCat(get, one + (step + save), x, v);
    PatchCat(get, get + (one + (step + save)), x, v);
  }

  lemma {:induction false} RetargetCond(t: Term, p: nat, brk: nat, cont: nat, x: nat, v: nat)
    requires t.Cond?
    ensures Stream(CodeCond(t, p, brk, cont))
    ensures p + LenT(t) <= CODE_MAX && brk < 0x1_0000 && cont < 0x1_0000 && IsPlaceholder(x) ==>
              Patch(CodeCond(t, p, brk, cont), x, v) == CodeCond(t, p, Swap(brk, x, v), Swap(cont, x, v))
    decreases t, 0
  {
    hide Encode, Stream, Patch, CodeT, CodeTs, CodeC, CodeB, CodeV, CodeL, LenTs, LenC, LenB, LenV, LenL;
    var conseq := p + LenT(t.test) + 3;
    var alt := conseq + LenV(t.conseq) + 3;
    var test, over := Instr(OpJumpNotTrue, alt), Instr(OpJump, alt + LenV(t.alt));
    var a, b, c := CodeT(t.test, p, brk, cont), CodeV(t.conseq, conseq, brk, cont), CodeV(t.alt, alt, brk, cont);
    RetargetT(t.test, p, brk, cont, x, v);
    RetargetV(t.conseq, conseq, brk, cont, x, v);
    RetargetV(t.alt, alt, brk, cont, x, v);
    PatchPlain(test, x, v);
    PatchPlain(over, x, v);
    PatchCat(Encode(over), c, x, v);
    PatchCat(b, Encode(over) + c, x, v);
    PatchCat(Encode(test), b + (Encode(over) + c), x, v);
    PatchCat(a, Encode(test) + (b + (Encode(over) + c)), x, v);
  }

  lemma {:induction false} RetargetLoop(t: Term, p: nat, brk: nat, cont: nat, x: nat, v: nat)
    requires t.Loop?
    ensures Stream(CodeLoop(t, p, brk, cont))
    ensures p + LenT(t) <= CODE_MAX && brk < 0x1_0000 && cont < 0x1_0000 && IsPlaceholder(x) ==>
              Patch(CodeLoop(t, p, brk, cont), x, v) == CodeLoop(t, p, Swap(brk, x, v), Swap(cont, x, v))
    decreases t, 0
  {
    hide Encode, Stream, Patch, CodeT, CodeTs, CodeC, CodeB, CodeV, CodeL, LenTs, LenC, LenB, LenV, LenL;
    var before := p + 1;
    var start := before + LenT(t.test) + 3;
    var after := start + LenL(t.body) + 3;
    var test, back := Instr(OpJumpNotTrue, after), Instr(OpJump, before);
    var a, b := CodeT(t.test, before, brk, cont), CodeL(t.body, start, after, before);
    RetargetT(t.test, before, brk, cont, x, v);
    RetargetL(t.body, start, after, before, x, v);
    PatchPlain(Plain(OpNull), x, v);
    PatchPlain(test, x, v);
    PatchPlain(back, x, v);
    PatchCat(b, Encode(back), x, v);
    PatchCat(Encode(test), b + Encode(back), x, v);
    PatchCat(a, Encode(test) + (b + Encode(back)), x, v);
    PatchCat(Encode(Plain(OpNull)), a + (Encode(test) + (b + Encode(back))), x, v);
  }

  lemma {:induction false} RetargetFor(t: Term, p: nat, brk: nat, cont: nat, x: nat, v: nat)
    requires t.ForLoop?
    ensures Stream(CodeFor(t, p, brk, cont))
    ensures p + LenT(t) <= CODE_MAX && brk < 0x1_0000 && cont < 0x1_0000 && IsPlaceholder(x) ==>
              Patch(CodeFor(t, p, brk, cont), x, v) == CodeFor(t, p, Swap(brk, x, v), Swap(cont, x, v))
    decreases t, 0
  {
    hide Encode, Stream, Patch, CodeT, CodeTs, CodeC, CodeB, CodeV, CodeL, LenTs, LenC, LenB, LenV, LenL;
    var ForLoop(init, until, inc, body) := t;
    var before := p + 1 + LenB(init);
    var start := before + (match until case None => 0 case Some(c) => LenT(c) + 3);
    var next := start + LenL(body);
    var after := next + LenB(inc) + 3;
    var back, first := Encode(Instr(OpJump, before)), Encode(Plain(OpNull));
    var a, c, d := CodeB(init, p + 1, brk, cont), CodeL(body, start, after, next), CodeB(inc, next, brk, cont);
    var b := match until case None => []
             case Some(c) => CodeT(c, before, brk, cont) + Encode(Instr(OpJumpNotTrue, after));
    RetargetB(init, p + 1, brk, cont, x, v);
    RetargetL(body, start, after, next, x, v);
    RetargetB(inc, next, brk, cont, x, v);
    match until {
      case None => PatchNothing(x, v);
      case Some(e) =>
        RetargetT(e, before, brk, cont, x, v);
        PatchPlain(Instr(OpJumpNotTrue, after), x, v);
        PatchCat(CodeT(e, before, brk, cont), Encode(Instr(OpJumpNotTrue, after)), x, v);
    }
    PatchPlain(Plain(OpNull), x, v);
    PatchPlain(Instr(OpJump, before), x, v);
    PatchCat(d, back, x, v);
    PatchCat(c, d + back, x, v);
    PatchCat(b, c + (d + back), x, v);
    PatchCat(a, b + (c + (d + back)), x, v);
    PatchCat(first, a + (b + (c + (d + back))), x, v);
  }

  lemma {:induction false} PatchNothing(x: nat, v: nat)
    ensures Stream([]) && Patch([], x, v) == []
  {
  }

  lemma {:induction false} RetargetTs(ts: seq<Term>, p: nat, brk: nat, cont: nat, x: nat, v: nat)
    ensures Stream(CodeTs(ts, p, brk, cont))
    ensures p + LenTs(ts) <= CODE_MAX && brk < 0x1_0000 && cont < 0x1_0000 && IsPlaceholder(x) ==>
              Patch(CodeTs(ts, p, brk, cont), x, v) == CodeTs(ts, p, Swap(brk, x, v), Swap(cont, x, v))
    decreases ts, 0
  {
    hide Encode, Stream, Patch, CodeT, LenT;
    if ts == [] {
      PatchNothing(x, v);
    } else {
      var q := p + LenT(ts[0]);
      RetargetT(ts[0], p, brk, cont, x, v);
      RetargetTs(ts[1..], q, brk, cont, x, v);
      PatchCat(CodeT(ts[0], p, brk, cont), CodeTs(ts[1..], q, brk, cont), x, v);
    }
  }

  lemma {:induction false} RetargetC(c: Cmd, p: nat, brk: nat, cont: nat, x: nat, v: nat)
    ensures Stream(CodeC(c, p, brk, cont))
    ensures p + LenC(c) <= CODE_MAX + 1 && brk < 0x1_0000 && cont < 0x1_0000 && IsPlaceholder(x) ==>
              Patch(CodeC(c, p, brk, cont), x, v) == CodeC(c, p, Swap(brk, x, v), Swap(cont, x, v))
    decreases c, 0
  {
    hide Encode, Stream, Patch, CodeT, LenT;
    match c
    case Define(n, e) =>
      RetargetT(e, p, brk, cont, x, v);
      PatchPlain(SetOp(n), x, v);
      PatchCat(CodeT(e, p, brk, cont), Encode(SetOp(n)), x, v);
    case Return(e) =>
      RetargetT(e, p, brk, cont, x, v);
      PatchPlain(Plain(OpReturnValue), x, v);
      PatchCat(CodeT(e, p, brk, cont), Encode(Plain(OpReturnValue)), x, v);
    case Eval(e) =>
      RetargetT(e, p, brk, cont, x, v);
      PatchPlain(Plain(OpPop), x, v);
      PatchCat(CodeT(e, p, brk, cont), Encode(Plain(OpPop)), x, v);
    case Break =>
      PatchPlain(Plain(OpNull), x, v);
      PatchJump(brk, x, v);
      PatchCat(Encode(Plain(OpNull)), Encode(Instr(OpJump, brk)), x, v);
    case Continue =>
      PatchPlain(Plain(OpNull), x, v);
      PatchJump(cont, x, v);
      PatchCat(Encode(Plain(OpNull)), Encode(Instr(OpJump, cont)), x, v);
  }

  lemma {:induction false} RetargetCV(c: Cmd, p: nat, brk: nat, cont: nat, x: nat, v: nat)
    ensures Stream(CodeCV(c, p, brk, cont))
    ensures p + LenCV(c) <= CODE_MAX && brk < 0x1_0000 && cont < 0x1_0000 && IsPlaceholder(x) ==>
              Patch(CodeCV(c, p, brk, cont), x, v) == CodeCV(c, p, Swap(brk, x, v), Swap(cont, x, v))
    decreases c, 1
  {
    hide Stream, Patch, CodeT, CodeC, LenT;
    if c.Eval? {
      RetargetT(c.e, p, brk, cont, x, v);
    } else {
      RetargetC(c, p, brk, cont, x, v);
    }
  }

  lemma {:induction false} RetargetB(b: seq<Cmd>, p: nat, brk: nat, cont: nat, x: nat, v: nat)
    ensures Stream(CodeB(b, p, brk, cont))
    ensures p + LenB(b) <= CODE_MAX + 1 && brk < 0x1_0000 && cont < 0x1_0000 && IsPlaceholder(x) ==>
              Patch(CodeB(b, p, brk, cont), x, v) == CodeB(b, p, Swap(brk, x, v), Swap(cont, x, v))
    decreases b, 0
  {
    hide Encode, Stream, Patch, CodeC, LenC;
    if b == [] {
      PatchNothing(x, v);
    } else {
      var q := p + LenC(b[0]);
      RetargetC(b[0], p, brk, cont, x, v);
      RetargetB(b[1..], q, brk, cont, x, v);
      PatchCat(CodeC(b[0], p, brk, cont), CodeB(b[1..], q, brk, cont), x, v);
    }
  }

  lemma {:induction false} RetargetV(b: seq<Cmd>, p: nat, brk: nat, cont: nat, x: nat, v: nat)
    ensures Stream(CodeV(b, p, brk, cont))
    ensures p + LenV(b) <= CODE_MAX && brk < 0x1_0000 && cont < 0x1_0000 && IsPlaceholder(x) ==>
              Patch(CodeV(b, p, brk, cont), x, v) == CodeV(b, p, Swap(brk, x, v), Swap(cont, x, v))
    decreases b, 0
  {
    hide Encode, Stream, Patch, CodeC, CodeT, LenC, LenT;
    if b == [] {
      PatchNothing(x, v);
    } else if |b| == 1 {
      RetargetCV(b[0], p, brk, cont, x, v);
    } else {
      var q := p + LenC(b[0]);
      RetargetC(b[0], p, brk, cont, x, v);
      RetargetV(b[1..], q, brk, cont, x, v);
      PatchCat(CodeC(b[0], p, brk, cont), CodeV(b[1..], q, brk, cont), x, v);
    }
  }

  lemma {:induction false} RetargetL(b: seq<Cmd>, p: nat, brk: nat, cont: nat, x: nat, v: nat)
    ensures Stream(CodeL(b, p, brk, cont))
    ensures p + LenL(b) <= CODE_MAX && brk <= CODE_MAX && cont <= CODE_MAX && IsPlaceholder(x) ==>
              Patch(CodeL(b, p, brk, cont), x, v) == CodeL(b, p, brk, cont)
    decreases b, 1
  {
    hide Encode, Stream, Patch, CodeV, LenV;
    if b == [] {
      PatchNothing(x, v);
    } else {
      var code := CodeV(b, p + 1, brk, cont);
      var last := if EndsInEval(b) then [] else Encode(Plain(OpNull));
      RetargetV(b, p + 1, brk, cont, x, v);
      PatchPlain(Plain(OpPop), x, v);
      PatchPlain(Plain(OpNull), x, v);
      PatchNothing(x, v);
      PatchCat(code, last, x, v);
      PatchCat(Encode(Plain(OpPop)), code + last, x, v);
    }
  }

  // ---- what code starts with ----

  predicate LeadsWithoutJump(bs: seq<byte>) { bs != [] && bs[0] != OpByte(OpJump) }

  lemma {:induction false} LeadCat(a: seq<byte>, b: seq<byte>)
    requires LeadsWithoutJump(a)
    ensures LeadsWithoutJump(a + b)
  {
  }

  /** Terms that do not start with another term. */
  lemma {:induction false} LeadLeaf(t: Term, p: nat, brk: nat, cont: nat)
    requires !t.Put? && !t.Cond? && !t.Call? && (t.Prim? ==> t.args == [])
    ensures LeadsWithoutJump(CodeT(t, p, brk, cont))
  {
    hide LenT, LenTs, LenV, LenL, LenB, CodeV, CodeL, CodeB;
    if t.Prim? {
      assert CodeTs(t.args, p, brk, cont) == [];
    }
  }

  lemma {:induction false} LeadCond(t: Term, p: nat, brk: nat, cont: nat)
    requires t.Cond? && LeadsWithoutJump(CodeT(t.test, p, brk, cont))
    ensures LeadsWithoutJump(CodeT(t, p, brk, cont))
  {
    hide LenT, LenV, CodeV, Encode;
    var c, all := CodeT(t.test, p, brk, cont), CodeCond(t, p, brk, cont);
    assert CodeT(t, p, brk, cont) == all && c <= all;
  }

  lemma {:induction false} LeadT(t: Term, p: nat, brk: nat, cont: nat)
    ensures LeadsWithoutJump(CodeT(t, p, brk, cont))
    decreases t
  {
    hide LenT, LenTs, LenV, LenL, LenB, CodeV, CodeL, CodeB, Encode, LeadsWithoutJump;
    match t
    case Prim(op, args) =>
      if args == [] {
        LeadLeaf(t, p, brk, cont);
      } else {
        var first, rest := CodeT(args[0], p, brk, cont), CodeTs(args[1..], p + LenT(args[0]), brk, cont);
        LeadT(args[0], p, brk, cont);
        LeadCat(first, rest);
        LeadCat(first + rest, Encode(Operator(op, |args|)));
      }
    case Put(v, e) =>
      LeadT(e, p, brk, cont);
      LeadCat(CodeT(e, p, brk, cont), Encode(SetOp(v)) + Encode(GetOp(v)));
    case Cond(c, _, _) =>
      LeadT(c, p, brk, cont);
      LeadCond(t, p, brk, cont);
    case Call(f, args) =>
      LeadT(f, p, brk, cont);
      LeadCat(CodeT(f, p, brk, cont), CodeTs(args, p + LenT(f), brk, cont) + Encode(Instr(OpCall, |args|)));
    case _ => LeadLeaf(t, p, brk, cont);
  }

  lemma {:induction false} LeadB(b: seq<Cmd>, p: nat, brk: nat, cont: nat)
    requires b != []
    ensures LeadsWithoutJump(CodeB(b, p, brk, cont))
  {
    hide CodeT;
    match b[0]
    case Define(_, e) => LeadT(e, p, brk, cont);
    case Return(e) => LeadT(e, p, brk, cont);
    case Eval(e) => LeadT(e, p, brk, cont);
    case _ =>
  }

  /**
   The sweep over a loop body, which ends one byte past it when the POP at its
   end has been taken away again: it re-targets the body and nothing else.
   */
  lemma {:induction false} BodyPatched(b: seq<Cmd>, p: nat, brk: nat, cont: nat, tail: seq<byte>, x: nat, v: nat)
    requires p + LenV(b) <= CODE_MAX && brk < 0x1_0000 && cont < 0x1_0000 && IsPlaceholder(x)
    requires Stream(tail) && tail != [] && Fetch(tail, 0).value != Instr(OpJump, x)
    ensures Stream(CodeV(b, p, brk, cont) + tail)
    ensures PatchUntil(CodeV(b, p, brk, cont) + tail, LenB(b), x, v) == CodeV(b, p, Swap(brk, x, v), Swap(cont, x, v))
            + tail
  {
    hide CodeV, CodeB, LenV, Stream, Patch, PatchUntil, Encode, Fetch;
    BlockIsValueThenPop(b, p, brk, cont);
    RetargetV(b, p, brk, cont, x, v);
    var k := if EndsInEval(b) then 1 else 0;
    PatchUntilCat(CodeV(b, p, brk, cont), tail, k, x, v);
    PatchUntilOther(tail, x, v);
    PatchUntilNone(tail, x, v);
  }

  lemma {:induction false} PatchUntilNone(bs: seq<byte>, x: nat, v: nat)
    requires Stream(bs)
    ensures PatchUntil(bs, 0, x, v) == bs
  {
  }
}
