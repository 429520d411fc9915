/**
 Arrays never contain themselves: every place that stores into an array stores a
 fresh deep copy (src/vm.c:376-402, src/vm.c:761-780, src/builtins.c:133-165),
 so no run of any bytecode makes a cycle and copy_object always ends.
 */
module Acyclicity {
  import opened Wrappers
  import opened Opcodes
  import opened Objects
  import opened Machine
  import Runs

  predicate Within<F>(v: Value<F>, n: nat) { v.VArray? ==> v.ref < n }

  predicate AllWithin<F>(vs: seq<Value<F>>, n: nat) {
    forall i | 0 <= i < |vs| :: Within(vs[i], n)
  }

  /** Arrays contain arrays of smaller rank only. */
  predicate Below<F>(v: Value<F>, rank: seq<nat>, r: nat) {
    v.VArray? ==> v.ref < |rank| && rank[v.ref] < r
  }

  predicate AllBelow<F>(vs: seq<Value<F>>, rank: seq<nat>, r: nat) {
    forall j | 0 <= j < |vs| :: Below(vs[j], rank, r)
  }

  predicate Ranked<F>(h: Heap<F>, rank: seq<nat>) {
    && |rank| == |h|
    && forall i | 0 <= i < |h| :: rank[i] < |h| && AllBelow(h[i], rank, rank[i])
  }

  ghost predicate Acyclic<F>(h: Heap<F>) { exists rank: seq<nat> :: Ranked(h, rank) }

  // ---- what acyclic means ----

  /** Each array on the path is an element of the one before it. */
  ghost predicate Path<F>(h: Heap<F>, p: seq<nat>) {
    && (forall i | 0 <= i < |p| :: p[i] < |h|)
    && forall i | 0 <= i < |p| - 1 :: VArray(p[i + 1]) in h[p[i]]
  }

  lemma {:induction false} RankFalls<F>(h: Heap<F>, rank: seq<nat>, p: seq<nat>, n: nat)
    requires Ranked(h, rank) && Path(h, p) && 0 < n < |p|
    ensures rank[p[n]] < rank[p[0]]
    decreases n
  {
    var list := h[p[n - 1]];
    var j :| 0 <= j < |list| && list[j] == VArray(p[n - 1 + 1]);
    assert Below(list[j], rank, rank[p[n - 1]]);
    if n > 1 {
      RankFalls(h, rank, p, n - 1);
    }
  }

  /** No array is reached again from its own elements. */
  lemma {:induction false} NoCycle<F>(h: Heap<F>, p: seq<nat>)
    requires Acyclic(h) && Path(h, p) && |p| > 1
    ensures p[0] != p[|p| - 1]
  {
    var rank: seq<nat> :| Ranked(h, rank);
    RankFalls(h, rank, p, |p| - 1);
  }

  // ---- copies ----

  /** From n on, lists refer to lists between n and themselves: copies in the order of their making. */
  predicate FreshFrom<F>(h: Heap<F>, n: nat) {
    && n <= |h|
    && forall i, j | n <= i < |h| && 0 <= j < |h[i]| && h[i][j].VArray? :: n <= h[i][j].ref < i
  }

  predicate Fresh<F>(v: Value<F>, n: nat, m: nat) { v.VArray? ==> n <= v.ref < m }

  predicate AllFresh<F>(vs: seq<Value<F>>, n: nat, m: nat) {
    forall i | 0 <= i < |vs| :: Fresh(vs[i], n, m)
  }

  /** Copying a value of rank below d succeeds at depth d, and touches nothing that was there. */
  lemma {:induction false} CopyFresh<F>(h0: Heap<F>, rank: seq<nat>, h: Heap<F>, v: Value<F>, d: nat)
    requires Ranked(h0, rank) && h0 <= h && FreshFrom(h, |h0|) && Below(v, rank, d)
    ensures Copy(h, v, d).Some?
    ensures var (h1, c) := Copy(h, v, d).value; h <= h1 && FreshFrom(h1, |h0|) && Fresh(c, |h0|, |h1|)
    decreases d, 0
  {
    if v.VArray? {
      assert h[v.ref] == h0[v.ref];
      assert AllBelow(h0[v.ref], rank, d - 1) by {
        forall j | 0 <= j < |h0[v.ref]| ensures Below(h0[v.ref][j], rank, d - 1) {
          assert Below(h0[v.ref][j], rank, rank[v.ref]);
        }
      }
      CopyListFresh(h0, rank, h, h0[v.ref], d - 1);
    }
  }

  lemma {:induction false} CopyListFresh<F>(h0: Heap<F>, rank: seq<nat>, h: Heap<F>, vs: seq<Value<F>>, d: nat)
    requires Ranked(h0, rank) && h0 <= h && FreshFrom(h, |h0|) && AllBelow(vs, rank, d)
    ensures CopyList(h, vs, d).Some?
    ensures var (h1, cs) := CopyList(h, vs, d).value; h <= h1 && FreshFrom(h1, |h0|) && AllFresh(cs, |h0|, |h1|)
    decreases d, |vs| + 1
  {
    if vs != [] {
      assert Below(vs[0], rank, d);
      CopyFresh(h0, rank, h, vs[0], d);
      var (h1, c) := Copy(h, vs[0], d).value;
      assert AllBelow(vs[1..], rank, d) by {
        forall j | 0 <= j < |vs[1..]| ensures Below(vs[1..][j], rank, d) { assert Below(vs[j + 1], rank, d); }
      }
      CopyListFresh(h0, rank, h1, vs[1..], d);
    }
  }

  /** Ranks after copies: the copies come first, the others move up. */
  function Shifted(rank: seq<nat>, k: nat): (r: seq<nat>)
    ensures |r| == |rank| + k
  {
    seq(|rank| + k, i requires 0 <= i < |rank| + k => if i < |rank| then rank[i] + k else i - |rank|)
  }

  lemma {:induction false} FreshRanked<F>(h0: Heap<F>, rank: seq<nat>, h: Heap<F>)
    requires Ranked(h0, rank) && h0 <= h && FreshFrom(h, |h0|)
    ensures Ranked(h, Shifted(rank, |h| - |h0|))
  {
    var k := |h| - |h0|;
    var r := Shifted(rank, k);
    forall i | 0 <= i < |h| ensures r[i] < |h| && AllBelow(h[i], r, r[i]) {
      forall j | 0 <= j < |h[i]| ensures Below(h[i][j], r, r[i]) {
        if i < |h0| {
          assert AllBelow(h0[i], rank, rank[i]);
          assert Below(h0[i][j], rank, rank[i]);
        }
      }
    }
  }

  /** A fresh value may go into any old list. */
  lemma {:induction false} StoreFresh<F>(h0: Heap<F>, rank: seq<nat>, h: Heap<F>, r: nat, list: seq<Value<F>>,
                                         c: Value<F>)
    requires Ranked(h0, rank) && h0 <= h && FreshFrom(h, |h0|) && Fresh(c, |h0|, |h|) && r < |h0|
    requires forall j | 0 <= j < |list| :: list[j] == c || list[j] in h[r]
    ensures Ranked(h[r := list], Shifted(rank, |h| - |h0|))
  {
    FreshRanked(h0, rank, h);
    var s, h' := Shifted(rank, |h| - |h0|), h[r := list];
    forall i | 0 <= i < |h'| ensures s[i] < |h'| && AllBelow(h'[i], s, s[i]) {
      assert AllBelow(h[i], s, s[i]);
      if i == r {
        forall j | 0 <= j < |list| ensures Below(list[j], s, s[r]) {
          if list[j] != c {
            var n :| 0 <= n < |h[r]| && h[r][n] == list[j];
            assert Below(h[r][n], s, s[r]);
          }
        }
      }
    }
  }

  lemma {:induction false} WithinBelow<F>(h: Heap<F>, rank: seq<nat>, v: Value<F>)
    requires Ranked(h, rank) && Within(v, |h|)
    ensures Below(v, rank, |h|)
  {
  }

  lemma {:induction false} AllWithinBelow<F>(h: Heap<F>, rank: seq<nat>, vs: seq<Value<F>>)
    requires Ranked(h, rank) && AllWithin(vs, |h|)
    ensures AllBelow(vs, rank, |h|)
  {
    forall j | 0 <= j < |vs| ensures Below(vs[j], rank, |h|) {
      assert Within(vs[j], |h|);
    }
  }

  /** copy_object ends on every value of an acyclic heap. */
  lemma {:induction false} CopyEnds<F>(h: Heap<F>, v: Value<F>)
    requires Acyclic(h) && Within(v, |h|)
    ensures CopyObject(h, v).Some?
    ensures var (h1, c) := CopyObject(h, v).value; h <= h1 && Acyclic(h1) && Within(c, |h1|)
  {
    var rank: seq<nat> :| Ranked(h, rank);
    WithinBelow(h, rank, v);
    CopyFresh(h, rank, h, v, |h|);
    var (h1, c) := CopyObject(h, v).value;
    FreshRanked(h, rank, h1);
  }

  // ---- the operations ----

  predicate Result<F>(h: Heap<F>, r: Option<(Heap<F>, Value<F>)>) {
    r.Some? ==> |h| <= |r.value.0| && Within(r.value.1, |r.value.0|)
  }

  ghost predicate Good<F>(h: Heap<F>, r: Option<(Heap<F>, Value<F>)>) {
    Result(h, r) && (r.Some? ==> Acyclic(r.value.0))
  }

  lemma {:induction false} BuildGood<F>(h: Heap<F>, vs: seq<Value<F>>)
    requires Acyclic(h) && AllWithin(vs, |h|)
    ensures BuildArray(h, vs).Some? && Good(h, BuildArray(h, vs))
  {
    var rank: seq<nat> :| Ranked(h, rank);
    AllWithinBelow(h, rank, vs);
    CopyListFresh(h, rank, h, vs, |h|);
    var (h1, cs) := CopyList(h, vs, |h|).value;
    assert FreshFrom(h1 + [cs], |h|) by {
      forall j | 0 <= j < |cs| ensures Fresh(cs[j], |h|, |h1|) {}
    }
    FreshRanked(h, rank, h1 + [cs]);
  }

  lemma {:induction false} IndexSetGood<F>(h: Heap<F>, arr: Value<F>, index: Value<F>, v: Value<F>)
    requires Acyclic(h) && Within(arr, |h|) && Within(v, |h|)
    ensures Good(h, IndexSet(h, arr, index, v))
  {
    if index.VInt? && arr.VArray? && 0 <= index.n < |h[arr.ref]| {
      var rank: seq<nat> :| Ranked(h, rank);
      WithinBelow(h, rank, v);
      CopyFresh(h, rank, h, v, |h|);
      var (h1, c) := CopyObject(h, v).value;
      var list := h1[arr.ref][index.n := c];
      forall j | 0 <= j < |list| ensures list[j] == c || list[j] in h1[arr.ref] {
        if j != index.n { assert list[j] == h1[arr.ref][j]; }
      }
      StoreFresh(h, rank, h1, arr.ref, list, c);
    }
  }

  lemma {:induction false} PushGood<F>(h: Heap<F>, r: nat, v: Value<F>)
    requires Acyclic(h) && Within(v, |h|)
    ensures Good(h, ArrayPush(h, r, v))
  {
    if r < |h| {
      var rank: seq<nat> :| Ranked(h, rank);
      WithinBelow(h, rank, v);
      CopyFresh(h, rank, h, v, |h|);
      var (h1, c) := CopyObject(h, v).value;
      var list := h1[r] + [c];
      forall j | 0 <= j < |list| ensures list[j] == c || list[j] in h1[r] {
        if j < |h1[r]| { assert list[j] == h1[r][j]; }
      }
      StoreFresh(h, rank, h1, r, list, c);
    }
  }

  /** Fewer elements, the same ranks. */
  lemma {:induction false} ShorterRanked<F>(h: Heap<F>, rank: seq<nat>, r: nat, n: nat)
    requires Ranked(h, rank) && r < |h| && n <= |h[r]|
    ensures Ranked(h[r := h[r][..n]], rank)
  {
    var h' := h[r := h[r][..n]];
    forall i | 0 <= i < |h'| ensures rank[i] < |h'| && AllBelow(h'[i], rank, rank[i]) {
      assert AllBelow(h[i], rank, rank[i]);
      forall j | 0 <= j < |h'[i]| ensures Below(h'[i][j], rank, rank[i]) { assert Below(h[i][j], rank, rank[i]); }
    }
  }

  lemma {:induction false} PopGood<F>(h: Heap<F>, r: nat)
    requires Acyclic(h)
    ensures Good(h, ArrayPop(h, r))
  {
    if r < |h| && h[r] != [] {
      var rank: seq<nat> :| Ranked(h, rank);
      var n := |h[r]| - 1;
      ShorterRanked(h, rank, r, n);
      assert Below(h[r][n], rank, rank[r]);
      CopyEnds(h[r := h[r][..n]], h[r][n]);
    }
  }

  /** A list of elements that are there already: a slice. */
  lemma {:induction false} ShareGood<F>(h: Heap<F>, vs: seq<Value<F>>)
    requires Acyclic(h) && AllWithin(vs, |h|)
    ensures Acyclic(h + [vs])
  {
    var rank: seq<nat> :| Ranked(h, rank);
    var r: seq<nat> := rank + [|h|];
    var h' := h + [vs];
    forall i | 0 <= i < |h'| ensures r[i] < |h'| && AllBelow(h'[i], r, r[i]) {
      forall j | 0 <= j < |h'[i]| ensures Below(h'[i][j], r, r[i]) {
        if i < |h| {
          assert AllBelow(h[i], rank, rank[i]);
          assert Below(h[i][j], rank, rank[i]);
        } else {
          assert Within(vs[j], |h|);
        }
      }
    }
    assert Ranked(h', r);
  }

  /** What is in a list of the heap is within the heap. */
  lemma {:induction false} ListWithin<F>(h: Heap<F>, r: nat)
    requires Acyclic(h) && r < |h|
    ensures AllWithin(h[r], |h|)
  {
    var rank: seq<nat> :| Ranked(h, rank);
    forall j | 0 <= j < |h[r]| ensures Within(h[r][j], |h|) {
      assert AllBelow(h[r], rank, rank[r]);
      assert Below(h[r][j], rank, rank[r]);
    }
  }

  lemma {:induction false} SliceGood<F>(h: Heap<F>, left: Value<F>, start: Value<F>, end: Value<F>)
    requires Acyclic(h) && Within(left, |h|)
    ensures Good(h, BuildSlice(h, left, start, end))
  {
    if IsBound(start) && IsBound(end) && left.VArray? {
      ListWithin(h, left.ref);
      match SliceOf(h[left.ref], BoundOf(start), BoundOf(end))
      case None =>
      case Some(vs) =>
        forall j | 0 <= j < |vs| ensures Within(vs[j], |h|) {
          SliceElement(h[left.ref], BoundOf(start), BoundOf(end), j);
          var n :| 0 <= n < |h[left.ref]| && h[left.ref][n] == vs[j];
        }
        ShareGood(h, vs);
    }
  }

  lemma {:induction false} SliceElement<T>(source: seq<T>, start: int, end: int, j: nat)
    requires SliceOf(source, start, end).Some? && j < |SliceOf(source, start, end).value|
    ensures SliceOf(source, start, end).value[j] in source
  {
    hide SliceBounds;
  }

  lemma {:induction false} IndexGetGood<F>(h: Heap<F>, left: Value<F>, index: Value<F>)
    requires Acyclic(h) && Within(left, |h|)
    ensures IndexGet(h, left, index).Some? ==> Within(IndexGet(h, left, index).value, |h|)
  {
    if index.VInt? && left.VArray? {
      ListWithin(h, left.ref);
      var i := ElementIndex(|h[left.ref]|, index.n);
      if i < |h[left.ref]| {
        assert Within(h[left.ref][i], |h|);
      }
    }
  }

  lemma {:induction false} PrimitiveGood<F>(op: Opcode, h: Heap<F>, vs: seq<Value<F>>)
    requires Acyclic(h) && AllWithin(vs, |h|)
    ensures Good(h, Primitive(op, h, vs))
  {
    hide BuildArray, IndexSet, BuildSlice, IndexGet, Acyclic;
    match op
    case OpArray => BuildGood(h, vs);
    case OpIndexSet =>
      if |vs| == 3 {
        assert Within(vs[0], |h|) && Within(vs[2], |h|);
        IndexSetGood(h, vs[0], vs[1], vs[2]);
      }
    case OpSlice =>
      if |vs| == 3 {
        assert Within(vs[0], |h|);
        SliceGood(h, vs[0], vs[1], vs[2]);
      }
    case OpIndexGet =>
      if |vs| == 2 {
        assert Within(vs[0], |h|);
        IndexGetGood(h, vs[0], vs[1]);
      }
    case OpMinus =>
    case OpBang =>
    case _ => if |vs| == 2 { BinaryScalar(op, vs[0], vs[1]); }
  }

  lemma {:induction false} BinaryScalar<F>(op: Opcode, l: Value<F>, r: Value<F>)
    ensures BinaryOp(op, l, r).Some? ==> !BinaryOp(op, l, r).value.VArray?
  {
  }

  lemma {:induction false} BuiltinGood<F>(i: nat, h: Heap<F>, args: seq<Value<F>>)
    requires Acyclic(h) && AllWithin(args, |h|)
    ensures Good(h, CallBuiltin(i, h, args))
  {
    hide ArrayPop, ArrayPush, Find, Split, Acyclic;
    match i
    case 4 => if |args| == 1 && args[0].VArray? { PopGood(h, args[0].ref); }
    case 5 =>
      if |args| == 2 && args[0].VArray? {
        assert Within(args[1], |h|);
        PushGood(h, args[0].ref, args[1]);
      }
    case 7 =>
      if |args| == 2 && args[0].VStr? && args[1].VStr? && args[1].s != "" {
        ShareGood(h, Strings(Split(args[0].s, args[1].s)));
      }
    case _ =>
  }

  // ---- runs ----

  /** Every array in sight exists, and none contains itself. */
  ghost predicate Sound(m: State) {
    match m
    case State(stack, _, _, globals, constants, heap) =>
      Acyclic(heap) && AllWithin(stack, |heap|) && AllWithin(globals, |heap|) && AllWithin(constants, |heap|)
  }

  lemma {:induction false} Wider<F>(vs: seq<Value<F>>, n: nat, m: nat)
    requires AllWithin(vs, n) && n <= m
    ensures AllWithin(vs, m)
  {
    forall i | 0 <= i < |vs| ensures Within(vs[i], m) { assert Within(vs[i], n); }
  }

  lemma {:induction false} Placed<F>(vs: seq<Value<F>>, n: nat, i: nat, v: Value<F>)
    requires AllWithin(vs, n) && i < |vs| && Within(v, n)
    ensures AllWithin(vs[i := v], n)
  {
    var ws := vs[i := v];
    forall j | 0 <= j < |ws| ensures Within(ws[j], n) { assert Within(vs[j], n); }
  }

  lemma {:induction false} Taken<F>(vs: seq<Value<F>>, n: nat, i: nat, j: nat)
    requires AllWithin(vs, n) && i <= j <= |vs|
    ensures AllWithin(vs[i..j], n)
  {
    forall k | 0 <= k < j - i ensures Within(vs[i..j][k], n) { assert Within(vs[i + k], n); }
  }

  /** A result of an operation on the heap goes onto the stack. */
  lemma {:induction false} ResultSound(m: State, m': State, i: nat, h: Heap<Compiled>, v: MValue)
    requires Sound(m) && i < |m.stack| && |m.heap| <= |h| && Acyclic(h) && Within(v, |h|)
    requires m'.stack == m.stack[i := v] && m'.globals == m.globals && m'.constants == m.constants && m'.heap == h
    ensures Sound(m')
  {
    hide Acyclic;
    Wider(m.stack, |m.heap|, |h|);
    Wider(m.globals, |m.heap|, |h|);
    Wider(m.constants, |m.heap|, |h|);
    Placed(m.stack, |h|, i, v);
  }

  lemma {:induction false} OperateSound(m: State, op: Opcode, n: nat, ip: nat)
    requires Shape(m) && Sound(m) && Operate(m, op, n, ip).Next?
    ensures Sound(Operate(m, op, n, ip).m)
  {
    hide Acyclic, Primitive;
    var vs := m.stack[m.sp - n..m.sp];
    Taken(m.stack, |m.heap|, m.sp - n, m.sp);
    PrimitiveGood(op, m.heap, vs);
    var (h, v) := Primitive(op, m.heap, vs).value;
    ResultSound(m, Operate(m, op, n, ip).m, m.sp - n, h, v);
  }

  lemma {:induction false} CallSound(m: State, n: nat, ip: nat)
    requires Shape(m) && Sound(m) && Call(m, n, ip).Next?
    ensures Sound(Call(m, n, ip).m)
  {
    hide Acyclic, CallBuiltin;
    match m.stack[m.sp - 1 - n]
    case VBuiltin(i) =>
      var args := m.stack[m.sp - n..m.sp];
      Taken(m.stack, |m.heap|, m.sp - n, m.sp);
      BuiltinGood(i, m.heap, args);
      var (h, v) := CallBuiltin(i, m.heap, args).value;
      ResultSound(m, Call(m, n, ip).m, m.sp - n - 1, h, v);
    case _ =>
  }

  lemma {:induction false} PushSound(m: State, v: MValue, ip: nat)
    requires Shape(m) && Sound(m) && Within(v, |m.heap|)
    ensures Push(m, v, ip).Next? ==> Sound(Push(m, v, ip).m)
  {
    hide Acyclic;
    if m.sp < STACK_SIZE {
      Placed(m.stack, |m.heap|, m.sp, v);
    }
  }

  lemma {:induction false} ExecSound(m: State, i: Instr)
    requires Shape(m) && Sound(m) && Exec(m, i).Next?
    ensures Sound(Exec(m, i).m)
  {
    hide Acyclic, Operate, Call, Push;
    var Frame(_, ip, base) := Top(m);
    match i.op
    case OpConst =>
      assert Within(m.constants[i.arg], |m.heap|);
      PushSound(m, m.constants[i.arg], ip + 3);
    case OpNull => PushSound(m, VNull, ip + 1);
    case OpTrue => PushSound(m, VBool(true), ip + 1);
    case OpFalse => PushSound(m, VBool(false), ip + 1);
    case OpGetGlobal =>
      assert Within(m.globals[i.arg], |m.heap|);
      PushSound(m, m.globals[i.arg], ip + 3);
    case OpSetGlobal =>
      assert Within(m.stack[m.sp - 1], |m.heap|);
      Placed(m.globals, |m.heap|, i.arg, m.stack[m.sp - 1]);
    case OpGetLocal =>
      assert Within(m.stack[base + i.arg], |m.heap|);
      PushSound(m, m.stack[base + i.arg], ip + 2);
    case OpSetLocal =>
      assert Within(m.stack[m.sp - 1], |m.heap|);
      Placed(m.stack, |m.heap|, base + i.arg, m.stack[m.sp - 1]);
    case OpGetBuiltin => PushSound(m, VBuiltin(i.arg), ip + 2);
    case OpCall => CallSound(m, i.arg, ip);
    case OpReturnValue =>
      assert Within(m.stack[m.sp - 1], |m.heap|);
      Placed(m.stack, |m.heap|, base - 1, m.stack[m.sp - 1]);
    case OpReturn => Placed(m.stack, |m.heap|, base - 1, VNull);
    case OpPop =>
    case OpJump =>
    case OpJumpNotTrue =>
    case OpArray => OperateSound(m, OpArray, i.arg, ip + 3);
    case _ => OperateSound(m, i.op, Arity(i.op, i.arg), ip + 1);
  }

  /** One step of any bytecode keeps the heap acyclic. */
  lemma {:induction false} StepSound(m: State)
    requires Shape(m) && Sound(m) && Step(m).Next?
    ensures Sound(Step(m).m)
  {
    hide Exec, Sound, Fetch;
    ExecSound(m, Fetch(Top(m).fn.code, Top(m).ip).value);
  }

  lemma {:induction false} StepsSound(m: State, n: nat, m': State)
    requires Sound(m) && Runs.Steps(Advance, m, n, m')
    ensures Sound(m')
    decreases n
  {
    hide Sound, Step;
    if n > 0 {
      StepSound(m);
      StepsSound(Advance(m).value, n - 1, m');
    }
  }

  /**
   On every run, of any bytecode, from a state without cycles: no cycle appears,
   and copy_object ends on whatever is in reach, so copying never loops.
   */
  lemma {:induction false} RunsStayAcyclic(m: State, m': State, v: MValue)
    requires Sound(m) && Reaches(m, m')
    requires v in m'.stack || v in m'.globals || v in m'.constants
    ensures Sound(m') && CopyObject(m'.heap, v).Some?
  {
    var n: nat :| Runs.Steps(Advance, m, n, m');
    StepsSound(m, n, m');
    assert Within(v, |m'.heap|);
    CopyEnds(m'.heap, v);
  }

  /** Every program starts so: there is no array yet. */
  lemma {:induction false} StartsAcyclic(m: State)
    requires m.heap == [] && NoArrays(m.stack) && NoArrays(m.globals) && NoArrays(m.constants)
    ensures Sound(m)
  {
    assert Ranked(m.heap, []);
  }
}
