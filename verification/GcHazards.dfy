/**
 The machine and its collector, instruction by instruction, on the code of two
 programs, until the collector frees what is in use (src/gc.c:85-96, src/vm.c:349-356).
 */
module CollectorHazards {
  import opened Wrappers
  import opened Opcodes
  import opened Objects
  import opened Machine
  import opened Collection
  import opened Mutators
  import opened CollectedMachine
  import Runs

  // ---- the machine and its collector in step ----

  datatype Pair = Pair(m: State, a: Mutator)

  /** One instruction: the machine's step, and what the collector's state comes to, collecting when it is due. */
  function Tick(b: Pair): Option<Pair> {
    if !Shape(b.m) then None else
    match Fetch(Top(b.m).fn.code, Top(b.m).ip)
    case None => None
    case Some(i) =>
      var r := Exec(b.m, i);
      if r.Next? && r.m.heap == [] && Allowed(b.a, ActOf(b.m, i)) then Some(Pair(r.m, Effect(b.a, ActOf(b.m, i))))
      else None
  }

  /** Any number of instructions. */
  ghost predicate Goes(b: Pair, c: Pair) {
    Runs.Reaches(Tick, b, c)
  }

  lemma {:induction false} GoesOn(b: Pair, c: Pair, d: Pair)
    requires Goes(b, c) && Goes(c, d)
    ensures Goes(b, d)
  {
    Runs.ReachesTrans(Tick, b, c, d);
  }

  lemma {:induction false} TickFits(b: Pair, c: Pair)
    requires b.m.heap == [] && Tick(b) == Some(c)
    ensures Shape(b.m) && Shape(c.m) && c.m.heap == [] && Step(b.m) == Next(c.m)
    ensures var i := Fetch(Top(b.m).fn.code, Top(b.m).ip);
            && i.Some? && Allowed(b.a, ActOf(b.m, i.value))
            && Does(b.a, ActOf(b.m, i.value), ActOf(b.m, i.value).New? && Due(b.a), c.a)
  {
    hide Exec, Fetch, ActOf, Allowed, Effect, Does;
    var i := Fetch(Top(b.m).fn.code, Top(b.m).ip).value;
    EffectDoes(b.a, ActOf(b.m, i));
  }

  lemma {:induction false} EarlierMove(a: Mutator, x: Move, rest: seq<Move>)
    requires Does(a, x.act, x.collects, x.next) && (x.act.New? ==> (x.collects <==> Due(a)))
    requires Run(x.next, rest) && Timely(x.next, rest)
    ensures var run := [x] + rest;
            Run(a, run) && Timely(a, run) && StateAt(a, run, |run|) == StateAt(x.next, rest, |rest|)
  {
    hide Does, Due;
    assert [x][0] == x;
    assert DoesAt(a, [x], 0) && TimelyAt(a, [x], 0);
    RunOn(a, [x], rest);
  }

  lemma {:induction false} EarlierState(m: State, more: seq<State>)
    requires Execution(more) && Shape(m) && m.heap == [] && Step(m) == Next(more[0])
    ensures Execution([m] + more)
  {
    hide Step;
    var ms := [m] + more;
    forall k | 0 <= k < |ms| ensures Shape(ms[k]) && ms[k].heap == [] {
      if k > 0 { assert ms[k] == more[k - 1]; }
    }
    forall k | 0 <= k < |ms| - 1 ensures Step(ms[k]) == Next(ms[k + 1]) {
      if k > 0 { assert Step(more[k - 1]) == Next(more[k - 1 + 1]); }
    }
  }

  lemma {:induction false} EarlierBeside(m: State, more: seq<State>, a: Mutator, x: Move, rest: seq<Move>)
    requires Execution(more) && Execution([m] + more) && Beside(more, x.next, rest) && Run(a, [x] + rest)
    requires BesideAt([m] + more, [x] + rest, 0)
    ensures Beside([m] + more, a, [x] + rest)
  {
    hide Step, ActOf, Run;
    var ms, run := [m] + more, [x] + rest;
    forall k | 0 <= k < |run| ensures BesideAt(ms, run, k) {
      if k > 0 { assert BesideAt(more, rest, k - 1) && ms[k] == more[k - 1] && run[k] == rest[k - 1]; }
    }
  }

  /** Steps in step are an execution with a timely run of the collector beside it. */
  lemma {:induction false} InStep(b: Pair, n: nat, c: Pair) returns (ms: seq<State>, run: seq<Move>)
    requires Runs.Steps(Tick, b, n, c) && Shape(b.m) && b.m.heap == []
    ensures Execution(ms) && ms[0] == b.m && ms[|ms| - 1] == c.m
    ensures Beside(ms, b.a, run) && Timely(b.a, run) && StateAt(b.a, run, |run|) == c.a
    decreases n
  {
    hide Tick, Step, ActOf, Does, Due, Timely, Run;
    if n == 0 {
      ms, run := [b.m], [];
      NoMoves(b.a);
    } else {
      var d := Tick(b).value;
      TickFits(b, d);
      var more, rest := InStep(d, n - 1, c);
      var act := ActOf(b.m, Fetch(Top(b.m).fn.code, Top(b.m).ip).value);
      var x := Move(act, act.New? && Due(b.a), d.a);
      ms, run := [b.m] + more, [x] + rest;
      EarlierMove(b.a, x, rest);
      EarlierState(b.m, more);
      EarlierBeside(b.m, more, b.a, x, rest);
    }
  }

  lemma {:induction false} NoMoves(a: Mutator)
    ensures Run(a, []) && Timely(a, [])
  {
  }

  // ---- single instructions ----

  /** The running function is at f, above the frames fs, and sp values are on the stack. */
  predicate In(b: Pair, fs: seq<Frame>, f: Frame, sp: nat) {
    && Shape(b.m) && b.m.heap == [] && b.m.frames == fs + [f] && b.m.sp == sp == b.a.sp
    && |b.a.stack| == STACK_SIZE && |b.a.globals| == GLOBALS_SIZE && |b.a.constants| == |b.m.constants|
  }

  /** Only the stack differs. */
  predicate SameBut(b: Pair, c: Pair) {
    && c.m.globals == b.m.globals && c.m.constants == b.m.constants
    && c.a == b.a.(stack := c.a.stack, sp := c.a.sp)
  }

  function Ahead(f: Frame, i: Instr): Frame { f.(ip := f.ip + Size(i)) }

  lemma {:induction false} InTop(b: Pair, fs: seq<Frame>, f: Frame, sp: nat, ip: nat)
    requires In(b, fs, f, sp)
    ensures Top(b.m) == f && Goto(b.m, ip).frames == fs + [f.(ip := ip)]
  {
    assert (fs + [f])[|fs| := f.(ip := ip)] == fs + [f.(ip := ip)];
  }

  lemma {:induction false} OneTick(b: Pair, c: Pair)
    requires Tick(b) == Some(c)
    ensures Goes(b, c)
  {
    hide Tick;
    Runs.ReachesStep(Tick, b);
  }

  /** An instruction that pushes v, which the collector sees as o. */
  predicate Pushing(b: Pair, i: Instr, v: MValue, o: Obj) {
    match i.op
    case OpNull => v == VNull && o == Null
    case OpTrue => v == VBool(true) && o == Scalar
    case OpFalse => v == VBool(false) && o == Scalar
    case OpGetBuiltin => i.arg < BUILTINS && v == VBuiltin(i.arg) && o == Scalar
    case OpConst =>
      i.arg < |b.m.constants| && i.arg < |b.a.constants| && v == b.m.constants[i.arg] && o == b.a.constants[i.arg]
    case OpGetGlobal =>
      i.arg < |b.m.globals| && i.arg < |b.a.globals| && v == b.m.globals[i.arg] && o == b.a.globals[i.arg]
    case _ => false
  }

  lemma {:induction false} Pushes(b: Pair, fs: seq<Frame>, f: Frame, sp: nat, i: Instr, v: MValue, o: Obj)
                                  returns (c: Pair)
    requires In(b, fs, f, sp) && sp < STACK_SIZE && Fetch(f.fn.code, f.ip) == Some(i) && Pushing(b, i, v, o)
    ensures Goes(b, c) && In(c, fs, Ahead(f, i), sp + 1) && SameBut(b, c)
    ensures c.m.stack == b.m.stack[sp := v] && c.a.stack == b.a.stack[sp := o]
  {
    hide Goes, Fetch;
    InTop(b, fs, f, sp, f.ip + Size(i));
    c := Pair(Exec(b.m, i).m, Effect(b.a, ActOf(b.m, i)));
    OneTick(b, c);
  }

  lemma {:induction false} Pops(b: Pair, fs: seq<Frame>, f: Frame, sp: nat) returns (c: Pair)
    requires In(b, fs, f, sp) && sp > 0 && Fetch(f.fn.code, f.ip) == Some(Plain(OpPop))
    ensures Goes(b, c) && In(c, fs, Ahead(f, Plain(OpPop)), sp - 1) && SameBut(b, c)
    ensures c.m.stack == b.m.stack && c.a.stack == b.a.stack
  {
    hide Goes, Fetch;
    InTop(b, fs, f, sp, f.ip + 1);
    c := Pair(Exec(b.m, Plain(OpPop)).m, Effect(b.a, Pop));
    OneTick(b, c);
  }

  lemma {:induction false} Jumps(b: Pair, fs: seq<Frame>, f: Frame, sp: nat, to: nat) returns (c: Pair)
    requires In(b, fs, f, sp) && Fetch(f.fn.code, f.ip) == Some(Instr(OpJump, to))
    ensures Goes(b, c) && In(c, fs, f.(ip := to), sp) && SameBut(b, c)
    ensures c.m.stack == b.m.stack && c.a.stack == b.a.stack
  {
    hide Goes, Fetch;
    InTop(b, fs, f, sp, to);
    c := Pair(Exec(b.m, Instr(OpJump, to)).m, Effect(b.a, Stay));
    OneTick(b, c);
  }

  lemma {:induction false} Tests(b: Pair, fs: seq<Frame>, f: Frame, sp: nat, to: nat) returns (c: Pair)
    requires In(b, fs, f, sp) && sp > 0 && Fetch(f.fn.code, f.ip) == Some(Instr(OpJumpNotTrue, to))
    ensures Goes(b, c) && SameBut(b, c)
    ensures In(c, fs, f.(ip := if Truthy(b.m.stack[sp - 1]) then f.ip + 3 else to), sp - 1)
    ensures c.m.stack == b.m.stack && c.a.stack == b.a.stack
  {
    hide Goes, Fetch, Truthy;
    var i := Instr(OpJumpNotTrue, to);
    InTop(b, fs, f, sp, if Truthy(b.m.stack[sp - 1]) then f.ip + 3 else to);
    c := Pair(Exec(b.m, i).m, Effect(b.a, Pop));
    OneTick(b, c);
  }

  lemma {:induction false} Stores(b: Pair, fs: seq<Frame>, f: Frame, sp: nat, g: nat) returns (c: Pair)
    requires In(b, fs, f, sp) && sp > 0 && g < GLOBALS_SIZE
    requires Fetch(f.fn.code, f.ip) == Some(Instr(OpSetGlobal, g))
    ensures Goes(b, c) && In(c, fs, f.(ip := f.ip + 3), sp - 1)
    ensures c.m.stack == b.m.stack && c.m.constants == b.m.constants
    ensures c.m.globals == b.m.globals[g := b.m.stack[sp - 1]]
    ensures c.a == b.a.(sp := sp - 1, globals := b.a.globals[g := b.a.stack[sp - 1]])
  {
    hide Goes, Fetch;
    var i := Instr(OpSetGlobal, g);
    InTop(b, fs, f, sp, f.ip + 3);
    c := Pair(Exec(b.m, i).m, Effect(b.a, Mutators.SetGlobal(g)));
    OneTick(b, c);
  }

  /** Two strings on the stack are concatenated. */
  const CONCAT: Act := New(2, StringKind, true)

  lemma {:induction false} Concats(b: Pair, fs: seq<Frame>, f: Frame, sp: nat) returns (c: Pair)
    requires In(b, fs, f, sp) && sp >= 2 && b.m.stack[sp - 2].VStr? && b.m.stack[sp - 1].VStr?
    requires Fetch(f.fn.code, f.ip) == Some(Plain(OpAdd))
    ensures Allowed(b.a, CONCAT) && Goes(b, c) && In(c, fs, f.(ip := f.ip + 1), sp - 1)
    ensures c.m.globals == b.m.globals && c.m.constants == b.m.constants && c.a == Effect(b.a, CONCAT)
    ensures c.m.stack == b.m.stack[sp - 2 := VStr(b.m.stack[sp - 2].s + b.m.stack[sp - 1].s)]
  {
    hide Goes, Fetch, RootsAt, Kept, Dropped, Addrs, NextCap;
    var i, v := Plain(OpAdd), VStr(b.m.stack[sp - 2].s + b.m.stack[sp - 1].s);
    InTop(b, fs, f, sp, f.ip + 1);
    assert b.m.stack[sp - 2..sp] == [b.m.stack[sp - 2], b.m.stack[sp - 1]];
    assert Primitive(OpAdd, b.m.heap, b.m.stack[sp - 2..sp]) == Some((b.m.heap, v));
    c := Pair(Exec(b.m, i).m, Effect(b.a, CONCAT));
    OneTick(b, c);
  }

  // ---- garbage ----

  /** Nothing keeps x in the list but that no collection has come. */
  predicate Unrooted(a: Mutator, x: Obj) {
    Markable(x) && x in a.list && x.addr < a.next && x.addr !in a.marked
    && x.addr !in Addrs(a.constants) && x.addr !in Addrs(UntilNull(a.globals))
  }

  /** n objects are listed, x among them, and global g is a string. */
  predicate Waits(b: Pair, g: nat, x: Obj, n: nat) {
    g < |b.m.globals| && g < |b.a.globals| && b.m.globals[g].VStr?
    && Unrooted(b.a, x) && |b.a.list| == n && b.a.cap == 256
  }

  /** The globals, the constants and the slots from 2 on are as they were. */
  predicate Keeps(b: Pair, c: Pair) {
    && c.m.globals == b.m.globals && c.m.constants == b.m.constants
    && c.a.globals == b.a.globals && c.a.constants == b.a.constants
    && |c.a.stack| == |b.a.stack| && forall i | 2 <= i < |b.a.stack| :: c.a.stack[i] == b.a.stack[i]
  }

  /** `s + s` on an empty stack, where global g is s. */
  predicate DoublesAt(code: seq<byte>, p: nat, g: nat) {
    Fetch(code, p) == Some(Instr(OpGetGlobal, g)) && Fetch(code, p + 3) == Some(Instr(OpGetGlobal, g))
    && Fetch(code, p + 6) == Some(Plain(OpAdd))
  }

  lemma {:induction false} RootsAlone(a: Mutator, x: Obj)
    requires a.sp == 2 <= |a.stack| && Unrooted(a, x)
    ensures x.addr !in a.marked + RootsAt(a, CONCAT)
  {
    hide UntilNull;
    var s := After(a, CONCAT);
    assert s.stack[..1] == [NewObj(a, CONCAT)];
  }

  /** The string is listed, or a collection drops x. */
  lemma {:induction false} DoubleEffect(a: Mutator, x: Obj, n: nat)
    requires a.sp == 2 <= |a.stack| && Unrooted(a, x) && |a.list| == n <= 205 && a.cap == 256
    ensures var a' := Effect(a, CONCAT);
            && a'.globals == a.globals && a'.constants == a.constants && a'.sp == 1
            && a'.stack == a.stack[0 := Obj(StringKind, a.next)] && a'.next == a.next + 1
            && (n < 205 ==> Unrooted(a', x) && |a'.list| == n + 1 && a'.cap == 256 && a'.freed == a.freed)
            && (n == 205 ==> x in a'.freed)
  {
    hide Markable, Addrs, UntilNull, Kept, Dropped;
    RootsAlone(a, x);
    if n == 205 {
      CollectedFrees(a, CONCAT, x);
    }
  }

  /** What a collection drops is freed. */
  lemma {:induction false} CollectedFrees(m: Mutator, act: Act, o: Obj)
    requires act.New? && Allowed(m, act) && o in m.list && Markable(o) && o.addr !in m.marked + RootsAt(m, act)
    ensures o in Collected(m, act).freed
  {
    hide RootsAt, After, Kept, Dropped;
    CountDropped(m.list, m.marked + RootsAt(m, act), o);
  }

  lemma {:induction false} Doubles(b: Pair, f: Frame, g: nat, x: Obj, n: nat) returns (c: Pair)
    requires In(b, [], f, 0) && DoublesAt(f.fn.code, f.ip, g) && Waits(b, g, x, n) && n <= 205
    ensures Goes(b, c) && In(c, [], f.(ip := f.ip + 7), 1) && Keeps(b, c) && c.m.stack[0].VStr?
    ensures c.a.stack[0] == Obj(StringKind, b.a.next) && c.a.next == b.a.next + 1
    ensures if n < 205 then Waits(c, g, x, n + 1) && c.a.freed == b.a.freed else x in c.a.freed
  {
    hide Goes, Fetch, Unrooted, Effect;
    var get, v, o := Instr(OpGetGlobal, g), b.m.globals[g], b.a.globals[g];
    var b1 := Pushes(b, [], f, 0, get, v, o);
    var b2 := Pushes(b1, [], Ahead(f, get), 1, get, v, o);
    SameWaits(b, b2, g, x, n);
    c := Concats(b2, [], f.(ip := f.ip + 6), 2);
    DoubleEffect(b2.a, x, n);
    GoesOn(b, b1, b2);
    GoesOn(b, b2, c);
  }

  lemma {:induction false} SameWaits(b: Pair, c: Pair, g: nat, x: Obj, n: nat)
    requires SameBut(b, c) && Waits(b, g, x, n)
    ensures Waits(c, g, x, n)
  {
    hide Markable, Addrs, UntilNull;
  }

  /** The head of `while (true) { s + s;`, whose body starts at p + 4. */
  predicate HeadAt(code: seq<byte>, p: nat, g: nat, out: nat) {
    Fetch(code, p) == Some(Plain(OpTrue)) && Fetch(code, p + 1) == Some(Instr(OpJumpNotTrue, out))
    && Fetch(code, p + 4) == Some(Plain(OpPop)) && DoublesAt(code, p + 5, g)
  }

  /** From the test of the loop to the string in its body. */
  lemma {:induction false} HalfRound(b: Pair, f: Frame, g: nat, out: nat, x: Obj, n: nat) returns (c: Pair)
    requires In(b, [], f, 1) && HeadAt(f.fn.code, f.ip, g, out) && Waits(b, g, x, n) && n <= 205
    ensures Goes(b, c) && In(c, [], f.(ip := f.ip + 12), 1) && Keeps(b, c)
    ensures if n < 205 then Waits(c, g, x, n + 1) && c.a.freed == b.a.freed else x in c.a.freed
  {
    hide Goes, Fetch, Waits, DoublesAt;
    var b1 := Pushes(b, [], f, 1, Plain(OpTrue), VBool(true), Scalar);
    var b2 := Tests(b1, [], f.(ip := f.ip + 1), 2, out);
    var b3 := Pops(b2, [], f.(ip := f.ip + 4), 1);
    assert SameBut(b, b3);
    SameWaits(b, b3, g, x, n);
    c := Doubles(b3, f.(ip := f.ip + 5), g, x, n);
    GoesOn(b, b1, b2);
    GoesOn(b, b2, b3);
    GoesOn(b, b3, c);
  }

  // ---- a null before an assigned global ----

  /** `while (true) { s + s; }` */
  predicate HoleLoopAt(code: seq<byte>, p: nat, g: nat, out: nat) {
    HeadAt(code, p, g, out) && Fetch(code, p + 12) == Some(Instr(OpJump, p))
  }

  /** The loop goes round until the list is four fifths full; then x is freed. */
  lemma {:induction false} HoleRounds(b: Pair, f: Frame, g: nat, out: nat, x: Obj, n: nat) returns (c: Pair)
    requires In(b, [], f, 1) && HoleLoopAt(f.fn.code, f.ip, g, out) && Waits(b, g, x, n) && n <= 205
    ensures Goes(b, c) && Keeps(b, c) && x in c.a.freed
    decreases 205 - n
  {
    hide Goes, Fetch, Waits, HeadAt;
    c := HalfRound(b, f, g, out, x, n);
    if n < 205 {
      var d := Jumps(c, [], f.(ip := f.ip + 12), 1, f.ip);
      SameWaits(c, d, g, x, n + 1);
      GoesOn(b, c, d);
      c := HoleRounds(d, f, g, out, x, n + 1);
      GoesOn(b, d, c);
    }
  }

  /** `let a; let s = "..."; let b = s + s;` and the null under the loop. */
  predicate HoleCode(code: seq<byte>) {
    && Fetch(code, 0) == Some(Plain(OpNull)) && Fetch(code, 1) == Some(Instr(OpSetGlobal, 0))
    && Fetch(code, 4) == Some(Instr(OpConst, 0)) && Fetch(code, 7) == Some(Instr(OpSetGlobal, 1))
    && DoublesAt(code, 10, 1) && Fetch(code, 17) == Some(Instr(OpSetGlobal, 2))
    && Fetch(code, 20) == Some(Plain(OpNull)) && HoleLoopAt(code, 21, 1, 36)
  }

  /** Nothing is listed, marked or freed, and the constants are the first addresses. */
  predicate Fresh(b: Pair, f: Frame) {
    && In(b, [], f, 0) && b.a.list == [] && b.a.cap == 256 && b.a.marked == {}
    && b.a.next == |b.a.constants| && AllOld(b.a.constants, b.a.next)
  }

  lemma {:induction false} HoleStart(b: Pair, f: Frame) returns (c: Pair)
    requires Fresh(b, f) && f.ip == 0 && HoleCode(f.fn.code) && |b.m.constants| == 1 && b.m.constants[0].VStr?
    ensures Goes(b, c) && In(c, [], f.(ip := 10), 0) && Fresh(c, f.(ip := 10)) && c.m.globals[1].VStr?
    ensures c.a.globals[0] == Null
  {
    hide Goes, Fetch, AllOld, HoleLoopAt, DoublesAt;
    var b1 := Pushes(b, [], f, 0, Plain(OpNull), VNull, Null);
    var b2 := Stores(b1, [], f.(ip := 1), 1, 0);
    var b3 := Pushes(b2, [], f.(ip := 4), 0, Instr(OpConst, 0), b2.m.constants[0], b2.a.constants[0]);
    c := Stores(b3, [], f.(ip := 7), 1, 1);
    GoesOn(b, b1, b2);
    GoesOn(b, b2, b3);
    GoesOn(b, b3, c);
  }

  /** The first `s + s`, with sp values on the stack. */
  lemma {:induction false} FirstString(b: Pair, f: Frame, sp: nat, g: nat) returns (c: Pair)
    requires In(b, [], f, sp) && sp + 2 <= STACK_SIZE && DoublesAt(f.fn.code, f.ip, g) && b.a.list == []
    requires b.a.cap == 256 && g < GLOBALS_SIZE && b.m.globals[g].VStr?
    ensures var x := Obj(StringKind, b.a.next);
            && Goes(b, c) && In(c, [], f.(ip := f.ip + 7), sp + 1)
            && c.m.globals == b.m.globals && c.m.constants == b.m.constants
            && (forall i | 0 <= i < sp :: c.m.stack[i] == b.m.stack[i])
            && c.a == b.a.(stack := c.a.stack, sp := sp + 1, list := [x], next := b.a.next + 1)
            && c.a.stack[sp] == x && c.m.stack[sp].VStr?
  {
    hide Goes, Fetch, RootsAt, Kept, Dropped, Addrs;
    var get, v, o := Instr(OpGetGlobal, g), b.m.globals[g], b.a.globals[g];
    var b1 := Pushes(b, [], f, sp, get, v, o);
    var b2 := Pushes(b1, [], Ahead(f, get), sp + 1, get, v, o);
    c := Concats(b2, [], f.(ip := f.ip + 6), sp + 2);
    GoesOn(b, b1, b2);
    GoesOn(b, b2, c);
  }

  lemma {:induction false} NotAmong(vs: seq<Obj>, next: nat, x: Obj)
    requires AllOld(vs, next) && x.Obj? && x.addr >= next
    ensures x.addr !in Addrs(vs)
  {
    AddrsOld(vs, next);
  }

  /** From the start to the loop, and round it until b is freed. */
  lemma {:induction false} HoleGoes(b: Pair, f: Frame) returns (c: Pair)
    requires Fresh(b, f) && f.ip == 0 && HoleCode(f.fn.code) && |b.m.constants| == 1 && b.m.constants[0].VStr?
    ensures Goes(b, c) && |c.a.globals| == GLOBALS_SIZE && |c.m.globals| == GLOBALS_SIZE
    ensures c.m.globals[2].VStr? && c.a.globals[2].Obj? && c.a.globals[2] in c.a.freed
  {
    hide Goes, Fetch, AllOld, HoleLoopAt, DoublesAt, Addrs, HoleCode;
    HoleParts(f.fn.code);
    var b1 := HoleStart(b, f);
    var f1 := f.(ip := 10);
    var x := Obj(StringKind, b1.a.next);
    var b2 := FirstString(b1, f1, 0, 1);
    var b3 := Stores(b2, [], f.(ip := 17), 1, 2);
    var b4 := Pushes(b3, [], f.(ip := 20), 0, Plain(OpNull), VNull, Null);
    NotAmong(b1.a.constants, b1.a.next, x);
    assert UntilNull(b4.a.globals) == [];
    NoAddrs();
    assert b4.a.list[0] == x;
    c := HoleRounds(b4, f.(ip := 21), 1, 36, x, 1);
    GoesOn(b, b1, b2);
    GoesOn(b, b2, b3);
    GoesOn(b, b3, b4);
    GoesOn(b, b4, c);
  }

  lemma {:induction false} NoAddrs()
    ensures Addrs([]) == {}
  {
  }

  lemma {:induction false} HoleParts(code: seq<byte>)
    requires HoleCode(code)
    ensures DoublesAt(code, 10, 1) && Fetch(code, 17) == Some(Instr(OpSetGlobal, 2))
    ensures Fetch(code, 20) == Some(Plain(OpNull)) && HoleLoopAt(code, 21, 1, 36)
  {
    hide Fetch;
  }

  // ---- a stale slot ----

  /** A function is called without arguments: its slots are those above it. */
  lemma {:induction false} Calls(b: Pair, fs: seq<Frame>, f: Frame, sp: nat, fn: Compiled) returns (c: Pair)
    requires In(b, fs, f, sp) && sp > 0 && b.m.stack[sp - 1] == VFun(fn)
    requires Fetch(f.fn.code, f.ip) == Some(Instr(OpCall, 0))
    requires |fs| + 1 < FRAMES_SIZE && sp + fn.numLocals <= STACK_SIZE
    ensures Goes(b, c) && In(c, fs + [f.(ip := f.ip + 1)], Frame(fn, 0, sp), sp + fn.numLocals)
    ensures c.m.globals == b.m.globals && c.m.constants == b.m.constants && c.m.stack == b.m.stack
    ensures c.a == b.a.(sp := sp + fn.numLocals)
  {
    hide Goes, Fetch;
    var i := Instr(OpCall, 0);
    InTop(b, fs, f, sp, f.ip + 1);
    c := Pair(Exec(b.m, i).m, Effect(b.a, Enter(0, fn.numLocals)));
    OneTick(b, c);
  }

  /** `return` of the value on top, into the caller g. */
  lemma {:induction false} Returns(b: Pair, fs: seq<Frame>, g: Frame, f: Frame, sp: nat) returns (c: Pair)
    requires In(b, fs + [g], f, sp) && 0 < f.base <= sp
    requires Fetch(f.fn.code, f.ip) == Some(Plain(OpReturnValue))
    ensures Goes(b, c) && In(c, fs, g.(ip := g.ip + 1), f.base) && SameBut(b, c)
    ensures c.m.stack == b.m.stack[f.base - 1 := b.m.stack[sp - 1]]
    ensures c.a.stack == b.a.stack[f.base - 1 := b.a.stack[sp - 1]]
  {
    hide Goes, Fetch;
    var i := Plain(OpReturnValue);
    InTop(b, fs + [g], f, sp, f.ip);
    ReturnsTo(fs, g, f);
    c := Pair(Exec(b.m, i).m, Effect(b.a, Leave(f.base)));
    OneTick(b, c);
  }

  lemma {:induction false} ReturnsTo(fs: seq<Frame>, g: Frame, f: Frame)
    ensures var all := fs + [g] + [f]; all[|all| - 2] == g && all[..|all| - 2] == fs
  {
  }

  /** `print` of two values. */
  lemma {:induction false} Prints(b: Pair, fs: seq<Frame>, f: Frame, sp: nat) returns (c: Pair)
    requires In(b, fs, f, sp) && sp >= 3 && b.m.stack[sp - 3] == VBuiltin(0)
    requires Fetch(f.fn.code, f.ip) == Some(Instr(OpCall, 2))
    ensures Goes(b, c) && In(c, fs, f.(ip := f.ip + 2), sp - 2) && SameBut(b, c)
    ensures c.m.stack == b.m.stack[sp - 3 := VNull] && c.a.stack == b.a.stack[sp - 3 := Null]
  {
    hide Goes, Fetch;
    var i := Instr(OpCall, 2);
    InTop(b, fs, f, sp, f.ip + 2);
    assert CallBuiltin(0, b.m.heap, b.m.stack[sp - 2..sp]) == Some((b.m.heap, VNull));
    c := Pair(Exec(b.m, i).m, Effect(b.a, Replace(3, Null)));
    OneTick(b, c);
  }

  /** `fn() { while (false) { ... } }` */
  predicate IdleCode(code: seq<byte>, out: nat) {
    && Fetch(code, 0) == Some(Plain(OpNull)) && Fetch(code, 1) == Some(Plain(OpFalse))
    && Fetch(code, 2) == Some(Instr(OpJumpNotTrue, out)) && Fetch(code, out) == Some(Plain(OpReturnValue))
  }

  /** Its slots are as they were left. */
  lemma {:induction false} Idles(b: Pair, g: Frame, fn: Compiled, out: nat) returns (c: Pair)
    requires In(b, [g], Frame(fn, 0, 1), 3) && IdleCode(fn.code, out)
    ensures Goes(b, c) && In(c, [], g.(ip := g.ip + 1), 1) && SameBut(b, c) && c.a.stack[2] == b.a.stack[2]
  {
    hide Goes, Fetch;
    var fs := [] + [g];
    var b1 := Pushes(b, fs, Frame(fn, 0, 1), 3, Plain(OpNull), VNull, Null);
    var b2 := Pushes(b1, fs, Frame(fn, 1, 1), 4, Plain(OpFalse), VBool(false), Scalar);
    var b3 := Tests(b2, fs, Frame(fn, 2, 1), 5, out);
    c := Returns(b3, [], g, Frame(fn, out, 1), 4);
    GoesOn(b, b1, b2);
    GoesOn(b, b2, b3);
    GoesOn(b, b3, c);
  }

  /** `while (true) { s + s; f(); }` */
  predicate StaleLoopAt(code: seq<byte>, p: nat, out: nat) {
    && HeadAt(code, p, 0, out) && Fetch(code, p + 12) == Some(Plain(OpPop))
    && Fetch(code, p + 13) == Some(Instr(OpGetGlobal, 1)) && Fetch(code, p + 16) == Some(Instr(OpCall, 0))
    && Fetch(code, p + 18) == Some(Instr(OpJump, p))
  }

  /** Global 1 is such a function, with two slots. */
  predicate IdleFun(b: Pair, fn: Compiled, end: nat) {
    1 < |b.m.globals| && b.m.globals[1] == VFun(fn) && fn.numLocals == 2 && IdleCode(fn.code, end)
  }

  /** The second half of a round, up to the call. */
  lemma {:induction false} CallRound(b: Pair, f: Frame, fn: Compiled, end: nat) returns (c: Pair)
    requires In(b, [], f, 1) && IdleFun(b, fn, end) && Fetch(f.fn.code, f.ip) == Some(Plain(OpPop))
    requires Fetch(f.fn.code, f.ip + 1) == Some(Instr(OpGetGlobal, 1))
    requires Fetch(f.fn.code, f.ip + 4) == Some(Instr(OpCall, 0))
    ensures Goes(b, c) && In(c, [f.(ip := f.ip + 5)], Frame(fn, 0, 1), 3) && SameBut(b, c)
    ensures c.a.stack[2] == b.a.stack[2]
  {
    hide Goes, Fetch, IdleCode;
    var b1 := Pops(b, [], f, 1);
    var b2 := Pushes(b1, [], f.(ip := f.ip + 1), 0, Instr(OpGetGlobal, 1), b1.m.globals[1], b1.a.globals[1]);
    c := Calls(b2, [], f.(ip := f.ip + 4), 1, fn);
    assert [] + [f.(ip := f.ip + 5)] == [f.(ip := f.ip + 5)];
    GoesOn(b, b1, b2);
    GoesOn(b, b2, c);
  }

  /** The loop goes round, with x in slot 2, until x is freed; then the function is called once more. */
  lemma {:induction false} StaleRounds(b: Pair, f: Frame, out: nat, fn: Compiled, end: nat, x: Obj, n: nat)
                                       returns (c: Pair)
    requires In(b, [], f, 1) && StaleLoopAt(f.fn.code, f.ip, out) && IdleFun(b, fn, end)
    requires Waits(b, 0, x, n) && n <= 205 && b.a.stack[2] == x
    ensures Goes(b, c) && In(c, [f.(ip := f.ip + 17)], Frame(fn, 0, 1), 3) && c.a.stack[2] == x && x in c.a.freed
    decreases 205 - n
  {
    hide Goes, Fetch, Waits, HeadAt, IdleCode;
    var b1 := HalfRound(b, f, 0, out, x, n);
    c := CallRound(b1, f.(ip := f.ip + 12), fn, end);
    GoesOn(b, b1, c);
    if n < 205 {
      var b2 := Idles(c, f.(ip := f.ip + 17), fn, end);
      var b3 := Jumps(b2, [], f.(ip := f.ip + 18), 1, f.ip);
      assert SameBut(b1, b3);
      SameWaits(b1, b3, 0, x, n + 1);
      GoesOn(b, c, b2);
      GoesOn(b, b2, b3);
      c := StaleRounds(b3, f, out, fn, end, x, n + 1);
      GoesOn(b, b3, c);
    }
  }

  /** `let s = "..."; let f = fn() {...}; print(1, s + s);` and the null under the loop. */
  predicate StaleCode(code: seq<byte>) {
    && Fetch(code, 0) == Some(Instr(OpConst, 0)) && Fetch(code, 3) == Some(Instr(OpSetGlobal, 0))
    && Fetch(code, 6) == Some(Instr(OpConst, 1)) && Fetch(code, 9) == Some(Instr(OpSetGlobal, 1))
    && Fetch(code, 12) == Some(Instr(OpGetBuiltin, 0)) && Fetch(code, 14) == Some(Instr(OpConst, 2))
    && DoublesAt(code, 17, 0) && Fetch(code, 24) == Some(Instr(OpCall, 2)) && Fetch(code, 26) == Some(Plain(OpPop))
    && Fetch(code, 27) == Some(Plain(OpNull)) && StaleLoopAt(code, 28, 49)
  }

  /** A constant becomes a global. */
  lemma {:induction false} Keeping(b: Pair, f: Frame, k: nat, g: nat) returns (c: Pair)
    requires Fresh(b, f) && AllOld(b.a.globals, b.a.next) && k < |b.m.constants| && g < GLOBALS_SIZE
    requires Fetch(f.fn.code, f.ip) == Some(Instr(OpConst, k))
    requires Fetch(f.fn.code, f.ip + 3) == Some(Instr(OpSetGlobal, g))
    ensures Goes(b, c) && Fresh(c, f.(ip := f.ip + 6)) && AllOld(c.a.globals, c.a.next)
    ensures c.m.globals == b.m.globals[g := b.m.constants[k]] && c.m.constants == b.m.constants
  {
    hide Goes, Fetch, AllOld;
    var b1 := Pushes(b, [], f, 0, Instr(OpConst, k), b.m.constants[k], b.a.constants[k]);
    c := Stores(b1, [], f.(ip := f.ip + 3), 1, g);
    OldAt(b.a.constants, b.a.next, k);
    PutOld(b.a.globals, b.a.next, g, b.a.constants[k]);
    GoesOn(b, b1, c);
  }

  /** `print(1,` on an empty stack. */
  lemma {:induction false} PrintOne(b: Pair, f: Frame) returns (c: Pair)
    requires In(b, [], f.(ip := 12), 0) && |b.m.constants| == 3
    requires Fetch(f.fn.code, 12) == Some(Instr(OpGetBuiltin, 0)) && Fetch(f.fn.code, 14) == Some(Instr(OpConst, 2))
    ensures Goes(b, c) && In(c, [], f.(ip := 17), 2) && SameBut(b, c) && c.m.stack[0] == VBuiltin(0)
  {
    hide Goes, Fetch, DoublesAt, StaleLoopAt;
    var b1 := Pushes(b, [], f.(ip := 12), 0, Instr(OpGetBuiltin, 0), VBuiltin(0), Scalar);
    c := Pushes(b1, [], f.(ip := 14), 1, Instr(OpConst, 2), b1.m.constants[2], b1.a.constants[2]);
    GoesOn(b, b1, c);
  }

  /** `print(1, s + s);` leaves its string in slot 2. */
  lemma {:induction false} LeavesStale(b: Pair, f: Frame) returns (c: Pair)
    requires Fresh(b, f.(ip := 12)) && StaleCode(f.fn.code) && |b.m.constants| == 3 && b.m.globals[0].VStr?
    ensures var x := Obj(StringKind, b.a.next);
            && Goes(b, c) && In(c, [], f.(ip := 28), 1) && c.m.globals == b.m.globals
            && c.a == b.a.(stack := c.a.stack, sp := 1, list := [x], next := b.a.next + 1) && c.a.stack[2] == x
  {
    hide Goes, Fetch, AllOld, DoublesAt, StaleLoopAt;
    var b1 := PrintOne(b, f);
    var b2 := FirstString(b1, f.(ip := 17), 2, 0);
    c := PrintTwo(b2, f);
    GoesOn(b, b1, b2);
    GoesOn(b, b2, c);
  }

  /** The call, and the null under the loop. */
  lemma {:induction false} PrintTwo(b: Pair, f: Frame) returns (c: Pair)
    requires In(b, [], f.(ip := 24), 3) && b.m.stack[0] == VBuiltin(0)
    requires Fetch(f.fn.code, 24) == Some(Instr(OpCall, 2)) && Fetch(f.fn.code, 26) == Some(Plain(OpPop))
    requires Fetch(f.fn.code, 27) == Some(Plain(OpNull))
    ensures Goes(b, c) && In(c, [], f.(ip := 28), 1) && SameBut(b, c) && c.a.stack[2] == b.a.stack[2]
  {
    hide Goes, Fetch, DoublesAt, StaleLoopAt;
    var b1 := Prints(b, [], f.(ip := 24), 3);
    var b2 := Pops(b1, [], f.(ip := 26), 1);
    c := Pushes(b2, [], f.(ip := 27), 0, Plain(OpNull), VNull, Null);
    GoesOn(b, b1, b2);
    GoesOn(b, b2, c);
  }

  /** From the start to the call that exposes the slot. */
  lemma {:induction false} StaleGoes(b: Pair, f: Frame, fn: Compiled, end: nat) returns (c: Pair)
    requires Fresh(b, f) && AllOld(b.a.globals, b.a.next) && f.ip == 0 && StaleCode(f.fn.code) && |b.m.constants| == 3
    requires b.m.constants[0].VStr? && b.m.constants[1] == VFun(fn) && fn.numLocals == 2 && IdleCode(fn.code, end)
    ensures Goes(b, c) && Shape(c.m) && c.m.sp == 3 && |c.a.stack| == STACK_SIZE
    ensures c.a.stack[2].Obj? && c.a.stack[2] in c.a.freed
  {
    hide Goes, Fetch, AllOld, DoublesAt, StaleLoopAt, IdleCode, Addrs, UntilNull;
    var b1 := Keeping(b, f, 0, 0);
    var b2 := Keeping(b1, f.(ip := 6), 1, 1);
    var b3 := LeavesStale(b2, f);
    var x := Obj(StringKind, b2.a.next);
    assert b3.a.list[0] == x;
    NotAmong(b2.a.constants, b2.a.next, x);
    PrefixOld(b2.a.globals, UntilNull(b2.a.globals), b2.a.next);
    NotAmong(UntilNull(b2.a.globals), b2.a.next, x);
    c := StaleRounds(b3, f.(ip := 28), 49, fn, end, x, 1);
    GoesOn(b, b1, b2);
    GoesOn(b, b2, b3);
    GoesOn(b, b3, c);
  }
}
