/** The virtual machine over its arrays (src/vm.c), proved against Machine.Step. */
module VirtualMachine {
  import opened Wrappers
  import opened Opcodes
  import opened Objects
  import opened Machine
  import Runs

  datatype Status = Running | Success | Error(why: Reason)

  /** How a handler ended, given what the instruction should do. */
  predicate Handled(o: Outcome, r: Status, m0: State, m1: State) {
    match o
    case Next(m) => r == Running && m1 == m
    case Halted => r == Success && m1 == m0
    case Fault(why) => r == Error(why)
  }

  lemma {:induction false} CopyListSnoc<F>(h: Heap<F>, vs: seq<Value<F>>, v: Value<F>, d: nat)
    ensures CopyList(h, vs + [v], d)
         == (match CopyList(h, vs, d)
             case None => None
             case Some((h1, cs)) =>
               match Copy(h1, v, d)
               case None => None
               case Some((h2, c)) => Some((h2, cs + [c])))
    decreases |vs|
  {
    if vs == [] {
      assert (vs + [v])[1..] == [];
      if Copy(h, v, d).Some? {
        var (h1, c) := Copy(h, v, d).value;
        assert CopyList(h1, [], d) == Some((h1, []));
        assert [c] + [] == [c] == [] + [c];
      }
    } else {
      assert (vs + [v])[1..] == vs[1..] + [v];
      if Copy(h, vs[0], d).Some? {
        var (h1, c) := Copy(h, vs[0], d).value;
        CopyListSnoc(h1, vs[1..], v, d);
        if CopyList(h1, vs[1..], d).Some? {
          var (h2, cs) := CopyList(h1, vs[1..], d).value;
          if Copy(h2, v, d).Some? {
            var (h3, e) := Copy(h2, v, d).value;
            assert [c] + (cs + [e]) == ([c] + cs) + [e];
          }
        }
      }
    }
  }

  lemma {:induction false} OperatorExec(m: State, i: Instr)
    requires Shape(m) && IsOperator(i.op)
    ensures Exec(m, i) == Operate(m, i.op, Arity(i.op, i.arg), Top(m).ip + 1 + Width(i.op))
  {
    hide Operate;
  }

  /** What an operator leaves, once its operands are off the stack. */
  lemma {:induction false} Operated(m: State, op: Opcode, n: nat, ip: nat, vs: seq<MValue>, h: Heap<Compiled>,
                                    v: MValue, m2: State)
    requires Shape(m) && 0 < n <= m.sp && vs == m.stack[m.sp - n..m.sp]
    requires m2 == Goto(m.(sp := m.sp - n, heap := h), ip).(stack := m.stack[m.sp - n := v], sp := m.sp - n + 1)
    ensures Primitive(op, m.heap, vs) == Some((h, v)) ==> Operate(m, op, n, ip) == Next(m2)
  {
    hide Primitive;
  }

  lemma {:induction false} TooFew(m: State, op: Opcode, n: nat, ip: nat)
    requires Shape(m) && m.sp < n
    ensures Operate(m, op, n, ip) == Fault(StackUnderflow)
  {
  }

  lemma {:induction false} NotOperated(m: State, op: Opcode, n: nat, ip: nat, vs: seq<MValue>)
    requires Shape(m) && 0 < n <= m.sp && vs == m.stack[m.sp - n..m.sp]
    ensures Primitive(op, m.heap, vs) == None ==> Operate(m, op, n, ip) == Fault(BadOperands)
  {
    hide Primitive;
  }

  lemma {:induction false} BinaryPrimitive(op: Opcode, h: Heap<Compiled>, left: MValue, right: MValue)
    requires IsOperator(op) && Arity(op, 0) == 2 && op != OpIndexGet && op != OpArray
    ensures Primitive(op, h, [left, right]) == (match BinaryOp(op, left, right) case None => None
            case Some(v) => Some((h, v)))
  {
    hide BinaryOp;
  }

  lemma {:induction false} OneMore(m: State, n: nat, m1: State, m2: State)
    requires Runs.Steps(Advance, m, n, m1) && Advance(m1) == Some(m2)
    ensures Runs.Steps(Advance, m, n + 1, m2)
  {
    hide Advance;
    assert Runs.Steps(Advance, m2, 0, m2);
    assert Runs.Steps(Advance, m1, 1, m2);
    Runs.StepsCompose(Advance, m, n, m1, 1, m2);
  }

  /** A list that cannot be copied up to n cannot be copied. */
  lemma {:induction false} CopyListPrefix<F>(h: Heap<F>, vs: seq<Value<F>>, n: nat, d: nat)
    requires n <= |vs|
    ensures CopyList(h, vs[..n], d).None? ==> CopyList(h, vs, d).None?
    decreases |vs| - n
  {
    if n == |vs| {
      assert vs[..n] == vs;
    } else {
      CopyListSnoc(h, vs[..n], vs[n], d);
      assert vs[..n + 1] == vs[..n] + [vs[n]];
      CopyListPrefix(h, vs, n + 1, d);
    }
  }

  /** A slice, element by element: the loops of build_slice_from_array and build_slice_from_string. */
  method Slice<T>(source: seq<T>, start: int, end: int) returns (r: Option<seq<T>>)
    ensures r == SliceOf(source, start, end)
  {
    var lo, hi := start, end;
    if lo < 0 {
      lo := ToInt32(|source| + lo);
    }
    if hi <= 0 {
      hi := ToInt32(|source| + hi);
    }
    if hi < lo {
      hi := lo;
    }
    if lo < hi && lo < 0 {
      return None;
    }
    var values := [];
    var i := lo;
    while i < hi && i < |source|
      invariant lo <= i <= hi && (lo < hi ==> 0 <= lo)
      invariant lo < i ==> i <= |source|
      invariant values == if lo < i then source[lo..i] else []
    {
      assert source[lo..i + 1] == source[lo..i] + [source[i]];
      values := values + [source[i]];
      i := i + 1;
    }
    r := Some(values);
  }

  /** The pieces between delimiters: the strstr loop of str_split. */
  method SplitString(s: string, delim: string) returns (pieces: seq<string>)
    requires delim != ""
    ensures pieces == Split(s, delim)
  {
    pieces := [];
    var rest := s;
    var p := Find(rest, delim);
    while p.Some?
      invariant p == Find(rest, delim)
      invariant pieces + Split(rest, delim) == Split(s, delim)
      decreases |rest|
    {
      pieces := pieces + [rest[..p.value]];
      rest := rest[p.value + |delim|..];
      p := Find(rest, delim);
    }
    pieces := pieces + [rest];
  }

  predicate IsLoad(op: Opcode) {
    match op
    case OpConst => true case OpNull => true case OpTrue => true case OpFalse => true
    case OpGetGlobal => true case OpGetLocal => true case OpGetBuiltin => true
    case _ => false
  }

  class Vm {
    const stack: array<MValue>
    const frames: array<Frame>
    const globals: array<MValue>
    var sp: nat
    var frameIndex: nat
    var constants: seq<MValue>
    var heap: Heap<Compiled>

    ghost predicate Valid()
      reads this
    {
      && stack.Length == STACK_SIZE && frames.Length == FRAMES_SIZE && globals.Length == GLOBALS_SIZE
      && stack != globals && sp <= STACK_SIZE && frameIndex < FRAMES_SIZE && |constants| <= CONSTANTS_SIZE
    }

    ghost function Now(): (m: State)
      requires Valid()
      reads this, stack, frames, globals
      ensures Shape(m)
    {
      State(stack[..], sp, frames[..frameIndex + 1], globals[..], constants, heap)
    }

    /** vm_new: the main code in the first frame. The stack holds anything. */
    constructor (code: seq<byte>, consts: seq<MValue>)
      requires |consts| <= CONSTANTS_SIZE
      ensures Valid() && fresh(stack) && fresh(frames) && fresh(globals)
      ensures Now() == State(stack[..], 0, [Frame(Compiled(code, 0), 0, 0)], seq(GLOBALS_SIZE, _ => VNull), consts, [])
    {
      stack := new MValue[STACK_SIZE];
      frames := new Frame[FRAMES_SIZE];
      globals := new MValue[GLOBALS_SIZE](_ => VNull);
      sp, frameIndex, constants, heap := 0, 0, consts, [];
      new;
      frames[0] := Frame(Compiled(code, 0), 0, 0);
      assert frames[..1] == [frames[0]];
      assert globals[..] == seq(GLOBALS_SIZE, _ => VNull);
    }

    /** vm_stack_last_popped. */
    method LastPopped() returns (v: MValue)
      requires Valid() && sp < STACK_SIZE
      ensures v == Now().stack[sp]
    {
      v := stack[sp];
    }

    method Push(v: MValue)
      requires Valid() && sp < STACK_SIZE
      modifies `sp, stack
      ensures Valid() && Now() == old(Now()).(stack := old(Now()).stack[old(sp) := v], sp := old(sp) + 1)
    {
      stack[sp] := v;
      sp := sp + 1;
      assert stack[..] == old(stack[..])[old(sp) := v];
    }

    method Pop() returns (v: MValue)
      requires Valid() && sp > 0
      modifies `sp
      ensures Valid() && Now() == old(Now()).(sp := old(sp) - 1) && v == old(Now()).stack[old(sp) - 1]
    {
      sp := sp - 1;
      v := stack[sp];
    }

    /** The operands of a binary operator; the right one is on top. */
    method PopTwo() returns (left: MValue, right: MValue)
      requires Valid() && sp >= 2
      modifies `sp
      ensures Valid() && var m := old(Now()); Now() == m.(sp := m.sp - 2) && m.stack[m.sp - 2..m.sp] == [left, right]
    {
      right := Pop();
      left := Pop();
    }

    method PopThree() returns (a: MValue, b: MValue, c: MValue)
      requires Valid() && sp >= 3
      modifies `sp
      ensures Valid() && var m := old(Now()); Now() == m.(sp := m.sp - 3) && m.stack[m.sp - 3..m.sp] == [a, b, c]
    {
      c := Pop();
      a, b := PopTwo();
    }

    method MoveTo(ip: nat)
      requires Valid()
      modifies frames
      ensures Valid() && Now() == Goto(old(Now()), ip)
    {
      frames[frameIndex] := frames[frameIndex].(ip := ip);
      assert frames[..frameIndex + 1] == old(frames[..frameIndex + 1])[frameIndex := Top(old(Now())).(ip := ip)];
    }

    /** A handler that pushes one value. */
    method PushNext(v: MValue, ip: nat) returns (r: Status)
      requires Valid()
      modifies `sp, stack, frames
      ensures Valid() && Handled(Machine.Push(old(Now()), v, ip), r, old(Now()), Now())
    {
      if sp >= STACK_SIZE {
        return Error(StackOverflow);
      }
      MoveTo(ip);
      Push(v);
      r := Running;
    }

    // ---- operators ----

    /** Arithmetic, logic and comparison: the result overwrites the left operand. */
    method Binary(op: Opcode, ip: nat) returns (r: Status)
      requires Valid() && IsOperator(op) && Arity(op, 0) == 2 && op != OpIndexGet && op != OpArray
      modifies `sp, stack, frames
      ensures Valid() && Handled(Operate(old(Now()), op, 2, ip), r, old(Now()), Now())
    {
      hide BinaryOp, Operate;
      if sp < 2 {
        TooFew(Now(), op, 2, ip);
        return Error(StackUnderflow);
      }
      ghost var m := Now();
      var right := Pop();
      var left := stack[sp - 1];
      assert m.stack[m.sp - 2..m.sp] == [left, right];
      var v := BinaryOp(op, left, right);
      BinaryPrimitive(op, m.heap, left, right);
      NotOperated(m, op, 2, ip, [left, right]);
      if v.None? {
        return Error(BadOperands);
      }
      Overwrite(v.value, ip);
      Operated(m, op, 2, ip, [left, right], heap, v.value, Now());
      return Running;
    }

    /** The operand is overwritten in place. */
    method Overwrite(v: MValue, ip: nat)
      requires Valid() && sp > 0
      modifies stack, frames
      ensures Valid() && Now() == Goto(old(Now()), ip).(stack := old(Now()).stack[sp - 1 := v])
    {
      stack[sp - 1] := v;
      assert stack[..] == old(stack[..])[sp - 1 := v];
      MoveTo(ip);
    }

    method NotValue(ip: nat) returns (r: Status)
      requires Valid()
      modifies stack, frames
      ensures Valid() && Handled(Operate(old(Now()), OpBang, 1, ip), r, old(Now()), Now())
    {
      hide Bang, Goto;
      if sp < 1 {
        return Error(StackUnderflow);
      }
      ghost var m := Now();
      assert m.stack[m.sp - 1..m.sp] == [stack[sp - 1]];
      Overwrite(VBool(Bang(stack[sp - 1])), ip);
      return Running;
    }

    method NegateValue(ip: nat) returns (r: Status)
      requires Valid()
      modifies stack, frames
      ensures Valid() && Handled(Operate(old(Now()), OpMinus, 1, ip), r, old(Now()), Now())
    {
      hide Goto;
      if sp < 1 {
        return Error(StackUnderflow);
      }
      ghost var m := Now();
      assert m.stack[m.sp - 1..m.sp] == [stack[sp - 1]];
      if !stack[sp - 1].VInt? {
        return Error(BadOperands);
      }
      match IntV<Compiled>(-stack[sp - 1].n)
      case None => return Error(BadOperands);
      case Some(v) =>
        Overwrite(v, ip);
        return Running;
    }

    method GetElement(ip: nat) returns (r: Status)
      requires Valid()
      modifies `sp, stack, frames
      ensures Valid() && Handled(Operate(old(Now()), OpIndexGet, 2, ip), r, old(Now()), Now())
    {
      hide IndexGet, Operate, Goto;
      if sp < 2 {
        TooFew(Now(), OpIndexGet, 2, ip);
        return Error(StackUnderflow);
      }
      ghost var m := Now();
      var left, index := PopTwo();
      var v := IndexGet(heap, left, index);
      r := Conclude(v, ip, OpIndexGet, 2, m, [left, index]);
    }

    /** A handler's end, for the operator that was to do what m and its operands say. */
    method Conclude(v: Option<MValue>, ip: nat, ghost op: Opcode, ghost n: nat, ghost m: State, ghost vs: seq<MValue>)
                    returns (r: Status)
      requires Valid() && Shape(m) && 0 < n <= m.sp && Now() == m.(sp := m.sp - n, heap := heap)
      requires vs == m.stack[m.sp - n..m.sp]
      requires Primitive(op, m.heap, vs) == (match v case None => None case Some(x) => Some((heap, x)))
      modifies `sp, stack, frames
      ensures Valid() && Handled(Operate(m, op, n, ip), r, m, Now())
    {
      hide Operate, Goto, Primitive;
      NotOperated(m, op, n, ip, vs);
      r := Finish(v, ip);
      if v.Some? {
        Operated(m, op, n, ip, vs, heap, v.value, Now());
      }
    }

    /** A handler's end: an operator's result, if it has one, in place of its operands. */
    method Finish(v: Option<MValue>, ip: nat) returns (r: Status)
      requires Valid() && (v.Some? ==> sp < STACK_SIZE)
      modifies `sp, stack, frames
      ensures Valid() && if v.None? then r == Error(BadOperands) else
                r == Running && Now() == Goto(old(Now()), ip).(stack := old(Now()).stack[old(sp) := v.value],
                  sp := old(sp) + 1)
    {
      if v.None? {
        return Error(BadOperands);
      }
      MoveTo(ip);
      Push(v.value);
      return Running;
    }

    method SetElement(ip: nat) returns (r: Status)
      requires Valid()
      modifies `sp, `heap, stack, frames
      ensures Valid() && Handled(Operate(old(Now()), OpIndexSet, 3, ip), r, old(Now()), Now())
    {
      hide IndexSet, Operate, Goto;
      if sp < 3 {
        TooFew(Now(), OpIndexSet, 3, ip);
        return Error(StackUnderflow);
      }
      ghost var m := Now();
      var arr, index, value := PopThree();
      var v := StoreElement(arr, index, value);
      r := Conclude(v, ip, OpIndexSet, 3, m, [arr, index, value]);
    }

    /** The element becomes a deep copy of the value. */
    method StoreElement(arr: MValue, index: MValue, value: MValue) returns (r: Option<MValue>)
      modifies `heap
      ensures match IndexSet(old(heap), arr, index, value)
              case None => r == None
              case Some((h, v)) => heap == h && r == Some(v)
    {
      if !index.VInt? || !arr.VArray? || arr.ref >= |heap| {
        return None;
      }
      if index.n < 0 || index.n >= |heap[arr.ref]| {
        return Some(VError("Array assignment index out of bounds"));
      }
      var c := CopyValue(value, |heap|);
      if c.None? || arr.ref >= |heap| || index.n >= |heap[arr.ref]| {
        return None;
      }
      heap := heap[arr.ref := heap[arr.ref][index.n := c.value]];
      return Some(value);
    }

    method SliceValue(ip: nat) returns (r: Status)
      requires Valid()
      modifies `sp, `heap, stack, frames
      ensures Valid() && Handled(Operate(old(Now()), OpSlice, 3, ip), r, old(Now()), Now())
    {
      hide BuildSlice, Operate, Goto;
      if sp < 3 {
        TooFew(Now(), OpSlice, 3, ip);
        return Error(StackUnderflow);
      }
      ghost var m := Now();
      var left, start, end := PopThree();
      var v := TakeSlice(left, start, end);
      r := Conclude(v, ip, OpSlice, 3, m, [left, start, end]);
    }

    method TakeSlice(left: MValue, start: MValue, end: MValue) returns (r: Option<MValue>)
      modifies `heap
      ensures match BuildSlice(old(heap), left, start, end)
              case None => r == None
              case Some((h, v)) => heap == h && r == Some(v)
    {
      hide SliceOf, BoundOf;
      if !IsBound(start) || !IsBound(end) {
        return Some(VError("Slice indices must be integers."));
      }
      match left
      case VArray(ref) =>
        if ref >= |heap| {
          return None;
        }
        var list := Slice(heap[ref], BoundOf(start), BoundOf(end));
        if list.None? {
          return None;
        }
        heap := heap + [list.value];
        return Some(VArray(|heap| - 1));
      case VStr(s) =>
        var t := Slice(s, BoundOf(start), BoundOf(end));
        if t.None? {
          return None;
        }
        return Some(VStr(t.value));
      case _ => return Some(VError("Invalid object type for slice operation"));
    }

    // ---- arrays ----

    /** copy_object, arrays nested at most d deep. */
    method CopyValue(v: MValue, d: nat) returns (r: Option<MValue>)
      modifies `heap
      ensures match Copy(old(heap), v, d)
              case None => r == None
              case Some((h, c)) => heap == h && r == Some(c)
      decreases d, 0
    {
      if !v.VArray? {
        return Some(v);
      }
      if d == 0 || v.ref >= |heap| {
        return None;
      }
      var list := CopyValues(heap[v.ref], d - 1);
      if list.None? {
        return None;
      }
      heap := heap + [list.value];
      return Some(VArray(|heap| - 1));
    }

    /** copy_object_list. */
    method CopyValues(vs: seq<MValue>, d: nat) returns (r: Option<seq<MValue>>)
      modifies `heap
      ensures match CopyList(old(heap), vs, d)
              case None => r == None
              case Some((h, cs)) => heap == h && r == Some(cs)
      decreases d, 1
    {
      var list := [];
      for i := 0 to |vs|
        invariant CopyList(old(heap), vs[..i], d) == Some((heap, list))
      {
        CopyListSnoc(old(heap), vs[..i], vs[i], d);
        assert vs[..i + 1] == vs[..i] + [vs[i]];
        CopyListPrefix(old(heap), vs, i + 1, d);
        var c := CopyValue(vs[i], d);
        if c.None? {
          return None;
        }
        list := list + [c.value];
      }
      assert vs[..|vs|] == vs;
      return Some(list);
    }

    method BuildArrayValue(n: nat, ip: nat) returns (r: Status)
      requires Valid()
      modifies `sp, `heap, stack, frames
      ensures Valid() && Handled(Operate(old(Now()), OpArray, n, ip), r, old(Now()), Now())
    {
      hide CopyList;
      if sp < n {
        return Error(StackUnderflow);
      }
      if n == 0 && sp == STACK_SIZE {
        return Error(StackOverflow);
      }
      var list := CopyValues(stack[sp - n..sp], |heap|);
      if list.None? {
        return Error(BadOperands);
      }
      heap := heap + [list.value];
      sp := sp - n;
      MoveTo(ip);
      Push(VArray(|heap| - 1));
      return Running;
    }

    // ---- calls ----

    method CallFunction(fn: Compiled, n: nat, ip: nat) returns (r: Status)
      requires Valid() && n + 1 <= sp && stack[sp - 1 - n] == VFun(fn)
      modifies `sp, `frameIndex, frames
      ensures Valid() && Handled(Machine.Call(old(Now()), n, ip), r, old(Now()), Now())
    {
      if frameIndex + 1 >= FRAMES_SIZE || sp - n + fn.numLocals > STACK_SIZE {
        return Error(StackOverflow);
      }
      ghost var m := Now();
      MoveTo(ip + 1);
      frameIndex := frameIndex + 1;
      frames[frameIndex] := Frame(fn, 0, sp - n);
      sp := sp - n + fn.numLocals;
      assert frames[..frameIndex + 1] == Goto(m, ip + 1).frames + [Frame(fn, 0, m.sp - n)];
      return Running;
    }

    method CallBuiltinFunction(i: nat, n: nat, ip: nat) returns (r: Status)
      requires Valid() && n + 1 <= sp && stack[sp - 1 - n] == VBuiltin(i)
      modifies `sp, `heap, stack, frames
      ensures Valid() && Handled(Machine.Call(old(Now()), n, ip), r, old(Now()), Now())
    {
      hide CallBuiltin;
      if n > ARGS_SIZE {
        return Error(BadCall);
      }
      ghost var m := Now();
      var args := [];
      for k := sp - n to sp
        invariant unchanged(this) && unchanged(stack) && unchanged(frames)
        invariant args == stack[sp - n..k]
      {
        args := args + [stack[k]];
      }
      var v := Builtin(i, args);
      if v.None? {
        return Error(BadOperands);
      }
      sp := sp - n - 1;
      MoveTo(ip + 2);
      Push(v.value);
      return Running;
    }

    /** The builtins that work in loops or on lists in place; the others are pure. */
    method Builtin(i: nat, args: seq<MValue>) returns (r: Option<MValue>)
      modifies `heap
      ensures match CallBuiltin(i, old(heap), args)
              case None => r == None
              case Some((h, v)) => heap == h && r == Some(v)
    {
      if i == 4 && |args| == 1 && args[0].VArray? {
        r := PopElement(args[0].ref);
      } else if i == 5 && |args| == 2 && args[0].VArray? {
        r := PushElement(args[0].ref, args[1]);
      } else if i == 7 && |args| == 2 && args[0].VStr? && args[1].VStr? && args[1].s != "" {
        var pieces := SplitString(args[0].s, args[1].s);
        heap := heap + [Strings(pieces)];
        r := Some(VArray(|heap| - 1));
      } else {
        match CallBuiltin(i, heap, args)
        case None => r := None;
        case Some((h, v)) =>
          heap := h;
          r := Some(v);
      }
    }

    /** The list gets shorter first; then its old last element is copied. */
    method PopElement(ref: nat) returns (r: Option<MValue>)
      modifies `heap
      ensures match ArrayPop(old(heap), ref)
              case None => r == None
              case Some((h, v)) => heap == h && r == Some(v)
    {
      if ref >= |heap| {
        return None;
      }
      if heap[ref] == [] {
        return Some(VNull);
      }
      var last := heap[ref][|heap[ref]| - 1];
      heap := heap[ref := heap[ref][..|heap[ref]| - 1]];
      r := CopyValue(last, |heap|);
    }

    method PushElement(ref: nat, v: MValue) returns (r: Option<MValue>)
      modifies `heap
      ensures match ArrayPush(old(heap), ref, v)
              case None => r == None
              case Some((h, n)) => heap == h && r == Some(n)
    {
      if ref >= |heap| {
        return None;
      }
      var c := CopyValue(v, |heap|);
      if c.None? || ref >= |heap| {
        return None;
      }
      heap := heap[ref := heap[ref] + [c.value]];
      return Some(VInt(|heap[ref]|));
    }

    method CallValue(n: nat, ip: nat) returns (r: Status)
      requires Valid()
      modifies `sp, `frameIndex, `heap, stack, frames
      ensures Valid() && Handled(Machine.Call(old(Now()), n, ip), r, old(Now()), Now())
    {
      hide CallBuiltin;
      if sp < n + 1 {
        return Error(StackUnderflow);
      }
      match stack[sp - 1 - n]
      case VFun(fn) => r := CallFunction(fn, n, ip);
      case VBuiltin(i) => r := CallBuiltinFunction(i, n, ip);
      case _ => return Error(BadCall);
    }

    /** Both return instructions. */
    method ReturnWith(v: MValue) returns (r: Status)
      requires Valid()
      modifies `sp, `frameIndex, stack, frames
      ensures Valid() && Handled(Machine.Return(old(Now()), v), r, old(Now()), Now())
    {
      var base := frames[frameIndex].base;
      if frameIndex == 0 || base == 0 || base > STACK_SIZE {
        return Error(StackUnderflow);
      }
      ghost var m := Now();
      sp := base - 1;
      frameIndex := frameIndex - 1;
      Push(v);
      frames[frameIndex] := frames[frameIndex].(ip := frames[frameIndex].ip + 1);
      assert frames[..frameIndex + 1] == m.frames[..|m.frames| - 2]
             + [m.frames[|m.frames| - 2].(ip := m.frames[|m.frames| - 2].ip + 1)];
      return Running;
    }

    // ---- variables and jumps ----

    method JumpNotTrue(i: Instr) returns (r: Status)
      requires Valid() && i.op == OpJumpNotTrue
      modifies `sp, frames
      ensures Valid() && Handled(Exec(old(Now()), i), r, old(Now()), Now())
    {
      if sp == 0 {
        return Error(StackUnderflow);
      }
      var ip := frames[frameIndex].ip;
      var condition := Pop();
      if Truthy(condition) {
        MoveTo(ip + 3);
      } else {
        MoveTo(i.arg);
      }
      return Running;
    }

    method SetGlobal(i: Instr) returns (r: Status)
      requires Valid() && i.op == OpSetGlobal
      modifies `sp, frames, globals
      ensures Valid() && Handled(Exec(old(Now()), i), r, old(Now()), Now())
    {
      if sp == 0 {
        return Error(StackUnderflow);
      }
      if i.arg >= GLOBALS_SIZE {
        return Error(BadIndex);
      }
      MoveTo(frames[frameIndex].ip + 3);
      var v := Pop();
      globals[i.arg] := v;
      assert globals[..] == old(globals[..])[i.arg := v];
      return Running;
    }

    method SetLocal(i: Instr) returns (r: Status)
      requires Valid() && i.op == OpSetLocal
      modifies `sp, frames, stack
      ensures Valid() && Handled(Exec(old(Now()), i), r, old(Now()), Now())
    {
      var base := frames[frameIndex].base;
      if sp == 0 {
        return Error(StackUnderflow);
      }
      if base + i.arg >= STACK_SIZE {
        return Error(BadIndex);
      }
      MoveTo(frames[frameIndex].ip + 2);
      var v := Pop();
      stack[base + i.arg] := v;
      assert stack[..] == old(stack[..])[base + i.arg := v];
      return Running;
    }

    /** The instructions that push one value. */
    method Load(i: Instr) returns (r: Status)
      requires Valid() && IsLoad(i.op)
      modifies `sp, stack, frames
      ensures Valid() && Handled(Exec(old(Now()), i), r, old(Now()), Now())
    {
      hide Operate, Machine.Call, Machine.Return, Machine.Push;
      var Frame(_, ip, base) := frames[frameIndex];
      match i.op
      case OpConst =>
        if i.arg >= |constants| {
          return Error(BadIndex);
        }
        r := PushNext(constants[i.arg], ip + 3);
      case OpNull => r := PushNext(VNull, ip + 1);
      case OpTrue => r := PushNext(VBool(true), ip + 1);
      case OpFalse => r := PushNext(VBool(false), ip + 1);
      case OpGetGlobal =>
        if i.arg >= GLOBALS_SIZE {
          return Error(BadIndex);
        }
        r := PushNext(globals[i.arg], ip + 3);
      case OpGetLocal =>
        if base + i.arg >= STACK_SIZE {
          return Error(BadIndex);
        }
        r := PushNext(stack[base + i.arg], ip + 2);
      case OpGetBuiltin =>
        if i.arg >= BUILTINS {
          return Error(BadIndex);
        }
        r := PushNext(VBuiltin(i.arg), ip + 2);
    }

    /** The operators. */
    method Calculate(i: Instr, ip: nat) returns (r: Status)
      requires Valid() && IsOperator(i.op)
      modifies `sp, `heap, stack, frames
      ensures Valid() && Handled(Operate(old(Now()), i.op, Arity(i.op, i.arg), ip), r, old(Now()), Now())
    {
      hide Operate;
      if i.op == OpArray {
        r := BuildArrayValue(i.arg, ip);
      } else if i.op == OpIndexGet {
        r := GetElement(ip);
      } else if i.op == OpIndexSet {
        r := SetElement(ip);
      } else if i.op == OpSlice {
        r := SliceValue(ip);
      } else if i.op == OpMinus {
        r := NegateValue(ip);
      } else if i.op == OpBang {
        r := NotValue(ip);
      } else {
        r := Binary(i.op, ip);
      }
    }

    /** Jumps, stores, calls and returns. */
    method Control(i: Instr, ip: nat) returns (r: Status)
      requires Valid() && !IsLoad(i.op) && !IsOperator(i.op) && frames[frameIndex].ip == ip
      modifies this, stack, frames, globals
      ensures Valid() && Handled(Exec(old(Now()), i), r, old(Now()), Now())
    {
      hide Operate, Machine.Call, Machine.Return, Machine.Push;
      match i.op
      case OpPop =>
        if sp == 0 {
          return Error(StackUnderflow);
        }
        MoveTo(ip + 1);
        var _ := Pop();
        return Running;
      case OpJump =>
        MoveTo(i.arg);
        return Running;
      case OpJumpNotTrue => r := JumpNotTrue(i);
      case OpSetGlobal => r := SetGlobal(i);
      case OpSetLocal => r := SetLocal(i);
      case OpCall => r := CallValue(i.arg, ip);
      case OpReturnValue =>
        if sp == 0 {
          return Error(StackUnderflow);
        }
        r := ReturnWith(stack[sp - 1]);
      case OpReturn => r := ReturnWith(VNull);
      case OpHalt => return Success;
    }

    /** The handler of one instruction. */
    method Execute(i: Instr) returns (r: Status)
      requires Valid()
      modifies this, stack, frames, globals
      ensures Valid() && Handled(Exec(old(Now()), i), r, old(Now()), Now())
    {
      hide Operate, Machine.Call, Machine.Return, Machine.Push, Goto;
      var ip := frames[frameIndex].ip;
      if IsOperator(i.op) {
        OperatorExec(Now(), i);
        r := Calculate(i, ip + 1 + Width(i.op));
      } else if IsLoad(i.op) {
        r := Load(i);
      } else {
        r := Control(i, ip);
      }
    }

    /** Fetch, decode and execute. */
    method StepOnce() returns (r: Status)
      requires Valid()
      modifies this, stack, frames, globals
      ensures Valid() && Handled(Step(old(Now())), r, old(Now()), Now())
    {
      hide Fetch, Exec;
      var Frame(fn, ip, _) := frames[frameIndex];
      match Fetch(fn.code, ip)
      case None => return Error(BadCode);
      case Some(i) => r := Execute(i);
    }

    /** The dispatch loop, for at most `limit` instructions. */
    method Run(limit: nat) returns (r: Status, ghost n: nat)
      requires Valid()
      modifies this, stack, frames, globals
      ensures Valid() && n <= limit
      ensures r == Running ==> n == limit && Runs.Steps(Advance, old(Now()), n, Now())
      ensures r == Success ==> n < limit && Runs.Steps(Advance, old(Now()), n, Now()) && Step(Now()) == Halted
      ensures r.Error? ==> exists m :: Runs.Steps(Advance, old(Now()), n, m) && Shape(m) && Step(m) == Fault(r.why)
    {
      hide Step;
      n := 0;
      r := Running;
      var left := limit;
      while left > 0
        invariant Valid() && n == limit - left && r == Running
        invariant Runs.Steps(Advance, old(Now()), n, Now())
      {
        ghost var m := Now();
        r := StepOnce();
        if r != Running {
          assert r.Error? ==> Shape(m) && Step(m) == Fault(r.why);
          return;
        }
        Runs.ReachesStep(Advance, m);
        OneMore(old(Now()), n, m, Now());
        n := n + 1;
        left := left - 1;
      }
    }
  }
}
