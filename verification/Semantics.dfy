/**
 The meaning of resolved programs, independent of bytecode. `room` is the number
 of free stack slots, `depth` the number of further calls that fit, `fuel` bounds
 loop rounds and calls; a program that needs more of any of them fails here.
 */
module Semantics {
  import opened Wrappers
  import opened Core
  import opened Objects

  type SValue = Value<Fun>

  /** A local slot that was not written since the call began has no value. */
  datatype Store = Store(globals: seq<SValue>, locals: seq<Option<SValue>>, heap: Heap<Fun>)

  datatype Answer =
    | Normal(v: SValue, st: Store)
    | Broke(st: Store)
    | Continued(st: Store)
    | Returned(v: SValue, st: Store)
    | Failed

  datatype Answers = Values(vs: seq<SValue>, st: Store) | Stopped(r: Answer)

  function LitV<F>(lit: Lit): Value<F> {
    match lit
    case IntLit(n) => VInt(n)
    case StrLit(s) => VStr(s)
  }

  function Load(v: Var, st: Store): Option<SValue> {
    match v
    case Global(i) => if i < |st.globals| then Some(st.globals[i]) else None
    case Local(i) => if i < |st.locals| then st.locals[i] else None
    case Builtin(i) => if i < BUILTINS then Some(VBuiltin(i)) else None
  }

  function Save(v: Var, x: SValue, st: Store): Option<Store> {
    match v
    case Global(i) => if i < |st.globals| then Some(st.(globals := st.globals[i := x])) else None
    case _ => if v.i < |st.locals| then Some(st.(locals := st.locals[v.i := Some(x)])) else None
  }

  function Leaf(v: SValue, st: Store, room: int): Answer {
    if room < 1 then Failed else Normal(v, st)
  }

  function Apply(r: Option<(Heap<Fun>, SValue)>, st: Store, room: int): Answer {
    if r.None? || room < 1 then Failed else Normal(r.value.1, st.(heap := r.value.0))
  }

  function Assigned(v: Var, x: SValue, st: Store, result: SValue): Answer {
    match Save(v, x, st)
    case None => Failed
    case Some(st1) => Normal(result, st1)
  }

  function EvalT(t: Term, st: Store, room: int, depth: nat, fuel: nat): Answer
    decreases fuel, 1, t, 1
  {
    match t
    case Const(_, lit) => Leaf(LitV(lit), st, room)
    case Lambda(_, f) => Leaf(VFun(f), st, room)
    case Null => Leaf(VNull, st, room)
    case Truth(b) => Leaf(VBool(b), st, room)
    case Get(v) =>
      (match Load(v, st)
       case None => Failed
       case Some(x) => Leaf(x, st, room))
    case Prim(_, _) => EvalPrim(t, st, room, depth, fuel)
    case Bump(_, _, _) => EvalBump(t, st, room)
    case Put(_, _) => EvalPut(t, st, room, depth, fuel)
    case Cond(_, _, _) => EvalCond(t, st, room, depth, fuel)
    case Loop(c, body) =>
      if room < 1 then Failed else EvalLoop(Some(c), body, [], VNull, st, room, depth, fuel)
    case ForLoop(_, _, _, _) => EvalFor(t, st, room, depth, fuel)
    case Call(_, _) => EvalApply(t, st, room, depth, fuel)
  }

  function EvalPrim(t: Term, st: Store, room: int, depth: nat, fuel: nat): Answer
    requires t.Prim?
    decreases fuel, 1, t, 0
  {
    match EvalTs(t.args, st, room, depth, fuel)
    case Stopped(r) => r
    case Values(vs, st1) => Apply(Primitive(t.op, st1.heap, vs), st1, room)
  }

  /** The value of x++ is the old value. */
  function EvalBump(t: Term, st: Store, room: int): Answer
    requires t.Bump?
  {
    match Load(t.v, st)
    case None => Failed
    case Some(x) =>
      match Primitive(t.step, st.heap, [x, VInt(1)])
      case None => Failed
      case Some((h, y)) => if room < 3 then Failed else Assigned(t.v, y, st.(heap := h), x)
  }

  /** The value of an assignment is read back from the variable. */
  function EvalPut(t: Term, st: Store, room: int, depth: nat, fuel: nat): Answer
    requires t.Put?
    decreases fuel, 1, t, 0
  {
    match EvalT(t.value, st, room, depth, fuel)
    case Normal(x, st1) =>
      (match Save(t.v, x, st1)
       case None => Failed
       case Some(st2) =>
         match Load(t.v, st2)
         case None => Failed
         case Some(y) => Normal(y, st2))
    case r => r
  }

  function EvalCond(t: Term, st: Store, room: int, depth: nat, fuel: nat): Answer
    requires t.Cond?
    decreases fuel, 1, t, 0
  {
    match EvalT(t.test, st, room, depth, fuel)
    case Normal(b, st1) => EvalB(if Truthy(b) then t.conseq else t.alt, st1, room, depth, fuel)
    case r => r
  }

  function EvalFor(t: Term, st: Store, room: int, depth: nat, fuel: nat): Answer
    requires t.ForLoop?
    decreases fuel, 1, t, 0
  {
    if room < 1 then Failed else
    match EvalB(t.init, st, room - 1, depth, fuel)
    case Normal(_, st1) => EvalLoop(t.until, t.body, t.inc, VNull, st1, room, depth, fuel)
    case r => r
  }

  function EvalApply(t: Term, st: Store, room: int, depth: nat, fuel: nat): Answer
    requires t.Call?
    decreases fuel, 1, t, 0
  {
    match EvalT(t.callee, st, room, depth, fuel)
    case Normal(callee, st1) =>
      (match EvalTs(t.args, st1, room - 1, depth, fuel)
       case Stopped(r) => r
       case Values(vs, st2) => EvalCall(callee, vs, st2, room, depth, fuel))
    case r => r
  }

  function EvalTs(ts: seq<Term>, st: Store, room: int, depth: nat, fuel: nat): (r: Answers)
    ensures r.Values? ==> |r.vs| == |ts|
    ensures r.Stopped? ==> !r.r.Normal?
    decreases fuel, 1, ts
  {
    if ts == [] then Values([], st) else
    match EvalT(ts[0], st, room, depth, fuel)
    case Normal(v, st1) =>
      (match EvalTs(ts[1..], st1, room - 1, depth, fuel)
       case Values(vs, st2) => Values([v] + vs, st2)
       case r => r)
    case r => Stopped(r)
  }

  function EvalC(c: Cmd, st: Store, room: int, depth: nat, fuel: nat): Answer
    decreases fuel, 1, c
  {
    match c
    case Define(v, e) =>
      (match EvalT(e, st, room, depth, fuel)
       case Normal(x, st1) => Assigned(v, x, st1, VNull)
       case r => r)
    case Return(e) =>
      (match EvalT(e, st, room, depth, fuel)
       case Normal(x, st1) => Returned(x, st1)
       case r => r)
    case Eval(e) => EvalT(e, st, room, depth, fuel)
    case Break => if room < 1 then Failed else Broke(st)
    case Continue => if room < 1 then Failed else Continued(st)
  }

  /** The value of a block is that of its last command: null unless that is an expression. */
  function EvalB(b: seq<Cmd>, st: Store, room: int, depth: nat, fuel: nat): Answer
    decreases fuel, 1, b
  {
    if b == [] then Normal(VNull, st) else
    match EvalC(b[0], st, room, depth, fuel)
    case Normal(v, st1) => if |b| == 1 then Normal(v, st1) else EvalB(b[1..], st1, room, depth, fuel)
    case r => r
  }

  /**
   The rounds of a loop; v is the value of the rounds so far, which is on the
   stack while the test and the increment run. An empty body leaves it alone.
   */
  function EvalLoop(until: Option<Term>, body: seq<Cmd>, inc: seq<Cmd>, v: SValue,
                    st: Store, room: int, depth: nat, fuel: nat): Answer
    decreases fuel, 0
  {
    if fuel == 0 then Failed else
    match EvalTest(until, st, room - 1, depth, fuel - 1)
    case Normal(b, st1) =>
      if !Truthy(b) then Normal(v, st1) else
      (match EvalBody(body, v, st1, room, depth, fuel - 1)
       case Normal(w, st2) =>
         (match EvalB(inc, st2, room - 1, depth, fuel - 1)
          case Normal(_, st3) => EvalLoop(until, body, inc, w, st3, room, depth, fuel - 1)
          case r => r)
       case Broke(st2) => Normal(VNull, st2)
       case r => r)
    case r => r
  }

  function EvalTest(until: Option<Term>, st: Store, room: int, depth: nat, fuel: nat): Answer
    decreases fuel, 2
  {
    match until
    case None => Normal(VBool(true), st)
    case Some(c) => EvalT(c, st, room, depth, fuel)
  }

  /** One round of a loop body; `continue` ends it with null. */
  function EvalBody(body: seq<Cmd>, v: SValue, st: Store, room: int, depth: nat, fuel: nat): Answer
    decreases fuel, 2
  {
    if body == [] then Normal(v, st) else
    match EvalB(body, st, room, depth, fuel)
    case Continued(st1) => Normal(VNull, st1)
    case r => r
  }

  /** Arguments fill the first local slots; surplus arguments are dropped. */
  function Parameters(n: nat, vs: seq<SValue>): (locals: seq<Option<SValue>>)
    ensures |locals| == n
  {
    seq(n, i => if 0 <= i < |vs| then Some(vs[i]) else None)
  }

  /** `room` is the room there was before the callee was pushed. */
  function EvalCall(callee: SValue, vs: seq<SValue>, st: Store, room: int, depth: nat, fuel: nat): Answer
    decreases fuel, 0
  {
    match callee
    case VBuiltin(i) => if |vs| > 32 then Failed else Apply(CallBuiltin(i, st.heap, vs), st, room)
    case VFun(f) =>
      if fuel == 0 || depth == 0 || f.numLocals > room - 1 then Failed else
      (match EvalB(f.body, st.(locals := Parameters(f.numLocals, vs)), room - 1 - f.numLocals, depth - 1, fuel - 1)
       case Normal(v, st1) => Normal(v, st1.(locals := st.locals))
       case Returned(v, st1) => Normal(v, st1.(locals := st.locals))
       case _ => Failed)
    case _ => Failed
  }
}
