/**
 The budgets of the semantics only decide whether there is an answer, never
 which: whatever is not Failed stays the same with more of any of them.
 */
module Budgets {
  import opened Wrappers
  import opened Core
  import opened Objects
  import opened Semantics

  /** Stack slots, further calls, and rounds and calls in sequence. */
  datatype Budget = Budget(room: int, depth: nat, fuel: nat)

  predicate Covers(b: Budget, a: Budget) {
    a.room <= b.room && a.depth <= b.depth && a.fuel <= b.fuel
  }

  /** The same budgets with less room or fuel. */
  function Less(b: Budget, slots: nat, rounds: nat): Budget
    requires rounds <= b.fuel
  {
    Budget(b.room - slots, b.depth, b.fuel - rounds)
  }

  lemma {:induction false} MoreT(t: Term, st: Store, a: Budget, b: Budget)
    requires Covers(b, a) && EvalT(t, st, a.room, a.depth, a.fuel) != Failed
    ensures EvalT(t, st, b.room, b.depth, b.fuel) == EvalT(t, st, a.room, a.depth, a.fuel)
    decreases a.fuel, 1, t, 1
  {
    hide EvalTs, EvalB, EvalLoop, EvalCall, Primitive, CallBuiltin;
    match t
    case Prim(_, args) => MoreTs(args, st, a, b);
    case Put(_, e) => MoreT(e, st, a, b);
    case Cond(c, x, y) =>
      MoreT(c, st, a, b);
      var r := EvalT(c, st, a.room, a.depth, a.fuel);
      if r.Normal? {
        MoreB(if Truthy(r.v) then x else y, r.st, a, b);
      }
    case Loop(c, body) => MoreLoop(Some(c), body, [], VNull, st, a, b);
    case ForLoop(init, until, inc, body) =>
      MoreB(init, st, Less(a, 1, 0), Less(b, 1, 0));
      var r := EvalB(init, st, a.room - 1, a.depth, a.fuel);
      if r.Normal? {
        MoreLoop(until, body, inc, VNull, r.st, a, b);
      }
    case Call(f, args) =>
      MoreT(f, st, a, b);
      var r := EvalT(f, st, a.room, a.depth, a.fuel);
      if r.Normal? {
        MoreTs(args, r.st, Less(a, 1, 0), Less(b, 1, 0));
        var s := EvalTs(args, r.st, a.room - 1, a.depth, a.fuel);
        if s.Values? {
          MoreCall(r.v, s.vs, s.st, a, b);
        }
      }
    case _ =>
  }

  lemma {:induction false} MoreTs(ts: seq<Term>, st: Store, a: Budget, b: Budget)
    requires Covers(b, a) && EvalTs(ts, st, a.room, a.depth, a.fuel) != Stopped(Failed)
    ensures EvalTs(ts, st, b.room, b.depth, b.fuel) == EvalTs(ts, st, a.room, a.depth, a.fuel)
    decreases a.fuel, 1, ts
  {
    hide EvalT;
    if ts != [] {
      MoreT(ts[0], st, a, b);
      var r := EvalT(ts[0], st, a.room, a.depth, a.fuel);
      if r.Normal? {
        MoreTs(ts[1..], r.st, Less(a, 1, 0), Less(b, 1, 0));
      }
    }
  }

  lemma {:induction false} MoreC(c: Cmd, st: Store, a: Budget, b: Budget)
    requires Covers(b, a) && EvalC(c, st, a.room, a.depth, a.fuel) != Failed
    ensures EvalC(c, st, b.room, b.depth, b.fuel) == EvalC(c, st, a.room, a.depth, a.fuel)
    decreases a.fuel, 1, c
  {
    hide EvalT;
    match c
    case Define(_, e) => MoreT(e, st, a, b);
    case Return(e) => MoreT(e, st, a, b);
    case Eval(e) => MoreT(e, st, a, b);
    case _ =>
  }

  lemma {:induction false} MoreB(cs: seq<Cmd>, st: Store, a: Budget, b: Budget)
    requires Covers(b, a) && EvalB(cs, st, a.room, a.depth, a.fuel) != Failed
    ensures EvalB(cs, st, b.room, b.depth, b.fuel) == EvalB(cs, st, a.room, a.depth, a.fuel)
    decreases a.fuel, 1, cs
  {
    hide EvalT, EvalC;
    if cs != [] {
      MoreC(cs[0], st, a, b);
      var r := EvalC(cs[0], st, a.room, a.depth, a.fuel);
      if r.Normal? && |cs| > 1 {
        MoreB(cs[1..], r.st, a, b);
      }
    }
  }

  lemma {:induction false} MoreLoop(until: Option<Term>, body: seq<Cmd>, inc: seq<Cmd>, v: SValue, st: Store, a: Budget,
                                    b: Budget)
    requires Covers(b, a) && EvalLoop(until, body, inc, v, st, a.room, a.depth, a.fuel) != Failed
    ensures EvalLoop(until, body, inc, v, st, b.room, b.depth, b.fuel)
            == EvalLoop(until, body, inc, v, st, a.room, a.depth, a.fuel)
    decreases a.fuel, 0
  {
    hide EvalT, EvalB;
    var a1, b1 := Less(a, 0, 1), Less(b, 0, 1);
    var a2, b2 := Less(a, 1, 1), Less(b, 1, 1);
    if until.Some? {
      MoreT(until.value, st, a2, b2);
    }
    var test := EvalTest(until, st, a2.room, a2.depth, a2.fuel);
    if test.Normal? && Truthy(test.v) {
      if body != [] {
        MoreB(body, test.st, a1, b1);
      }
      var round := EvalBody(body, v, test.st, a1.room, a1.depth, a1.fuel);
      if round.Normal? {
        MoreB(inc, round.st, a2, b2);
        var next := EvalB(inc, round.st, a2.room, a2.depth, a2.fuel);
        if next.Normal? {
          MoreLoop(until, body, inc, round.v, next.st, a1, b1);
        }
      }
    }
  }

  lemma {:induction false} MoreCall(callee: SValue, vs: seq<SValue>, st: Store, a: Budget, b: Budget)
    requires Covers(b, a) && EvalCall(callee, vs, st, a.room, a.depth, a.fuel) != Failed
    ensures EvalCall(callee, vs, st, b.room, b.depth, b.fuel) == EvalCall(callee, vs, st, a.room, a.depth, a.fuel)
    decreases a.fuel, 0
  {
    hide EvalT, EvalB, CallBuiltin;
    if callee.VFun? {
      var f := callee.f;
      MoreB(f.body, st.(locals := Parameters(f.numLocals, vs)),
            Budget(a.room - 1 - f.numLocals, a.depth - 1, a.fuel - 1),
            Budget(b.room - 1 - f.numLocals, b.depth - 1, b.fuel - 1));
    }
  }

  /** Two runs of a block that both have an answer have the same one. */
  lemma {:induction false} OneAnswer(cs: seq<Cmd>, st: Store, a: Budget, b: Budget)
    requires EvalB(cs, st, a.room, a.depth, a.fuel) != Failed && EvalB(cs, st, b.room, b.depth, b.fuel) != Failed
    ensures EvalB(cs, st, a.room, a.depth, a.fuel) == EvalB(cs, st, b.room, b.depth, b.fuel)
  {
    hide EvalB;
    var both := Budget(if a.room < b.room then b.room else a.room, if a.depth < b.depth then b.depth else a.depth,
                       if a.fuel < b.fuel then b.fuel else a.fuel);
    MoreB(cs, st, a, both);
    MoreB(cs, st, b, both);
  }
}
