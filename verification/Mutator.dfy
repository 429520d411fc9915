/**
 Runs of the machine as the collector sees them: which objects the stack, the
 constants and the globals refer to, and which are freed. Arrays are left out,
 because their elements are not marked.
 */
module Mutators {
  import opened Collection

  /** `list`, `cap` and `marked` are the collector's; addresses from `next` on were never used. */
  datatype Mutator = Mutator(
    stack: seq<Obj>, sp: nat, globals: seq<Obj>, constants: seq<Obj>,
    list: seq<Obj>, cap: nat, marked: set<nat>, freed: multiset<Obj>, next: nat)

  /** What instructions do to references (src/vm.c:129-370, src/vm.c:537-785). */
  datatype Act =
    | Stay
    | Pop
    | PushConstant(i: nat) | PushGlobal(i: nat) | PushLocal(i: nat)
    | PushPlain(o: Obj)
    | SetGlobal(i: nat) | SetLocal(i: nat)
    | Replace(n: nat, o: Obj)
    | New(n: nat, kind: Kind, pushed: bool)
    | Enter(n: nat, numLocals: nat)
    | Leave(base: nat)

  /** The operands and slots that the instruction needs are there. */
  predicate Allowed(m: Mutator, act: Act) {
    && m.sp <= |m.stack|
    && match act
       case Stay => true
       case Pop => m.sp > 0
       case PushConstant(i) => i < |m.constants| && m.sp < |m.stack|
       case PushGlobal(i) => i < |m.globals| && m.sp < |m.stack|
       case PushLocal(i) => i < m.sp < |m.stack|
       case PushPlain(o) => !o.Obj? && m.sp < |m.stack|
       case SetGlobal(i) => m.sp > 0 && i < |m.globals|
       case SetLocal(i) => i < m.sp
       case Replace(n, o) => !o.Obj? && n <= m.sp && m.sp - n < |m.stack|
       case New(n, _, _) => n <= m.sp && m.sp - n < |m.stack|
       case Enter(n, numLocals) => n <= m.sp && m.sp - n + numLocals <= |m.stack|
       case Leave(base) => 0 < base <= m.sp
  }

  /** Slot i gets o, and the stack ends at sp. */
  function Put(m: Mutator, i: nat, o: Obj, sp: nat): Mutator
    requires i < |m.stack|
  {
    m.(stack := m.stack[i := o], sp := sp)
  }

  /** The slot that a new object goes to. */
  function Target(m: Mutator, act: Act): nat
    requires act.New? && Allowed(m, act)
  {
    m.sp - act.n
  }

  function NewObj(m: Mutator, act: Act): Obj
    requires act.New?
  {
    Obj(act.kind, m.next)
  }

  /** What every instruction does besides adding an object to the list. */
  function After(m: Mutator, act: Act): (m': Mutator)
    requires Allowed(m, act)
    ensures m'.globals == m.globals || act.SetGlobal?
    ensures m'.constants == m.constants && m'.list == m.list && m'.cap == m.cap && m'.marked == m.marked
    ensures m'.freed == m.freed
    ensures m'.next == if act.New? then m.next + 1 else m.next
  {
    match act
    case Stay => m
    case Pop => m.(sp := m.sp - 1)
    case PushConstant(i) => Put(m, m.sp, m.constants[i], m.sp + 1)
    case PushGlobal(i) => Put(m, m.sp, m.globals[i], m.sp + 1)
    case PushLocal(i) => Put(m, m.sp, m.stack[i], m.sp + 1)
    case PushPlain(o) => Put(m, m.sp, o, m.sp + 1)
    case SetGlobal(i) => m.(sp := m.sp - 1, globals := m.globals[i := m.stack[m.sp - 1]])
    case SetLocal(i) => Put(m, i, m.stack[m.sp - 1], m.sp - 1)
    case Replace(n, o) => Put(m, m.sp - n, o, m.sp - n + 1)
    case New(n, _, _) => Put(m, m.sp - n, NewObj(m, act), m.sp - n + 1).(next := m.next + 1)
    case Enter(n, numLocals) => m.(sp := m.sp - n + numLocals)
    case Leave(base) => Put(m, base - 1, m.stack[m.sp - 1], base)
  }

  /**
   The roots while gc_add runs. Concatenation, string indexing, errors and builtin
   calls have their result on the stack by then; a slice has its operands off the
   stack and its result not yet on it.
   */
  function RootsAt(m: Mutator, act: Act): set<nat>
    requires act.New? && Allowed(m, act)
  {
    var s := After(m, act);
    Roots(s.stack, if act.pushed then s.sp else Target(m, act), m.constants, m.globals)
  }

  /** One instruction; whether the list is collected before a new object goes to its end is free here. */
  ghost predicate Does(m: Mutator, act: Act, collects: bool, m': Mutator) {
    && Allowed(m, act)
    && if !act.New? then m' == After(m, act) else Adds(m, act, collects, m')
  }

  ghost predicate Adds(m: Mutator, act: Act, collects: bool, m': Mutator)
    requires act.New? && Allowed(m, act)
  {
    && m' == After(m, act).(list := m'.list, cap := m'.cap, marked := m'.marked, freed := m'.freed)
    && m'.list != [] && m'.list[|m'.list| - 1] == NewObj(m, act)
    && var rest := m'.list[..|m'.list| - 1];
    && m'.cap == NextCap(|rest|, m.cap)
    && if collects
       then Collects(m.list, m.marked, m.freed, RootsAt(m, act), rest, m'.marked, m'.freed)
       else rest == m.list && m'.marked == m.marked && m'.freed == m.freed
  }

  // ---- runs ----

  /** A step of a run, with the next state. */
  datatype Move = Move(act: Act, collects: bool, next: Mutator)

  function StateAt(m: Mutator, run: seq<Move>, k: nat): Mutator
    requires k <= |run|
  {
    if k == 0 then m else run[k - 1].next
  }

  ghost predicate DoesAt(m: Mutator, run: seq<Move>, k: nat)
    requires k < |run|
  {
    Does(StateAt(m, run, k), run[k].act, run[k].collects, run[k].next)
  }

  /** Any sequence of instructions, with collections at any additions. */
  ghost predicate Run(m: Mutator, run: seq<Move>) {
    forall k | 0 <= k < |run| :: DoesAt(m, run, k)
  }

  /** gc collects exactly when the list is four fifths full. */
  predicate Due(m: Mutator) { 5 * |m.list| >= 4 * m.cap }

  predicate TimelyAt(m: Mutator, run: seq<Move>, k: nat)
    requires k < |run|
  {
    run[k].act.New? ==> (run[k].collects <==> Due(StateAt(m, run, k)))
  }

  predicate Timely(m: Mutator, run: seq<Move>) {
    forall k | 0 <= k < |run| :: TimelyAt(m, run, k)
  }

  lemma {:induction false} RunOn(m: Mutator, run: seq<Move>, more: seq<Move>)
    requires var s := StateAt(m, run, |run|); Run(m, run) && Timely(m, run) && Run(s, more) && Timely(s, more)
    ensures Run(m, run + more) && Timely(m, run + more)
    ensures StateAt(m, run + more, |run + more|) == StateAt(StateAt(m, run, |run|), more, |more|)
  {
    hide Does, Due;
    var s, all := StateAt(m, run, |run|), run + more;
    forall k | 0 <= k < |all| ensures DoesAt(m, all, k) && TimelyAt(m, all, k) {
      if k < |run| {
        assert StateAt(m, all, k) == StateAt(m, run, k);
        assert DoesAt(m, run, k) && TimelyAt(m, run, k);
      } else {
        assert StateAt(m, all, k) == StateAt(s, more, k - |run|);
        assert DoesAt(s, more, k - |run|) && TimelyAt(s, more, k - |run|);
      }
    }
  }

  // ---- one object per address ----

  predicate Old(o: Obj, next: nat) { o.Obj? ==> o.addr < next }

  predicate AllOld(vs: seq<Obj>, next: nat) { forall i | 0 <= i < |vs| :: Old(vs[i], next) }

  /** What is listed is not freed, and everything known is older than `next`. */
  ghost predicate Heaped(list: seq<Obj>, marked: set<nat>, freed: multiset<Obj>, next: nat) {
    && Distinct(list) && AllOld(list, next)
    && (forall o | o in freed :: o.Obj? && o.addr < next)
    && (forall i | 0 <= i < |list| :: list[i] !in freed)
    && (forall a | a in marked :: a < next)
  }

  ghost predicate Sane(m: Mutator) {
    && Heaped(m.list, m.marked, m.freed, m.next)
    && AllOld(m.stack, m.next) && AllOld(m.globals, m.next) && AllOld(m.constants, m.next)
  }

  lemma {:induction false} OlderStill(vs: seq<Obj>, n: nat, m: nat)
    requires AllOld(vs, n) && n <= m
    ensures AllOld(vs, m)
  {
    forall i | 0 <= i < |vs| ensures Old(vs[i], m) { assert Old(vs[i], n); }
  }

  lemma {:induction false} PutOld(vs: seq<Obj>, n: nat, i: nat, o: Obj)
    requires AllOld(vs, n) && i < |vs| && Old(o, n)
    ensures AllOld(vs[i := o], n)
  {
    var ws := vs[i := o];
    forall j | 0 <= j < |ws| ensures Old(ws[j], n) { assert Old(vs[j], n); }
  }

  lemma {:induction false} OldAt(vs: seq<Obj>, n: nat, i: nat)
    requires AllOld(vs, n) && i < |vs|
    ensures Old(vs[i], n)
  {
  }

  lemma {:induction false} AfterOld(m: Mutator, act: Act)
    requires Allowed(m, act) && AllOld(m.stack, m.next) && AllOld(m.globals, m.next) && AllOld(m.constants, m.next)
    ensures var m' := After(m, act);
            AllOld(m'.stack, m'.next) && AllOld(m'.globals, m'.next) && AllOld(m'.constants, m'.next)
  {
    hide AllOld;
    match act
    case PushConstant(i) =>
      OldAt(m.constants, m.next, i);
      PutOld(m.stack, m.next, m.sp, m.constants[i]);
    case PushGlobal(i) =>
      OldAt(m.globals, m.next, i);
      PutOld(m.stack, m.next, m.sp, m.globals[i]);
    case PushLocal(i) =>
      OldAt(m.stack, m.next, i);
      PutOld(m.stack, m.next, m.sp, m.stack[i]);
    case PushPlain(o) => PutOld(m.stack, m.next, m.sp, o);
    case SetGlobal(i) =>
      OldAt(m.stack, m.next, m.sp - 1);
      PutOld(m.globals, m.next, i, m.stack[m.sp - 1]);
    case SetLocal(i) =>
      OldAt(m.stack, m.next, m.sp - 1);
      PutOld(m.stack, m.next, i, m.stack[m.sp - 1]);
    case Replace(n, o) => PutOld(m.stack, m.next, m.sp - n, o);
    case New(n, _, _) =>
      OlderStill(m.stack, m.next, m.next + 1);
      OlderStill(m.globals, m.next, m.next + 1);
      OlderStill(m.constants, m.next, m.next + 1);
      PutOld(m.stack, m.next + 1, m.sp - n, NewObj(m, act));
    case Leave(base) =>
      OldAt(m.stack, m.next, m.sp - 1);
      PutOld(m.stack, m.next, base - 1, m.stack[m.sp - 1]);
    case _ =>
  }

  // ---- what a collection drops ----

  lemma {:induction false} CountDropped(list: seq<Obj>, marks: set<nat>, o: Obj)
    ensures o in multiset(Dropped(list, marks)) <==> o in list && !Survives(o, marks)
    ensures o in multiset(Kept(list, marks)) <==> o in list && Survives(o, marks)
  {
  }

  /** A part of a list without repetition, in any order, has none. */
  lemma {:induction false} StillDistinct(list: seq<Obj>, kept: seq<Obj>, rest: seq<Obj>, dropped: multiset<Obj>)
    requires Distinct(list) && multiset(kept) + dropped == multiset(list) && multiset(rest) == multiset(kept)
    ensures Distinct(rest)
  {
    forall i | 0 <= i < |rest| ensures rest[i].Obj? {
      assert rest[i] in multiset(list);
    }
    forall i, j | 0 <= i < j < |rest| ensures rest[i].addr != rest[j].addr {
      if rest[i].addr == rest[j].addr {
        assert rest[i] in multiset(list) && rest[j] in multiset(list);
        var a :| 0 <= a < |list| && list[a] == rest[i];
        var b :| 0 <= b < |list| && list[b] == rest[j];
        assert a == b;
        Twice(rest, i, j);
        Once(list, a);
      }
    }
  }

  lemma {:induction false} Twice(vs: seq<Obj>, i: nat, j: nat)
    requires i < j < |vs| && vs[i] == vs[j]
    ensures multiset(vs)[vs[i]] >= 2
  {
    assert vs == vs[..j] + [vs[j]] + vs[j + 1..];
    assert vs[..j][i] == vs[i];
  }

  lemma {:induction false} Once(list: seq<Obj>, i: nat)
    requires Distinct(list) && i < |list|
    ensures multiset(list)[list[i]] == 1
  {
    assert list == list[..i] + [list[i]] + list[i + 1..];
    assert list[i] !in list[..i];
    assert list[i] !in list[i + 1..];
  }

  lemma {:induction false} AddrsOld(vs: seq<Obj>, next: nat)
    requires AllOld(vs, next)
    ensures forall a | a in Addrs(vs) :: a < next
  {
    forall a | a in Addrs(vs) ensures a < next {
      var i :| 0 <= i < |vs| && Markable(vs[i]) && vs[i].addr == a;
      assert Old(vs[i], next);
    }
  }

  lemma {:induction false} PrefixOld(vs: seq<Obj>, ws: seq<Obj>, next: nat)
    requires AllOld(vs, next) && ws <= vs
    ensures AllOld(ws, next)
  {
    forall i | 0 <= i < |ws| ensures Old(ws[i], next) { assert Old(vs[i], next); }
  }

  lemma {:induction false} RootsOld(m: Mutator, act: Act)
    requires act.New? && Allowed(m, act) && AllOld(m.stack, m.next) && AllOld(m.globals, m.next)
    requires AllOld(m.constants, m.next)
    ensures forall a | a in RootsAt(m, act) :: a < m.next + 1
  {
    hide AllOld, Addrs, UntilNull;
    AfterOld(m, act);
    var s := After(m, act);
    var sp := if act.pushed then s.sp else Target(m, act);
    PrefixOld(s.stack, s.stack[..sp], s.next);
    PrefixOld(s.globals, UntilNull(s.globals), s.next);
    AddrsOld(s.stack[..sp], s.next);
    AddrsOld(s.constants, s.next);
    AddrsOld(UntilNull(s.globals), s.next);
  }

  /** What a collection leaves is heaped as before. */
  lemma {:induction false} CollectsHeaped(list: seq<Obj>, marked: set<nat>, freed: multiset<Obj>, roots: set<nat>,
                                          next: nat,
                                          rest: seq<Obj>, marked': set<nat>, freed': multiset<Obj>)
    requires Heaped(list, marked, freed, next) && Collects(list, marked, freed, roots, rest, marked', freed')
    requires forall a | a in roots :: a < next + 1
    ensures Distinct(rest) && AllOld(rest, next)
    ensures forall o | o in freed' :: o.Obj? && o.addr < next
    ensures forall i | 0 <= i < |rest| :: rest[i] !in freed'
    ensures forall a | a in marked' :: a < next + 1
  {
    hide Kept, Dropped, Addrs;
    var marks := marked + roots;
    KeptOrDropped(list, marks);
    forall o | o in freed' ensures o.Obj? && o.addr < next {
      CountDropped(list, marks, o);
      if o in list {
        var j :| 0 <= j < |list| && list[j] == o;
        assert Old(list[j], next);
      }
    }
    forall i | 0 <= i < |rest| ensures rest[i] !in freed' && Old(rest[i], next) {
      assert rest[i] in multiset(rest);
      CountDropped(list, marks, rest[i]);
      var j :| 0 <= j < |list| && list[j] == rest[i];
      assert list[j] !in freed && Old(list[j], next);
    }
    StillDistinct(list, Kept(list, marks), rest, multiset(Dropped(list, marks)));
  }

  lemma {:induction false} HeapedMore(rest: seq<Obj>, marked: set<nat>, freed: multiset<Obj>, next: nat, o: Obj)
    requires Distinct(rest) && AllOld(rest, next) && o.Obj? && o.addr == next
    requires forall x | x in freed :: x.Obj? && x.addr < next
    requires forall i | 0 <= i < |rest| :: rest[i] !in freed
    requires forall a | a in marked :: a < next + 1
    ensures Heaped(rest + [o], marked, freed, next + 1) && o !in freed
  {
    var list := rest + [o];
    OlderStill(rest, next, next + 1);
    forall i | 0 <= i < |list| ensures Old(list[i], next + 1) && list[i] !in freed {
      if i < |rest| { assert list[i] == rest[i] && Old(rest[i], next); }
    }
    forall i, j | 0 <= i < j < |list| ensures list[i].addr != list[j].addr {
      assert list[i] == rest[i] && Old(rest[i], next);
    }
  }

  /** Every instruction keeps one object per address, whatever is collected when. */
  lemma {:induction false} StepSane(m: Mutator, act: Act, collects: bool, m': Mutator)
    requires Sane(m) && Does(m, act, collects, m')
    ensures Sane(m')
  {
    hide Heaped, AllOld, Distinct, After, Collects, RootsAt, NextCap;
    AfterOld(m, act);
    if act.New? {
      var rest, o := m'.list[..|m'.list| - 1], NewObj(m, act);
      assert m'.list == rest + [o];
      RootsOld(m, act);
      HeapedParts(m);
      if collects {
        CollectsHeaped(m.list, m.marked, m.freed, RootsAt(m, act), m.next, rest, m'.marked, m'.freed);
      }
      HeapedMore(rest, m'.marked, m'.freed, m.next, o);
    }
  }

  lemma {:induction false} HeapedParts(m: Mutator)
    requires Heaped(m.list, m.marked, m.freed, m.next)
    ensures Distinct(m.list) && AllOld(m.list, m.next)
    ensures forall o | o in m.freed :: o.Obj? && o.addr < m.next
    ensures forall i | 0 <= i < |m.list| :: m.list[i] !in m.freed
    ensures forall a | a in m.marked :: a < m.next + 1
  {
  }

  lemma {:induction false} RunSane(m: Mutator, run: seq<Move>, k: nat)
    requires Sane(m) && Run(m, run) && k <= |run|
    ensures Sane(StateAt(m, run, k))
    decreases k
  {
    hide Sane, Does;
    if k > 0 {
      RunSane(m, run, k - 1);
      assert DoesAt(m, run, k - 1);
      StepSane(StateAt(m, run, k - 1), run[k - 1].act, run[k - 1].collects, run[k - 1].next);
    }
  }
}
