/** When references stay valid, and how much garbage floats, over all runs (src/gc.c, src/vm.c). */
module CollectorSafety {
  import opened Collection
  import opened Mutators

  predicate Alive(o: Obj, freed: multiset<Obj>) { o.Obj? ==> o !in freed }

  predicate AllAlive(vs: seq<Obj>, freed: multiset<Obj>) { forall i | 0 <= i < |vs| :: Alive(vs[i], freed) }

  /** No reference in use is to a freed object. */
  predicate Safe(m: Mutator) {
    m.sp <= |m.stack| && AllAlive(m.stack[..m.sp], m.freed) && AllAlive(m.constants, m.freed)
      && AllAlive(m.globals, m.freed)
  }

  // ---- single instructions ----

  /** The collection at this step drops o: it is listed, and neither marked from before nor a root. */
  predicate Drops(m: Mutator, act: Act, collects: bool, o: Obj) {
    act.New? && collects && Allowed(m, act) && o in m.list && Markable(o) && o.addr !in m.marked
      && o.addr !in RootsAt(m, act)
  }

  /** Globals that marking does not come to, because a null precedes them. */
  predicate Unseen(globals: seq<Obj>, i: int) { |UntilNull(globals)| <= i < |globals| }

  /** The slots that a call turns into locals though nothing was written to them. */
  predicate Exposed(m: Mutator, act: Act, i: int) {
    act.Enter? && m.sp <= i < |m.stack| && i < m.sp - act.n + act.numLocals
  }

  lemma {:induction false} AliveAt(vs: seq<Obj>, freed: multiset<Obj>, i: nat)
    requires AllAlive(vs, freed) && i < |vs|
    ensures Alive(vs[i], freed)
  {
  }

  lemma {:induction false} SlotAlive(m: Mutator, i: nat)
    requires Safe(m) && i < m.sp
    ensures Alive(m.stack[i], m.freed)
  {
    assert Alive(m.stack[..m.sp][i], m.freed);
  }

  lemma {:induction false} PutAlive(stack: seq<Obj>, n: nat, freed: multiset<Obj>, i: nat, o: Obj, sp: nat)
    requires i <= n <= |stack| && AllAlive(stack[..n], freed) && i < |stack| && Alive(o, freed)
    requires sp <= (if i < n then n else i + 1)
    ensures AllAlive(stack[i := o][..sp], freed)
  {
    var t := stack[i := o];
    forall j | 0 <= j < sp ensures Alive(t[..sp][j], freed) {
      if j != i { assert Alive(stack[..n][j], freed); }
    }
  }

  lemma {:induction false} FewerAlive(stack: seq<Obj>, n: nat, freed: multiset<Obj>, i: nat)
    requires i <= n <= |stack| && AllAlive(stack[..n], freed)
    ensures AllAlive(stack[..i], freed)
  {
    forall j | 0 <= j < i ensures Alive(stack[..i][j], freed) { assert Alive(stack[..n][j], freed); }
  }

  /** Instructions that neither allocate nor call keep every reference valid. */
  lemma {:induction false} MoveSafe(m: Mutator, act: Act)
    requires Safe(m) && Allowed(m, act) && !act.New? && !act.Enter?
    ensures Safe(After(m, act))
  {
    hide AllAlive;
    match act
    case Pop => FewerAlive(m.stack, m.sp, m.freed, m.sp - 1);
    case PushConstant(i) =>
      AliveAt(m.constants, m.freed, i);
      PutAlive(m.stack, m.sp, m.freed, m.sp, m.constants[i], m.sp + 1);
    case PushGlobal(i) =>
      AliveAt(m.globals, m.freed, i);
      PutAlive(m.stack, m.sp, m.freed, m.sp, m.globals[i], m.sp + 1);
    case PushLocal(i) =>
      SlotAlive(m, i);
      PutAlive(m.stack, m.sp, m.freed, m.sp, m.stack[i], m.sp + 1);
    case PushPlain(o) => PutAlive(m.stack, m.sp, m.freed, m.sp, o, m.sp + 1);
    case SetGlobal(i) =>
      SlotAlive(m, m.sp - 1);
      FewerAlive(m.stack, m.sp, m.freed, m.sp - 1);
      GlobalAlive(m.globals, m.freed, i, m.stack[m.sp - 1]);
    case SetLocal(i) =>
      SlotAlive(m, m.sp - 1);
      PutAlive(m.stack, m.sp, m.freed, i, m.stack[m.sp - 1], m.sp - 1);
    case Replace(n, o) => PutAlive(m.stack, m.sp, m.freed, m.sp - n, o, m.sp - n + 1);
    case Leave(base) =>
      SlotAlive(m, m.sp - 1);
      PutAlive(m.stack, m.sp, m.freed, base - 1, m.stack[m.sp - 1], base);
    case _ =>
  }

  lemma {:induction false} GlobalAlive(globals: seq<Obj>, freed: multiset<Obj>, i: nat, o: Obj)
    requires AllAlive(globals, freed) && i < |globals| && Alive(o, freed)
    ensures AllAlive(globals[i := o], freed)
  {
    var t := globals[i := o];
    forall j | 0 <= j < |t| ensures Alive(t[j], freed) { assert Alive(globals[j], freed); }
  }

  /** An instruction frees exactly what its collection drops. */
  lemma {:induction false} FreedNext(m: Mutator, act: Act, collects: bool, m': Mutator, o: Obj)
    requires Does(m, act, collects, m')
    ensures o in m'.freed <==> o in m.freed || Drops(m, act, collects, o)
  {
    hide Kept, Dropped, RootsAt, After, NextCap;
    if act.New? && collects {
      CountDropped(m.list, m.marked + RootsAt(m, act), o);
    }
  }

  lemma {:induction false} InAddrs(vs: seq<Obj>, i: nat)
    requires i < |vs| && Markable(vs[i])
    ensures vs[i].addr in Addrs(vs)
  {
  }

  /** What refers to roots only stays alive. */
  lemma {:induction false} RootsStay(m: Mutator, act: Act, collects: bool, m': Mutator, vs: seq<Obj>)
    requires Does(m, act, collects, m') && act.New? && AllAlive(vs, m.freed) && Addrs(vs) <= RootsAt(m, act)
    ensures AllAlive(vs, m'.freed)
  {
    hide Does, RootsAt, Addrs;
    forall i | 0 <= i < |vs| ensures Alive(vs[i], m'.freed) {
      assert Alive(vs[i], m.freed);
      FreedNext(m, act, collects, m', vs[i]);
      if Markable(vs[i]) {
        InAddrs(vs, i);
      }
    }
  }

  /** A null hides the globals behind it from a collection; these are the ones that may be lost. */
  predicate Spares(m: Mutator, act: Act, collects: bool) {
    forall i | 0 <= i < |m.globals| && Unseen(m.globals, i) :: !Drops(m, act, collects, m.globals[i])
  }

  lemma {:induction false} GlobalsStayIff(m: Mutator, act: Act, collects: bool, m': Mutator)
    requires Does(m, act, collects, m') && act.New? && AllAlive(m.globals, m.freed)
    ensures AllAlive(m.globals, m'.freed) <==> Spares(m, act, collects)
  {
    hide Adds, After, RootsAt;
    var seen := UntilNull(m.globals);
    forall i | 0 <= i < |m.globals|
      ensures Alive(m.globals[i], m'.freed) <==> (Unseen(m.globals, i) ==> !Drops(m, act, collects, m.globals[i]))
    {
      assert Alive(m.globals[i], m.freed);
      FreedNext(m, act, collects, m', m.globals[i]);
      if !Unseen(m.globals, i) && Markable(m.globals[i]) {
        assert seen[i] == m.globals[i];
        InAddrs(seen, i);
        SeenAreRoots(m, act);
      }
    }
  }

  lemma {:induction false} SeenAreRoots(m: Mutator, act: Act)
    requires act.New? && Allowed(m, act)
    ensures Addrs(UntilNull(m.globals)) <= RootsAt(m, act) && Addrs(m.constants) <= RootsAt(m, act)
    ensures var s := After(m, act); Addrs(s.stack[..if act.pushed then s.sp else Target(m, act)]) <= RootsAt(m, act)
  {
    hide Addrs, UntilNull;
  }

  /**
   A new object is safe in its slot; so is everything else exactly if the collection spares the
   globals it does not see.
   */
  lemma {:induction false} NewSafeIff(m: Mutator, act: Act, collects: bool, m': Mutator)
    requires Sane(m) && Safe(m) && Does(m, act, collects, m') && act.New?
    ensures Safe(m') <==> Spares(m, act, collects)
  {
    hide Sane, AllAlive, Addrs, RootsAt, Collects, UntilNull, NextCap, Spares, Drops;
    StepSane(m, act, collects, m');
    GlobalsStayIff(m, act, collects, m');
    SeenAreRoots(m, act);
    RootsStay(m, act, collects, m', m.constants);
    var s, i, o := After(m, act), Target(m, act), NewObj(m, act);
    NewAlive(m, act, collects, m');
    FewerAlive(m.stack, m.sp, m.freed, i);
    if act.pushed {
      PutAlive(m.stack, i, m.freed, i, o, s.sp);
      RootsStay(m, act, collects, m', s.stack[..s.sp]);
    } else {
      assert s.stack[..i] == m.stack[..i];
      RootsStay(m, act, collects, m', m.stack[..i]);
      PutAlive(m.stack, i, m'.freed, i, o, s.sp);
    }
  }

  lemma {:induction false} NewAlive(m: Mutator, act: Act, collects: bool, m': Mutator)
    requires Sane(m) && Sane(m') && Does(m, act, collects, m') && act.New?
    ensures Alive(NewObj(m, act), m.freed) && Alive(NewObj(m, act), m'.freed)
  {
    assert m'.list[|m'.list| - 1] !in m'.freed;
  }

  /** A call is safe exactly if the locals it exposes are. */
  lemma {:induction false} EnterSafeIff(m: Mutator, act: Act)
    requires Safe(m) && Allowed(m, act) && act.Enter?
    ensures Safe(After(m, act)) <==> forall i | Exposed(m, act, i) :: Alive(m.stack[i], m.freed)
  {
    var s := After(m, act);
    var locals := s.stack[..s.sp];
    if forall i | Exposed(m, act, i) :: Alive(m.stack[i], m.freed) {
      forall j | 0 <= j < |locals| ensures Alive(locals[j], m.freed) {
        if j < m.sp { SlotAlive(m, j); } else { assert Exposed(m, act, j); }
      }
    }
    if Safe(s) {
      forall i | Exposed(m, act, i) ensures Alive(m.stack[i], m.freed) {
        assert Alive(locals[i], m.freed);
      }
    }
  }

  // ---- runs ----

  ghost predicate DropsAt(m: Mutator, run: seq<Move>, k: nat, o: Obj)
    requires k < |run|
  {
    Drops(StateAt(m, run, k), run[k].act, run[k].collects, o)
  }

  /** The freed objects are those that some collection of the run dropped. */
  lemma {:induction false} FreedIffDropped(m: Mutator, run: seq<Move>, k: nat, o: Obj)
    requires Run(m, run) && k <= |run| && o !in m.freed
    ensures o in StateAt(m, run, k).freed <==> exists j | 0 <= j < k :: DropsAt(m, run, j, o)
    decreases k
  {
    hide Does, Drops;
    if k > 0 {
      FreedIffDropped(m, run, k - 1, o);
      assert DoesAt(m, run, k - 1);
      FreedNext(StateAt(m, run, k - 1), run[k - 1].act, run[k - 1].collects, run[k - 1].next, o);
      if DropsAt(m, run, k - 1, o) {
        assert StateAt(m, run, k) == run[k - 1].next;
      }
    }
  }

  /**
   What can go wrong at step k, told before the step: a call exposes a slot whose
   object an earlier collection dropped, or a collection drops the object of a
   global that is behind a null.
   */
  ghost predicate Watched(m: Mutator, run: seq<Move>, k: nat)
    requires k < |run|
  {
    var s, act := StateAt(m, run, k), run[k].act;
    && Spares(s, act, run[k].collects)
    && forall i, j | Exposed(s, act, i) && 0 <= j < k :: !DropsAt(m, run, j, s.stack[i])
  }

  lemma {:induction false} StepSafeIff(m: Mutator, run: seq<Move>, k: nat)
    requires Sane(m) && Run(m, run) && k < |run| && m.freed == multiset{} && Safe(StateAt(m, run, k))
    ensures Safe(StateAt(m, run, k + 1)) <==> Watched(m, run, k)
  {
    hide Does, Safe, Sane, Spares, Exposed, Drops, Run;
    var s, x := StateAt(m, run, k), run[k];
    RunAt(m, run, k);
    if x.act.New? {
      RunSane(m, run, k);
      NewSafeIff(s, x.act, x.collects, x.next);
      NoneExposed(s, x.act);
    } else {
      MovesOn(s, x.act, x.collects, x.next);
      NothingDropped(s, x.act, x.collects);
      if x.act.Enter? {
        EnterSafeIff(s, x.act);
        ExposedSlot(s, x.act);
        forall i | Exposed(s, x.act, i)
          ensures Alive(s.stack[i], s.freed) <==> forall j | 0 <= j < k :: !DropsAt(m, run, j, s.stack[i])
        {
          FreedIffDropped(m, run, k, s.stack[i]);
          OnlyObjects(m, run, k, s.stack[i]);
        }
      } else {
        MoveSafe(s, x.act);
        NoneExposed(s, x.act);
      }
    }
  }

  lemma {:induction false} RunAt(m: Mutator, run: seq<Move>, k: nat)
    requires Run(m, run) && k < |run|
    ensures Does(StateAt(m, run, k), run[k].act, run[k].collects, run[k].next)
  {
    hide Does;
    assert DoesAt(m, run, k);
  }

  lemma {:induction false} MovesOn(m: Mutator, act: Act, collects: bool, m': Mutator)
    requires Does(m, act, collects, m') && !act.New?
    ensures Allowed(m, act) && m' == After(m, act)
  {
  }

  lemma {:induction false} NoneExposed(m: Mutator, act: Act)
    requires !act.Enter?
    ensures forall i :: !Exposed(m, act, i)
  {
  }

  lemma {:induction false} ExposedSlot(m: Mutator, act: Act)
    ensures forall i | Exposed(m, act, i) :: 0 <= i < |m.stack|
  {
  }

  lemma {:induction false} NothingDropped(m: Mutator, act: Act, collects: bool)
    requires !act.New?
    ensures Spares(m, act, collects)
  {
  }

  lemma {:induction false} OnlyObjects(m: Mutator, run: seq<Move>, k: nat, o: Obj)
    requires k <= |run|
    ensures !o.Obj? ==> forall j | 0 <= j < k :: !DropsAt(m, run, j, o)
  {
  }

  /**
   On any run from a state where nothing was freed yet, whenever collections
   happen: references stay valid throughout if and only if no step does what
   Watched rules out.
   */
  lemma {:induction false} RunSafeIff(m: Mutator, run: seq<Move>)
    requires Sane(m) && Safe(m) && Run(m, run) && m.freed == multiset{}
    ensures (forall k | 0 <= k <= |run| :: Safe(StateAt(m, run, k)))
            <==> (forall k | 0 <= k < |run| :: Watched(m, run, k))
  {
    hide Safe, Sane, Run, Watched;
    if forall k | 0 <= k <= |run| :: Safe(StateAt(m, run, k)) {
      forall k | 0 <= k < |run| ensures Watched(m, run, k) {
        assert Safe(StateAt(m, run, k)) && Safe(StateAt(m, run, k + 1));
        StepSafeIff(m, run, k);
      }
    }
    if forall k | 0 <= k < |run| :: Watched(m, run, k) {
      var k := 0;
      while k < |run|
        invariant k <= |run| && forall j | 0 <= j <= k :: Safe(StateAt(m, run, j))
      {
        assert Watched(m, run, k);
        StepSafeIff(m, run, k);
        k := k + 1;
      }
    }
  }

  // ---- two rules that are enough ----

  /** No assigned global behind a null one: marking sees all of them. */
  predicate NoHole(globals: seq<Obj>) { forall i | 0 <= i < |globals| && Unseen(globals, i) :: !globals[i].Obj? }

  /** No call turns a stale reference into a local, and no collection meets a hole among the globals. */
  predicate Careful(m: Mutator, run: seq<Move>, k: nat)
    requires k < |run|
  {
    var s := StateAt(m, run, k);
    && (run[k].act.New? && run[k].collects ==> NoHole(s.globals))
    && forall i | 0 <= i < |s.stack| && Exposed(s, run[k].act, i) :: !s.stack[i].Obj?
  }

  /** Both rules can be checked step by step, and together they make every run safe. */
  lemma {:induction false} CarefulRunsAreSafe(m: Mutator, run: seq<Move>, k: nat)
    requires Sane(m) && Safe(m) && Run(m, run) && m.freed == multiset{} && k <= |run|
    requires forall j | 0 <= j < |run| :: Careful(m, run, j)
    ensures Safe(StateAt(m, run, k))
  {
    hide Safe, Sane, Run;
    forall j | 0 <= j < |run| ensures Watched(m, run, j) {
      assert Careful(m, run, j);
    }
    RunSafeIff(m, run);
  }

  // ---- floating garbage ----

  /** At most one listed object carries a mark. */
  predicate OneStale(m: Mutator) {
    forall i, j | 0 <= i < j < |m.list| && Markable(m.list[i]) && Markable(m.list[j]) ::
      m.list[i].addr !in m.marked || m.list[j].addr !in m.marked
  }

  /** What was listed before a collection is unmarked after it. */
  lemma {:induction false} OldAreUnmarked(m: Mutator, act: Act, m': Mutator, o: Obj)
    requires Does(m, act, true, m') && act.New? && o in m.list && Markable(o)
    ensures o.addr !in m'.marked
  {
    hide Kept, Dropped, RootsAt, After, NextCap;
    var j :| 0 <= j < |m.list| && m.list[j] == o;
    InAddrs(m.list, j);
  }

  lemma {:induction false} KeptListed(list: seq<Obj>, marks: set<nat>, rest: seq<Obj>, i: nat)
    requires multiset(rest) == multiset(Kept(list, marks)) && i < |rest|
    ensures rest[i] in list
  {
    hide Kept;
    assert rest[i] in multiset(rest);
    CountDropped(list, marks, rest[i]);
  }

  lemma {:induction false} RestListed(m: Mutator, act: Act, collects: bool, m': Mutator, i: nat)
    requires Does(m, act, collects, m') && act.New? && i < |m'.list| - 1
    ensures m'.list[i] in m.list
  {
    hide RootsAt, After, NextCap, Kept, Dropped;
    var rest := m'.list[..|m'.list| - 1];
    assert rest[i] == m'.list[i];
    if collects {
      KeptListed(m.list, m.marked + RootsAt(m, act), rest, i);
    }
  }

  /** Any instruction keeps it at one: a collection clears all marks but that of the object it makes room for. */
  lemma {:induction false} StaleStaysOne(m: Mutator, act: Act, collects: bool, m': Mutator)
    requires Sane(m) && OneStale(m) && Does(m, act, collects, m')
    ensures OneStale(m')
  {
    hide Heaped, AllOld, Collects, RootsAt, After, NextCap;
    if act.New? {
      forall i, j | 0 <= i < j < |m'.list| && Markable(m'.list[i]) && Markable(m'.list[j])
        ensures m'.list[i].addr !in m'.marked || m'.list[j].addr !in m'.marked
      {
        if collects {
          RestListed(m, act, collects, m', i);
          OldAreUnmarked(m, act, m', m'.list[i]);
        } else {
          var rest := m'.list[..|m'.list| - 1];
          assert rest[i] == m'.list[i] && m.marked == m'.marked;
          if j < |rest| { assert rest[j] == m'.list[j]; } else { NextUnmarked(m); }
        }
      }
    }
  }

  lemma {:induction false} NextUnmarked(m: Mutator)
    requires Sane(m)
    ensures m.next !in m.marked
  {
  }

  /** At any time of any run, at most one listed object carries a mark it did not earn since. */
  lemma {:induction false} FloatingGarbageStaysOne(m: Mutator, run: seq<Move>, k: nat)
    requires Sane(m) && OneStale(m) && Run(m, run) && k <= |run|
    ensures OneStale(StateAt(m, run, k))
    decreases k
  {
    hide Does, Sane, OneStale, Run;
    if k > 0 {
      FloatingGarbageStaysOne(m, run, k - 1);
      RunSane(m, run, k - 1);
      RunAt(m, run, k - 1);
      StaleStaysOne(StateAt(m, run, k - 1), run[k - 1].act, run[k - 1].collects, run[k - 1].next);
    }
  }

  /** A listed object gets no mark between collections, and a collection that keeps it takes its mark. */
  lemma {:induction false} StaysUnmarked(m: Mutator, act: Act, collects: bool, m': Mutator, o: Obj)
    requires Sane(m) && Does(m, act, collects, m') && o in m.list && Markable(o) && o.addr !in m.marked
    ensures o.addr !in m'.marked
  {
    hide Heaped, AllOld, RootsAt, After, NextCap;
    if act.New? && collects {
      OldAreUnmarked(m, act, m', o);
    }
  }

  lemma {:induction false} StaysListed(m: Mutator, run: seq<Move>, j: nat, k: nat, o: Obj)
    requires Sane(m) && Run(m, run) && j <= k <= |run| && o.Obj? && o.addr < StateAt(m, run, j).next
    requires o in StateAt(m, run, k).list
    ensures o in StateAt(m, run, j).list && o.addr < StateAt(m, run, k).next
    decreases k - j
  {
    hide Does, Run;
    if j < k {
      RunAt(m, run, j);
      var s, x := StateAt(m, run, j), run[j];
      AgesOn(s, x.act, x.collects, x.next);
      StaysListed(m, run, j + 1, k, o);
      WasListed(s, x.act, x.collects, x.next, o);
    }
  }

  lemma {:induction false} AgesOn(m: Mutator, act: Act, collects: bool, m': Mutator)
    requires Does(m, act, collects, m')
    ensures m.next <= m'.next
  {
  }

  lemma {:induction false} WasListed(m: Mutator, act: Act, collects: bool, m': Mutator, o: Obj)
    requires Does(m, act, collects, m') && o in m'.list && o.Obj? && o.addr < m.next
    ensures o in m.list
  {
    hide RootsAt, After, NextCap, Collects;
    if act.New? {
      var i :| 0 <= i < |m'.list| && m'.list[i] == o;
      RestListed(m, act, collects, m', i);
    }
  }

  /**
   Garbage floats through one collection at most: what one collection of a run
   kept, a later one frees as soon as it is no root, stale mark or not.
   */
  lemma {:induction false} FreedByNext(m: Mutator, run: seq<Move>, j: nat, k: nat, o: Obj)
    requires Sane(m) && Run(m, run) && j < k < |run| && Markable(o)
    requires run[j].act.New? && run[j].collects && o in StateAt(m, run, j).list
    requires var s, x := StateAt(m, run, k), run[k];
             o in s.list && x.act.New? && x.collects && Allowed(s, x.act)
             && o.addr !in RootsAt(s, x.act)
    ensures o in StateAt(m, run, k + 1).freed
  {
    hide Does, Run, RootsAt, Allowed, Sane;
    RunAt(m, run, j);
    RunAt(m, run, k);
    OldAreUnmarked(StateAt(m, run, j), run[j].act, run[j].next, o);
    RunSane(m, run, j);
    ListedOld(StateAt(m, run, j), o);
    AgesOn(StateAt(m, run, j), run[j].act, run[j].collects, run[j].next);
    UnmarkedSince(m, run, j + 1, k, o);
    FreedNext(StateAt(m, run, k), run[k].act, run[k].collects, run[k].next, o);
  }

  lemma {:induction false} ListedOld(m: Mutator, o: Obj)
    requires Sane(m) && o in m.list
    ensures o.Obj? && o.addr < m.next
  {
    var i :| 0 <= i < |m.list| && m.list[i] == o;
    assert Old(m.list[i], m.next);
  }

  lemma {:induction false} UnmarkedSince(m: Mutator, run: seq<Move>, j: nat, k: nat, o: Obj)
    requires Sane(m) && Run(m, run) && j <= k <= |run| && Markable(o) && o.addr < StateAt(m, run, j).next
    requires o.addr !in StateAt(m, run, j).marked && o in StateAt(m, run, k).list
    ensures o.addr !in StateAt(m, run, k).marked
    decreases k - j
  {
    hide Does, Run, Sane;
    if j < k {
      var s, x := StateAt(m, run, j), run[j];
      RunAt(m, run, j);
      RunSane(m, run, j);
      StaysListed(m, run, j, k, o);
      StaysUnmarked(s, x.act, x.collects, x.next, o);
      AgesOn(s, x.act, x.collects, x.next);
      UnmarkedSince(m, run, j + 1, k, o);
    }
  }
}
