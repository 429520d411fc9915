/** Mark and sweep over the list of heap objects (src/gc.c). */
module Collection {

  /** Errors are listed but never marked and never freed. */
  datatype Kind = StringKind | FunctionKind | ArrayKind | ErrorKind

  /** A value as the collector sees it; objects are told apart by address. */
  datatype Obj = Null | Scalar | Obj(kind: Kind, addr: nat)

  predicate Markable(o: Obj) { o.Obj? && o.kind != ErrorKind }

  /** The addresses a root sequence marks. */
  function Addrs(vs: seq<Obj>): set<nat> {
    set i | 0 <= i < |vs| && Markable(vs[i]) :: vs[i].addr
  }

  /** The globals that marking sees: it stops at the first null. */
  function UntilNull(vs: seq<Obj>): (r: seq<Obj>)
    ensures r <= vs && (|r| < |vs| ==> vs[|r|] == Null)
    ensures forall i | 0 <= i < |r| :: r[i] != Null
  {
    if vs == [] || vs[0] == Null then [] else [vs[0]] + UntilNull(vs[1..])
  }

  /** What a sweep leaves in the list. */
  predicate Survives(o: Obj, marked: set<nat>) { !Markable(o) || o.addr in marked }

  function Kept(list: seq<Obj>, marked: set<nat>): (r: seq<Obj>)
    ensures forall o | o in r :: o in list && Survives(o, marked)
    ensures forall o | o in list && Survives(o, marked) :: o in r
  {
    if list == [] then []
    else (if Survives(list[0], marked) then [list[0]] else []) + Kept(list[1..], marked)
  }

  function Dropped(list: seq<Obj>, marked: set<nat>): (r: seq<Obj>)
    ensures forall o | o in r :: o in list && !Survives(o, marked)
    ensures forall o | o in list && !Survives(o, marked) :: o in r
  {
    if list == [] then []
    else (if Survives(list[0], marked) then [] else [list[0]]) + Dropped(list[1..], marked)
  }

  /** A sweep loses nothing and invents nothing. */
  lemma {:induction false} KeptOrDropped(list: seq<Obj>, marked: set<nat>)
    ensures multiset(Kept(list, marked)) + multiset(Dropped(list, marked)) == multiset(list)
    decreases |list|
  {
    hide Survives;
    if list != [] {
      var rest := list[1..];
      KeptOrDropped(rest, marked);
      assert list == [list[0]] + rest;
      Plus(list[0], rest);
      Plus(list[0], Kept(rest, marked));
      Plus(list[0], Dropped(rest, marked));
    }
  }

  lemma {:induction false} Plus(o: Obj, a: seq<Obj>)
    ensures multiset([o] + a) == multiset(a) + multiset{o}
  {
  }

  /** No object is listed twice. */
  predicate Distinct(list: seq<Obj>) {
    && (forall i | 0 <= i < |list| :: list[i].Obj?)
    && forall i, j | 0 <= i < j < |list| :: list[i].addr != list[j].addr
  }

  lemma {:induction false} KeptFrom(list: seq<Obj>, i: nat, marked: set<nat>)
    requires i < |list|
    ensures Kept(list[i..], marked) == (if Survives(list[i], marked) then [list[i]] else [])
            + Kept(list[i + 1..], marked)
    ensures Dropped(list[i..], marked) == (if Survives(list[i], marked) then [] else [list[i]])
            + Dropped(list[i + 1..], marked)
  {
    assert list[i..][1..] == list[i + 1..];
  }

  /**
   The sweep has come down to i: before i the list is as it was, from i on it
   holds the survivors in some order, the others are freed, and marks are cleared.
   */
  ghost predicate Swept(was: seq<Obj>, marks: set<nat>, i: nat, live: seq<Obj>, freed: multiset<Obj>,
                        marked: set<nat>) {
    && i <= |was| && i <= |live| && live[..i] == was[..i]
    && multiset(live[i..]) == multiset(Kept(was[i..], marks))
    && freed == multiset(Dropped(was[i..], marks))
    && marked == marks - Addrs(was[i..])
  }

  lemma {:induction false} SweepStarts(was: seq<Obj>, marks: set<nat>)
    ensures Swept(was, marks, |was|, was, multiset{}, marks)
  {
    assert was[|was|..] == [];
  }

  /** The object at i - 1, and what marks and lists say of it. */
  lemma {:induction false} SweepNext(was: seq<Obj>, marks: set<nat>, i: nat, live: seq<Obj>, freed: multiset<Obj>,
                                     marked: set<nat>)
    requires Distinct(was) && 0 < i && Swept(was, marks, i, live, freed, marked)
    ensures i <= |live| && i <= |was| && live[i - 1] == was[i - 1]
    ensures Markable(was[i - 1]) ==> (was[i - 1].addr in marked <==> was[i - 1].addr in marks)
  {
    hide Distinct, Kept, Dropped;
    assert live[..i][i - 1] == was[..i][i - 1];
    AddrAlone(was, i - 1);
  }

  /** The object at i - 1 stays. */
  lemma {:induction false} SweepKeeps(was: seq<Obj>, marks: set<nat>, i: nat, live: seq<Obj>, freed: multiset<Obj>,
                                      marked: set<nat>)
    requires Distinct(was) && 0 < i && Swept(was, marks, i, live, freed, marked) && Survives(was[i - 1], marks)
    ensures Swept(was, marks, i - 1, live, freed, marked - (if Markable(was[i - 1]) then {was[i - 1].addr} else {}))
  {
    hide Distinct, Kept, Dropped, Addrs;
    var o := was[i - 1];
    SweepNext(was, marks, i, live, freed, marked);
    KeptFrom(was, i - 1, marks);
    NextAddrs(was, i - 1);
    ShorterPrefix(live, was, i);
    assert live[i - 1..] == [o] + live[i..];
    OneMore(o, live[i..], Kept(was[i..], marks));
    assert [] + Dropped(was[i..], marks) == Dropped(was[i..], marks);
  }

  lemma {:induction false} ShorterPrefix(a: seq<Obj>, b: seq<Obj>, i: nat)
    requires 0 < i <= |a| && i <= |b| && a[..i] == b[..i]
    ensures a[..i - 1] == b[..i - 1]
  {
    assert a[..i - 1] == a[..i][..i - 1] && b[..i - 1] == b[..i][..i - 1];
  }

  lemma {:induction false} OneMore(o: Obj, a: seq<Obj>, b: seq<Obj>)
    requires multiset(a) == multiset(b)
    ensures multiset([o] + a) == multiset([o] + b) == multiset(b) + multiset{o}
  {
  }

  /** What swap-remove leaves of a list. */
  function SwapOut(live: seq<Obj>, i: nat): (after: seq<Obj>)
    requires i < |live|
    ensures |after| == |live| - 1
  {
    var n := |live| - 1;
    if i == n then live[..n] else live[..n][i := live[n]]
  }

  lemma {:induction false} SwapOutParts(live: seq<Obj>, i: nat)
    requires i < |live|
    ensures SwapOut(live, i)[..i] == live[..i]
    ensures multiset(SwapOut(live, i)[i..]) == multiset(live[i + 1..])
  {
    SwapRemove(live[i + 1..], SwapOut(live, i)[i..]);
  }

  /** The object at i - 1 goes, and the last one takes its place. */
  lemma {:induction false} SweepFrees(was: seq<Obj>, marks: set<nat>, i: nat, live: seq<Obj>, freed: multiset<Obj>,
                                      marked: set<nat>)
    requires Distinct(was) && 0 < i <= |live| && Swept(was, marks, i, live, freed, marked)
    requires !Survives(was[i - 1], marks)
    ensures Swept(was, marks, i - 1, SwapOut(live, i - 1), freed + multiset{was[i - 1]}, marked)
  {
    hide Distinct, Kept, Dropped, Addrs, SwapOut;
    var o := was[i - 1];
    SwapOutParts(live, i - 1);
    ShorterPrefix(live, was, i);
    KeptFrom(was, i - 1, marks);
    assert [] + Kept(was[i..], marks) == Kept(was[i..], marks);
    OneMore(o, Dropped(was[i..], marks), Dropped(was[i..], marks));
    MarksWithout(was, i - 1, marks);
  }

  lemma {:induction false} MarksWithout(was: seq<Obj>, i: nat, marks: set<nat>)
    requires i < |was| && !Survives(was[i], marks)
    ensures marks - Addrs(was[i..]) == marks - Addrs(was[i + 1..])
  {
    hide Addrs;
    NextAddrs(was, i);
  }

  lemma {:induction false} SweepEnds(was: seq<Obj>, marks: set<nat>, live: seq<Obj>, freed: multiset<Obj>,
                                     marked: set<nat>)
    requires Swept(was, marks, 0, live, freed, marked)
    ensures multiset(live) == multiset(Kept(was, marks)) && freed == multiset(Dropped(was, marks))
    ensures marked == marks - Addrs(was)
  {
    assert live[0..] == live && was[0..] == was;
  }

  lemma {:induction false} NextAddr(vs: seq<Obj>, i: nat)
    requires i < |vs|
    ensures Addrs(vs[..i + 1]) == Addrs(vs[..i]) + Addrs([vs[i]])
  {
    assert vs[..i + 1] == vs[..i] + [vs[i]];
    assert [vs[i]][0] == vs[i] && (vs[..i] + [vs[i]])[i] == vs[i];
    forall a | a in Addrs(vs[..i]) ensures a in Addrs(vs[..i + 1]) {
      var k :| 0 <= k < i && Markable(vs[..i][k]) && vs[..i][k].addr == a;
      assert vs[..i + 1][k] == vs[..i][k];
    }
  }

  /** The list of heap objects, its array, and the mark bits by address. */
  class Heap {
    var values: array<Obj>
    var size: nat
    var marked: set<nat>
    ghost var freed: multiset<Obj>

    ghost predicate Valid()
      reads this
    {
      size <= values.Length && 1 <= values.Length
    }

    ghost function Live(): seq<Obj>
      requires Valid()
      reads this, values
    {
      values[..size]
    }

    constructor ()
      ensures Valid() && Live() == [] && marked == {} && freed == multiset{} && fresh(values) && values.Length == 256
    {
      values, size, marked, freed := new Obj[256](_ => Null), 0, {}, multiset{};
    }

    /** gc_mark, with true. */
    method Mark(o: Obj)
      modifies `marked
      ensures marked == old(marked) + Addrs([o])
    {
      assert [o][0] == o;
      if Markable(o) {
        marked := marked + {o.addr};
      }
    }

    method MarkAll(vs: seq<Obj>)
      modifies `marked
      ensures marked == old(marked) + Addrs(vs)
    {
      for i := 0 to |vs|
        invariant marked == old(marked) + Addrs(vs[..i])
      {
        Mark(vs[i]);
        NextAddr(vs, i);
      }
      assert vs[..|vs|] == vs;
    }

    method MarkUntilNull(vs: array<Obj>)
      modifies `marked
      ensures marked == old(marked) + Addrs(UntilNull(vs[..]))
    {
      var i := 0;
      while i < vs.Length && vs[i] != Null
        invariant 0 <= i <= vs.Length
        invariant forall k | 0 <= k < i :: vs[k] != Null
        invariant marked == old(marked) + Addrs(vs[..i])
      {
        Mark(vs[i]);
        NextAddr(vs[..], i);
        i := i + 1;
      }
      UntilNullMore(vs[..], i);
      assert vs[..][..i] == vs[..i];
    }

    /** gc, past its threshold. */
    method Collect(stack: array<Obj>, sp: nat, constants: seq<Obj>, globals: array<Obj>)
      requires Valid() && Distinct(Live()) && sp <= stack.Length && values != stack && values != globals
      modifies this, values
      ensures Valid() && values == old(values)
      ensures Collects(old(Live()), old(marked), old(freed), Roots(stack[..], sp, constants, globals[..]), Live(),
              marked, freed)
    {
      hide Distinct, Kept, Dropped, UntilNull, Addrs;
      MarkAll(stack[..sp]);
      MarkAll(constants);
      MarkUntilNull(globals);
      assert stack[..][..sp] == stack[..sp];
      assert marked == old(marked) + Roots(stack[..], sp, constants, globals[..]);
      Sweep();
    }

    /**
     gc_add: scalars are not listed; the list is collected first when it is four
     fifths full, and doubles when it is full all the same.
     */
    method Add(o: Obj, stack: array<Obj>, sp: nat, constants: seq<Obj>, globals: array<Obj>) returns (collected: bool)
      requires Valid() && Distinct(Live()) && sp <= stack.Length && values != stack && values != globals
      modifies this, values
      ensures Valid() && (values == old(values) || fresh(values))
      ensures collected <==> o.Obj? && 5 * |old(Live())| >= 4 * old(values.Length)
      ensures !o.Obj? ==> values == old(values)
      ensures !o.Obj? ==> !collected && Live() == old(Live()) && marked == old(marked) && freed == old(freed)
      ensures o.Obj? ==> Live() != [] && Live()[|Live()| - 1] == o
      ensures o.Obj? ==> values.Length == NextCap(|Live()[..|Live()| - 1]|, old(values.Length))
      ensures o.Obj? && !collected ==> Live() == old(Live()) + [o] && marked == old(marked) && freed == old(freed)
      ensures o.Obj? && collected ==>
                Collects(old(Live()), old(marked), old(freed), Roots(stack[..], sp, constants, globals[..]),
                         Live()[..|Live()| - 1], marked, freed)
    {
      hide Distinct, Collects, Roots;
      collected := false;
      if !o.Obj? {
        return;
      }
      if 5 * size >= 4 * values.Length {
        Collect(stack, sp, constants, globals);
        collected := true;
      }
      ghost var live := Live();
      if size == values.Length {
        Grow();
      }
      values[size] := o;
      size := size + 1;
      assert Live()[..|live|] == live;
    }

    method Grow()
      requires Valid()
      modifies `values
      ensures Valid() && fresh(values) && Live() == old(Live()) && values.Length == 2 * old(values.Length)
    {
      var more := new Obj[2 * values.Length](_ => Null);
      for k := 0 to size
        invariant unchanged(this) && more[..k] == values[..k]
      {
        more[k] := values[k];
      }
      values := more;
    }

    /**
     From the end to the start: a marked object stays and loses its mark, an error
     stays, any other is freed and the last object takes its place.
     */
    method Sweep()
      requires Valid() && Distinct(Live())
      modifies this, values
      ensures Valid() && values == old(values)
      ensures multiset(Live()) == multiset(Kept(old(Live()), old(marked)))
      ensures freed == old(freed) + multiset(Dropped(old(Live()), old(marked)))
      ensures marked == old(marked) - Addrs(old(Live()))
    {
      hide Swept, Distinct, Kept, Dropped, Survives, SwapOut, Addrs;
      ghost var was, marks, gone := Live(), marked, multiset{};
      var i := size;
      SweepStarts(was, marks);
      while i > 0
        invariant 0 <= i <= size && Valid() && values == old(values) && i <= |was| && freed == old(freed) + gone
        invariant Swept(was, marks, i, Live(), gone, marked)
      {
        SweepNext(was, marks, i, Live(), gone, marked);
        SurvivesWhen(was[i - 1], marks);
        i := i - 1;
        if values[i].Obj? && values[i].kind != ErrorKind {
          if values[i].addr in marked {
            SweepKeeps(was, marks, i + 1, Live(), gone, marked);
            marked := marked - {values[i].addr};
          } else {
            SweepFrees(was, marks, i + 1, Live(), gone, marked);
            freed, gone := freed + multiset{values[i]}, gone + multiset{values[i]};
            RemoveAt(i);
          }
        } else {
          SweepKeeps(was, marks, i + 1, Live(), gone, marked);
          assert marked - {} == marked;
        }
      }
      SweepEnds(was, marks, Live(), gone, marked);
    }

    /** The last entry takes the place of entry i. */
    method RemoveAt(i: nat)
      requires Valid() && i < size
      modifies `size, values
      ensures Valid() && size == old(size) - 1 && Live() == SwapOut(old(Live()), i)
    {
      size := size - 1;
      values[i] := values[size];
    }
  }

  /** What a collection does to list, marks and freed objects, given the marked roots. */
  ghost predicate Collects(list: seq<Obj>, marked: set<nat>, freed: multiset<Obj>, roots: set<nat>,
                           list': seq<Obj>, marked': set<nat>, freed': multiset<Obj>) {
    var marks := marked + roots;
    && multiset(list') == multiset(Kept(list, marks))
    && freed' == freed + multiset(Dropped(list, marks))
    && marked' == marks - Addrs(list)
  }

  /** The capacity after one more entry. */
  function NextCap(size: nat, cap: nat): nat { if size == cap then 2 * cap else cap }

  /** The roots: the stack below the stack pointer, the constants, and the globals up to a null. */
  function Roots(stack: seq<Obj>, sp: nat, constants: seq<Obj>, globals: seq<Obj>): set<nat>
    requires sp <= |stack|
  {
    Addrs(stack[..sp]) + Addrs(constants) + Addrs(UntilNull(globals))
  }

  lemma {:induction false} UntilNullMore(vs: seq<Obj>, i: nat)
    requires i <= |vs| && forall k | 0 <= k < i :: vs[k] != Null
    ensures i == |vs| || vs[i] == Null ==> UntilNull(vs) == vs[..i]
    decreases i
  {
    if i > 0 {
      UntilNullMore(vs[1..], i - 1);
      assert vs[..i] == [vs[0]] + vs[1..][..i - 1];
    }
  }

  lemma {:induction false} SurvivesWhen(o: Obj, marked: set<nat>)
    ensures Survives(o, marked) <==> !Markable(o) || o.addr in marked
  {
  }

  /** The addresses from i on. */
  lemma {:induction false} NextAddrs(list: seq<Obj>, i: nat)
    requires i < |list|
    ensures Addrs(list[i..]) == Addrs(list[i + 1..]) + (if Markable(list[i]) then {list[i].addr} else {})
  {
    assert list[i..][0] == list[i];
    assert list[i..] == [list[i]] + list[i + 1..];
  }

  lemma {:induction false} AddrAlone(list: seq<Obj>, i: nat)
    requires Distinct(list) && i < |list|
    ensures list[i].addr !in Addrs(list[i + 1..])
  {
  }

  /** The last element in the place of the first, or nothing where they are one. */
  lemma {:induction false} SwapRemove(rest: seq<Obj>, after: seq<Obj>)
    requires |after| == |rest|
    requires rest != [] ==> after[0] == rest[|rest| - 1] && after[1..] == rest[..|rest| - 1]
    ensures multiset(after) == multiset(rest)
  {
    if rest != [] {
      assert rest == rest[..|rest| - 1] + [rest[|rest| - 1]];
      assert after == [after[0]] + after[1..];
    }
  }
}
