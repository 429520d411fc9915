/**
 What a deep copy holds (src/object.c:111-145, 215-223), and what the operations
 that copy do to the arrays they touch (src/vm.c:376-383, 761-780,
 src/builtins.c:133-165).
 */
module CopyLaws {
  import opened Wrappers
  import opened Opcodes
  import opened Objects
  import opened Acyclicity
  import OperatorLaws

  /**
   To depth d, c in heap g is what v is in heap h: a scalar is the same, an array is
   a new one of the same length with elements alike in the same order. Arrays of the
   copy are at address n or above.
   */
  predicate Alike<F(==)>(h: Heap<F>, v: Value<F>, g: Heap<F>, c: Value<F>, n: nat, d: nat)
    decreases d
  {
    if !v.VArray? then c == v
    else
      && c.VArray? && v.ref < |h| && n <= c.ref < |g| && |g[c.ref]| == |h[v.ref]|
      && (d > 0 ==> forall i | 0 <= i < |h[v.ref]| :: Alike(h, h[v.ref][i], g, g[c.ref][i], n, d - 1))
  }

  predicate AllAlike<F(==)>(h: Heap<F>, vs: seq<Value<F>>, g: Heap<F>, cs: seq<Value<F>>, n: nat, d: nat) {
    |cs| == |vs| && forall i | 0 <= i < |vs| :: Alike(h, vs[i], g, cs[i], n, d)
  }

  /** More arrays, or other contents below n, do not matter to a copy. */
  lemma {:induction false} AlikeLater<F>(h: Heap<F>, v: Value<F>, g: Heap<F>, c: Value<F>, n: nat, g': Heap<F>, d: nat)
    requires Alike(h, v, g, c, n, d) && |g| <= |g'| && forall r | n <= r < |g| :: g'[r] == g[r]
    ensures Alike(h, v, g', c, n, d)
    decreases d
  {
    if v.VArray? && d > 0 {
      forall i | 0 <= i < |h[v.ref]| ensures Alike(h, h[v.ref][i], g', g'[c.ref][i], n, d - 1) {
        AlikeLater(h, h[v.ref][i], g, g[c.ref][i], n, g', d - 1);
      }
    }
  }

  /** Every array met within depth d is in the heap. */
  predicate Deep<F(==)>(h: Heap<F>, v: Value<F>, d: nat)
    decreases d
  {
    v.VArray? ==> v.ref < |h| && (d > 0 ==> forall i | 0 <= i < |h[v.ref]| :: Deep(h, h[v.ref][i], d - 1))
  }

  /** What was added to the heap since does not matter to an original that was there. */
  lemma {:induction false} AlikeEarlier<F>(h: Heap<F>, h': Heap<F>, v: Value<F>, g: Heap<F>, c: Value<F>, n: nat,
                                           d: nat)
    requires h <= h' && Deep(h, v, d) && Alike(h', v, g, c, n, d)
    ensures Alike(h, v, g, c, n, d)
    decreases d
  {
    if v.VArray? && d > 0 {
      forall i | 0 <= i < |h[v.ref]| ensures Alike(h, h[v.ref][i], g, g[c.ref][i], n, d - 1) {
        AlikeEarlier(h, h', h[v.ref][i], g, g[c.ref][i], n, d - 1);
      }
    }
  }

  /** Nor does it to what is alike already. */
  lemma {:induction false} AlikeGrown<F>(h: Heap<F>, h': Heap<F>, v: Value<F>, g: Heap<F>, c: Value<F>, n: nat, n': nat,
                                         d: nat)
    requires h <= h' && n' <= n && Alike(h, v, g, c, n, d)
    ensures Alike(h', v, g, c, n', d)
    decreases d
  {
    if v.VArray? && d > 0 {
      forall i | 0 <= i < |h[v.ref]| ensures Alike(h', h'[v.ref][i], g, g[c.ref][i], n', d - 1) {
        AlikeGrown(h, h', h[v.ref][i], g, g[c.ref][i], n, n', d - 1);
      }
    }
  }

  lemma {:induction false} AllGrown<F>(h: Heap<F>, vs: seq<Value<F>>, g: Heap<F>, cs: seq<Value<F>>, n: nat, n': nat,
                                       g': Heap<F>, d: nat)
    requires AllAlike(h, vs, g, cs, n, d) && h <= g' && g <= g' && n' <= n
    ensures AllAlike(g', vs, g', cs, n', d)
  {
    hide Alike;
    forall i | 0 <= i < |vs| ensures Alike(g', vs[i], g', cs[i], n', d) {
      AlikeLater(h, vs[i], g, cs[i], n, g', d);
      AlikeGrown(h, g', vs[i], g', cs[i], n, n', d);
    }
  }

  // ---- copies ----

  /**
   copy_object leaves the heap as it was, but for new arrays at its end, and what it
   gives is alike the original to every depth, with none of the old arrays in it.
   */
  lemma {:induction false} CopyIsAlike<F>(h: Heap<F>, v: Value<F>, d: nat, g: Heap<F>, c: Value<F>, e: nat)
    requires Copy(h, v, d) == Some((g, c))
    ensures h <= g && Alike(g, v, g, c, |h|, e)
    ensures Deep(h, v, e) ==> Alike(h, v, g, c, |h|, e)
    decreases d, 0
  {
    hide Alike;
    if v.VArray? {
      var vs := h[v.ref];
      var (h1, cs) := CopyList(h, vs, d - 1).value;
      assert g == h1 + [cs] && c == VArray(|h1|);
      CopyListIsAlike(h, vs, d - 1, h1, cs, if e > 0 then e - 1 else 0);
      AllGrown(h1, vs, h1, cs, |h|, |h|, g, if e > 0 then e - 1 else 0);
      ArrayAlike(g, v, c, |h|, e);
    } else {
      ScalarAlike(g, v, |h|, e);
    }
    if Deep(h, v, e) {
      AlikeEarlier(h, g, v, g, c, |h|, e);
    }
  }

  lemma {:induction false} ScalarAlike<F>(g: Heap<F>, v: Value<F>, n: nat, e: nat)
    requires !v.VArray?
    ensures Alike(g, v, g, v, n, e)
  {
  }

  lemma {:induction false} ArrayAlike<F>(g: Heap<F>, v: Value<F>, c: Value<F>, n: nat, e: nat)
    requires v.VArray? && c.VArray? && v.ref < |g| && n <= c.ref < |g|
    requires AllAlike(g, g[v.ref], g, g[c.ref], n, if e > 0 then e - 1 else 0)
    ensures Alike(g, v, g, c, n, e)
  {
  }

  /** So are the elements of a list, in order. */
  lemma {:induction false} CopyListIsAlike<F>(h: Heap<F>, vs: seq<Value<F>>, d: nat, g: Heap<F>, cs: seq<Value<F>>,
                                              e: nat)
    requires CopyList(h, vs, d) == Some((g, cs))
    ensures h <= g && AllAlike(g, vs, g, cs, |h|, e)
    decreases d, |vs| + 1
  {
    hide Alike, Copy;
    if vs != [] {
      var (h1, c) := Copy(h, vs[0], d).value;
      var rest := CopyList(h1, vs[1..], d).value.1;
      CopyIsAlike(h, vs[0], d, h1, c, e);
      CopyListIsAlike(h1, vs[1..], d, g, rest, e);
      AlikeLater(h1, vs[0], h1, c, |h|, g, e);
      AlikeGrown(h1, g, vs[0], g, c, |h|, |h|, e);
      AllGrown(g, vs[1..], g, rest, |h1|, |h|, g, e);
      assert cs == [c] + rest;
      forall i | 0 <= i < |vs| ensures Alike(g, vs[i], g, cs[i], |h|, e) {
        if i > 0 { assert vs[i] == vs[1..][i - 1] && cs[i] == rest[i - 1]; }
      }
    }
  }

  // ---- the operations that copy ----

  /** An array literal is a new array of copies of its operands, in their order. */
  lemma {:induction false} ArrayHoldsCopies<F>(h: Heap<F>, vs: seq<Value<F>>, g: Heap<F>, a: Value<F>, e: nat)
    requires Primitive(OpArray, h, vs) == Some((g, a))
    ensures h <= g && a.VArray? && |h| <= a.ref < |g| && AllAlike(g, vs, g, g[a.ref], |h|, e)
    ensures forall i | 0 <= i < |vs| && Deep(h, vs[i], e) :: Alike(h, vs[i], g, g[a.ref][i], |h|, e)
  {
    hide Alike, Copy, CopyList;
    var (h1, cs) := CopyList(h, vs, |h|).value;
    CopyListIsAlike(h, vs, |h|, h1, cs, e);
    AllGrown(h1, vs, h1, cs, |h|, |h|, g, e);
    forall i | 0 <= i < |vs| && Deep(h, vs[i], e) ensures Alike(h, vs[i], g, g[a.ref][i], |h|, e) {
      AlikeEarlier(h, g, vs[i], g, g[a.ref][i], |h|, e);
    }
  }

  /** Array r of heap g is as in h again, and so is everything else that was in h. */
  predicate ChangedOnly<F(==)>(h: Heap<F>, r: nat, g: Heap<F>) { r < |h| <= |g| && h <= g[r := h[r]] }

  /** A copy of v was made, and then list r changed. */
  lemma {:induction false} CopiedThenChanged<F>(h: Heap<F>, v: Value<F>, r: nat, h1: Heap<F>, c: Value<F>,
                                                list: seq<Value<F>>, e: nat)
    requires CopyObject(h, v) == Some((h1, c)) && r < |h|
    ensures h <= h1
    ensures var g := h1[r := list];
            && ChangedOnly(h, r, g) && Alike(g[r := h[r]], v, g, c, |h|, e)
            && (Deep(h, v, e) ==> Alike(h, v, g, c, |h|, e))
  {
    hide Alike, Copy;
    CopyIsAlike(h, v, |h|, h1, c, e);
    var g := h1[r := list];
    assert g[r := h[r]] == h1;
    AlikeLater(h1, v, h1, c, |h|, g, e);
    if Deep(h, v, e) {
      AlikeEarlier(h, h1, v, g, c, |h|, e);
    }
  }

  /**
   An indexed store: outside the array it is an error and nothing changes; inside, the
   element becomes alike the value, and no other element of this or another array changes.
   The expression's value is the value stored.
   */
  lemma {:induction false} StoreLaw<F>(h: Heap<F>, r: nat, k: int, v: Value<F>, g: Heap<F>, w: Value<F>, e: nat)
    requires r < |h| && Primitive(OpIndexSet, h, [VArray(r), VInt(k), v]) == Some((g, w))
    ensures !(0 <= k < |h[r]|) ==> g == h && w == VError("Array assignment index out of bounds")
    ensures 0 <= k < |h[r]| ==>
              && w == v && ChangedOnly(h, r, g)
              && |g[r]| == |h[r]| && (forall i | 0 <= i < |h[r]| && i != k :: g[r][i] == h[r][i])
              && Alike(g[r := h[r]], v, g, g[r][k], |h|, e)
              && (Deep(h, v, e) ==> Alike(h, v, g, g[r][k], |h|, e))
  {
    hide Alike, Copy;
    if 0 <= k < |h[r]| {
      var (h1, c) := CopyObject(h, v).value;
      CopiedThenChanged(h, v, r, h1, c, h[r][k := c], e);
    }
  }

  /** array_push: the old elements, then one alike the value; the result is the new length. */
  lemma {:induction false} PushLaw<F>(h: Heap<F>, r: nat, v: Value<F>, g: Heap<F>, w: Value<F>, e: nat)
    requires r < |h| && CallBuiltin(OperatorLaws.ARRAY_PUSH, h, [VArray(r), v]) == Some((g, w))
    ensures ChangedOnly(h, r, g) && |g[r]| == |h[r]| + 1 && g[r][..|h[r]|] == h[r] && w == VInt(|h[r]| + 1)
    ensures Alike(g[r := h[r]], v, g, g[r][|h[r]|], |h|, e)
    ensures Deep(h, v, e) ==> Alike(h, v, g, g[r][|h[r]|], |h|, e)
  {
    hide Alike, Copy;
    var (h1, c) := CopyObject(h, v).value;
    CopiedThenChanged(h, v, r, h1, c, h[r] + [c], e);
  }

  /** array_pop: null from an empty array; else the list loses its last element, and the result is alike that one. */
  lemma {:induction false} PopLaw<F>(h: Heap<F>, r: nat, g: Heap<F>, w: Value<F>, e: nat)
    requires r < |h| && CallBuiltin(OperatorLaws.ARRAY_POP, h, [VArray(r)]) == Some((g, w))
    ensures h[r] == [] ==> g == h && w == VNull
    ensures h[r] != [] ==>
              var n := |h[r]| - 1;
              && ChangedOnly(h, r, g) && g[r] == h[r][..n]
              && Alike(g, h[r][n], g, w, |h|, e)
              && (Deep(h[r := g[r]], h[r][n], e) ==> Alike(h[r := g[r]], h[r][n], g, w, |h|, e))
  {
    hide Alike, Copy;
    if h[r] != [] {
      var n := |h[r]| - 1;
      var less := h[r := h[r][..n]];
      CopyIsAlike(less, h[r][n], |h|, g, w, e);
      assert g[r] == less[r] && h <= g[r := h[r]];
    }
  }

  // ---- on the heaps of the machine's runs ----

  /** To every depth. */
  ghost predicate CopyOf<F>(h: Heap<F>, v: Value<F>, g: Heap<F>, c: Value<F>, n: nat) {
    forall e: nat :: Alike(h, v, g, c, n, e)
  }

  lemma {:induction false} AcyclicDeep<F>(h: Heap<F>, v: Value<F>, d: nat)
    requires Acyclic(h) && Within(v, |h|)
    ensures Deep(h, v, d)
    decreases d
  {
    hide Acyclic;
    if v.VArray? && d > 0 {
      ListWithin(h, v.ref);
      forall i | 0 <= i < |h[v.ref]| ensures Deep(h, h[v.ref][i], d - 1) {
        assert Within(h[v.ref][i], |h|);
        AcyclicDeep(h, h[v.ref][i], d - 1);
      }
    }
  }

  /** On an acyclic heap a copy is always made, and is alike the original to every depth. */
  lemma {:induction false} CopiesAreAlike<F>(h: Heap<F>, v: Value<F>) returns (g: Heap<F>, c: Value<F>)
    requires Acyclic(h) && Within(v, |h|)
    ensures CopyObject(h, v) == Some((g, c)) && h <= g && CopyOf(h, v, g, c, |h|)
  {
    hide Acyclic, Alike, Copy;
    CopyEnds(h, v);
    g, c := CopyObject(h, v).value.0, CopyObject(h, v).value.1;
    forall e: nat ensures Alike(h, v, g, c, |h|, e) {
      AcyclicDeep(h, v, e);
      CopyIsAlike(h, v, |h|, g, c, e);
    }
  }

  lemma {:induction false} ArraysAreBuilt<F>(h: Heap<F>, vs: seq<Value<F>>) returns (g: Heap<F>, a: Value<F>)
    requires Acyclic(h) && AllWithin(vs, |h|)
    ensures Primitive(OpArray, h, vs) == Some((g, a)) && h <= g && a.VArray? && |h| <= a.ref < |g|
    ensures |g[a.ref]| == |vs| && forall i | 0 <= i < |vs| :: CopyOf(h, vs[i], g, g[a.ref][i], |h|)
  {
    hide Acyclic, Alike, BuildArray;
    BuildGood(h, vs);
    g, a := Primitive(OpArray, h, vs).value.0, Primitive(OpArray, h, vs).value.1;
    ArrayHoldsCopies(h, vs, g, a, 0);
    forall i, e: nat | 0 <= i < |vs| ensures Alike(h, vs[i], g, g[a.ref][i], |h|, e) {
      assert Within(vs[i], |h|);
      AcyclicDeep(h, vs[i], e);
      ArrayHoldsCopies(h, vs, g, a, e);
    }
  }

  /** Every store inside an array happens, also of the array into itself. */
  lemma {:induction false} StoresHappen<F>(h: Heap<F>, r: nat, k: nat, v: Value<F>) returns (g: Heap<F>)
    requires Acyclic(h) && Within(v, |h|) && r < |h| && k < |h[r]|
    ensures Primitive(OpIndexSet, h, [VArray(r), VInt(k), v]) == Some((g, v)) && ChangedOnly(h, r, g)
    ensures |g[r]| == |h[r]| && (forall i | 0 <= i < |h[r]| && i != k :: g[r][i] == h[r][i])
    ensures CopyOf(h, v, g, g[r][k], |h|)
  {
    hide Acyclic, Alike, Copy;
    CopyEnds(h, v);
    g := Primitive(OpIndexSet, h, [VArray(r), VInt(k), v]).value.0;
    StoreLaw(h, r, k, v, g, v, 0);
    forall e: nat ensures Alike(h, v, g, g[r][k], |h|, e) {
      AcyclicDeep(h, v, e);
      StoreLaw(h, r, k, v, g, v, e);
    }
  }

  lemma {:induction false} PushesHappen<F>(h: Heap<F>, r: nat, v: Value<F>) returns (g: Heap<F>)
    requires Acyclic(h) && Within(v, |h|) && r < |h|
    ensures CallBuiltin(OperatorLaws.ARRAY_PUSH, h, [VArray(r), v]) == Some((g, VInt(|h[r]| + 1)))
    ensures ChangedOnly(h, r, g)
    ensures |g[r]| == |h[r]| + 1 && g[r][..|h[r]|] == h[r]
    ensures CopyOf(h, v, g, g[r][|h[r]|], |h|)
  {
    hide Acyclic, Alike, Copy;
    CopyEnds(h, v);
    g := CallBuiltin(OperatorLaws.ARRAY_PUSH, h, [VArray(r), v]).value.0;
    PushLaw(h, r, v, g, VInt(|h[r]| + 1), 0);
    forall e: nat ensures Alike(h, v, g, g[r][|h[r]|], |h|, e) {
      AcyclicDeep(h, v, e);
      PushLaw(h, r, v, g, VInt(|h[r]| + 1), e);
    }
  }

  /** The last element is taken off before it is copied; it cannot hold its own array. */
  lemma {:induction false} PopsHappen<F>(h: Heap<F>, r: nat) returns (g: Heap<F>, w: Value<F>)
    requires Acyclic(h) && r < |h| && h[r] != []
    ensures CallBuiltin(OperatorLaws.ARRAY_POP, h, [VArray(r)]) == Some((g, w)) && ChangedOnly(h, r, g)
    ensures g[r] == h[r][..|h[r]| - 1]
    ensures CopyOf(h[r := g[r]], h[r][|h[r]| - 1], g, w, |h|)
  {
    hide Acyclic, Alike, Copy;
    var n := |h[r]| - 1;
    var v, less := h[r][n], h[r := h[r][..n]];
    ShorterAcyclic(h, r);
    CopyEnds(less, v);
    g, w := CopyObject(less, v).value.0, CopyObject(less, v).value.1;
    PopLaw(h, r, g, w, 0);
    forall e: nat ensures Alike(less, v, g, w, |h|, e) {
      AcyclicDeep(less, v, e);
      PopLaw(h, r, g, w, e);
    }
  }

  lemma {:induction false} ShorterAcyclic<F>(h: Heap<F>, r: nat)
    requires Acyclic(h) && r < |h| && h[r] != []
    ensures Acyclic(h[r := h[r][..|h[r]| - 1]]) && Within(h[r][|h[r]| - 1], |h|)
  {
    var rank: seq<nat> :| Ranked(h, rank);
    ShorterRanked(h, rank, r, |h[r]| - 1);
    assert Below(h[r][|h[r]| - 1], rank, rank[r]);
  }
}
