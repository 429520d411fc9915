/**
 What the operators and builtins give, each by a property that fixes its result
 (src/vm.c:129-325, 377-447, 707-759, src/builtins.c:66-249).
 */
module OperatorLaws {
  import opened Wrappers
  import opened Opcodes
  import opened Objects
  import opened ValueLaws

  predicate InRange(n: int) { INT64_MIN <= n <= INT64_MAX }

  /** The result of an operator on two operands; it leaves the heap as it is. */
  function Both<F>(op: Opcode, x: Value<F>, y: Value<F>): Option<Value<F>> {
    match Primitive(op, [], [x, y]) case None => None case Some((_, v)) => Some(v)
  }

  /** Operators on two operands neither read nor change arrays. */
  predicate OnScalars(op: Opcode) {
    IsOperator(op) && op != OpMinus && op != OpBang && op != OpArray && op != OpIndexGet && op != OpIndexSet
    && op != OpSlice
  }

  lemma {:induction false} HeapIsKept<F>(op: Opcode, h: Heap<F>, x: Value<F>, y: Value<F>)
    requires OnScalars(op)
    ensures Primitive(op, h, [x, y]) == match Both(op, x, y) case None => None case Some(v) => Some((h, v))
  {
  }

  // ---- integers ----

  /** n is the result, if it is an integer of 64 bits; otherwise there is none. */
  predicate Gives<F(==)>(r: Option<Value<F>>, n: int) { r == if InRange(n) then Some(VInt(n)) else None }

  /** The sum is the number from which taking the right operand leaves the left one. */
  lemma {:induction false} SumLaw<F>(a: int, b: int, c: int)
    requires c - b == a
    ensures Gives(Both<F>(OpAdd, VInt(a), VInt(b)), c)
  {
  }

  /** The difference is the number to which adding the right operand gives the left one. */
  lemma {:induction false} DifferenceLaw<F>(a: int, b: int, c: int)
    requires c + b == a
    ensures Gives(Both<F>(OpSubtract, VInt(a), VInt(b)), c)
  {
  }

  /** n times a, by addition. */
  function Times(a: int, n: nat): int {
    if n == 0 then 0 else Times(a, n - 1) + a
  }

  lemma {:induction false} TimesIsProduct(a: int, n: nat)
    ensures Times(a, n) == a * n
  {
    if n > 0 {
      TimesIsProduct(a, n - 1);
      assert a * n == a * (n - 1) + a;
    }
  }

  /** The product is the left operand added up as often as the right one says, or its opposite. */
  lemma {:induction false} ProductLaw<F>(a: int, b: int)
    ensures Gives(Both<F>(OpMultiply, VInt(a), VInt(b)), if b >= 0 then Times(a, b) else -Times(a, -b))
  {
    if b >= 0 {
      TimesIsProduct(a, b);
    } else {
      TimesIsProduct(a, -b);
      assert a * b == -(a * -b);
    }
  }

  /**
   Quotient and remainder: q times the divisor and r make up the dividend, r is smaller than
   the divisor and has the dividend's sign; division by zero is an error value. The one
   remainder without a result is that of the smallest integer by -1.
   */
  lemma {:induction false} QuotientLaw<F>(a: int, b: int, q: int, r: int)
    requires InRange(a) && InRange(b)
    ensures b == 0 ==>
              && Both<F>(OpDivide, VInt(a), VInt(b)) == Some(VError("Division by zero"))
              && Both<F>(OpModulo, VInt(a), VInt(b)) == Some(VError("Division by zero"))
    ensures b != 0 && a == q * b + r && Abs(r) < Abs(b) && (a >= 0 ==> r >= 0) && (a <= 0 ==> r <= 0) ==>
              && Gives(Both<F>(OpDivide, VInt(a), VInt(b)), q)
              && Both<F>(OpModulo, VInt(a), VInt(b)) == if a == INT64_MIN && b == -1 then None else Some(VInt(r))
  {
    hide Quotient, Remainder;
    if b != 0 && a == q * b + r && Abs(r) < Abs(b) && (a >= 0 ==> r >= 0) && (a <= 0 ==> r <= 0) {
      DivisionIsUnique(a, b, q, r);
      DivisionFits<F>(a, b);
    }
  }

  function Truth<F>(b: bool): Option<Value<F>> { Some(VBool(b)) }

  lemma {:induction false} Compared<F>(op: Opcode, a: int, b: int)
    requires OnScalars(op)
    ensures Both<F>(op, VInt(a), VInt(b)) == Arithmetic(op, a, b)
  {
  }

  /** Less is when the right operand is ahead by a positive number; the others follow from it. */
  lemma {:induction false} OrderLaw<F>(a: int, b: int)
    ensures Both<F>(OpLessThan, VInt(a), VInt(b)) == Truth(b - a > 0)
    ensures Both<F>(OpGreaterThan, VInt(a), VInt(b)) == Both<F>(OpLessThan, VInt(b), VInt(a))
    ensures Both<F>(OpGreaterThanOrEquals, VInt(a), VInt(b))
         == Truth(Both<F>(OpLessThan, VInt(a), VInt(b)) == Truth(false))
    ensures Both<F>(OpLessThanOrEquals, VInt(a), VInt(b))
         == Truth(Both<F>(OpGreaterThan, VInt(a), VInt(b)) == Truth(false))
    ensures Both<F>(OpEqual, VInt(a), VInt(b))
         == Truth(Both<F>(OpLessThan, VInt(a), VInt(b)) == Truth(false)
                  && Both<F>(OpGreaterThan, VInt(a), VInt(b)) == Truth(false))
    ensures Both<F>(OpNotEqual, VInt(a), VInt(b)) == Truth(Both<F>(OpEqual, VInt(a), VInt(b)) == Truth(false))
  {
    hide Both;
    Compared<F>(OpLessThan, a, b);
    Compared<F>(OpLessThan, b, a);
    Compared<F>(OpGreaterThan, a, b);
    Compared<F>(OpGreaterThanOrEquals, a, b);
    Compared<F>(OpLessThanOrEquals, a, b);
    Compared<F>(OpEqual, a, b);
    Compared<F>(OpNotEqual, a, b);
  }

  /** `&&` and `||` do not take integers. */
  lemma {:induction false} LogicOnIntegers<F>(a: int, b: int)
    ensures Both<F>(OpAnd, VInt(a), VInt(b)).None? && Both<F>(OpOr, VInt(a), VInt(b)).None?
  {
  }

  /** Unary minus gives the number that makes zero with its operand; that of the smallest integer has no result. */
  lemma {:induction false} NegationLaw<F>(h: Heap<F>, n: int, m: int)
    requires n + m == 0
    ensures Primitive<F>(OpMinus, h, [VInt(n)]) == if InRange(m) then Some((h, VInt(m))) else None
  {
  }

  /** `!` is true of null, of false and of every integer below one, and of nothing else. */
  lemma {:induction false} BangLaw<F>(h: Heap<F>, v: Value<F>)
    ensures Primitive(OpBang, h, [v])
         == Some((h, VBool(match v case VNull => true case VBool(b) => b == false case VInt(n) => n < 1
           case _ => false)))
  {
  }

  // ---- strings and truth values ----

  lemma {:induction false} NotOnStrings<F>(op: Opcode, l: string, r: string)
    requires OnScalars(op) && op != OpAdd && op != OpEqual && op != OpNotEqual
    ensures Both<F>(op, VStr(l), VStr(r)) == None
  {
  }

  /** A concatenation has the left text in front and the right one behind it, and no more. */
  lemma {:induction false} ConcatenationLaw<F>(l: string, r: string) returns (t: string)
    ensures Both<F>(OpAdd, VStr(l), VStr(r)) == Some(VStr(t))
    ensures |t| == |l| + |r| && t[..|l|] == l && t[|l|..] == r
  {
    t := l + r;
  }

  /** Strings are equal when they are of one length with the same characters; there is no order on them. */
  lemma {:induction false} StringLaw<F>(l: string, r: string)
    ensures Both<F>(OpEqual, VStr(l), VStr(r)) == Truth(|l| == |r| && forall i | 0 <= i < |l| && i < |r| ::
            l[i] == r[i])
    ensures Both<F>(OpNotEqual, VStr(l), VStr(r)) == Truth(Both<F>(OpEqual, VStr(l), VStr(r)) == Truth(false))
  {
    assert l == r <==> |l| == |r| && forall i | 0 <= i < |l| && i < |r| :: l[i] == r[i];
  }

  /** The truth tables. */
  lemma {:induction false} LogicLaw<F>(b: bool)
    ensures Both<F>(OpAnd, VBool(true), VBool(b)) == Truth(b) && Both<F>(OpAnd, VBool(false), VBool(b)) == Truth(false)
    ensures Both<F>(OpOr, VBool(false), VBool(b)) == Truth(b) && Both<F>(OpOr, VBool(true), VBool(b)) == Truth(true)
  {
  }

  lemma {:induction false} SameTruth<F>(a: bool)
    ensures Both<F>(OpEqual, VBool(a), VBool(a)) == Truth(true) && Both<F>(OpEqual, VBool(a), VBool(!a)) == Truth(false)
    ensures Both<F>(OpNotEqual, VBool(a), VBool(a)) == Truth(false)
    ensures Both<F>(OpNotEqual, VBool(a), VBool(!a)) == Truth(true)
  {
  }

  /** No other operator takes truth values. */
  lemma {:induction false} NotOnTruth<F>(op: Opcode, a: bool, b: bool)
    requires OnScalars(op) && op != OpAnd && op != OpOr && op != OpEqual && op != OpNotEqual
    ensures Both<F>(op, VBool(a), VBool(b)) == None
  {
  }

  /** Operands of different types, and of any other type, have no result: the machine aborts. */
  lemma {:induction false} MixedLaw<F>(op: Opcode, x: Value<F>, y: Value<F>)
    requires OnScalars(op)
    requires !(x.VInt? && y.VInt?) && !(x.VStr? && y.VStr?) && !(x.VBool? && y.VBool?)
    ensures Both(op, x, y) == None
  {
  }

  // ---- elements ----

  const UINT32_SIZE: int := 0x1_0000_0000

  /** The element that index n of a list of that size means: a negative one counts from the end, modulo 2 to the 32. */
  predicate Means(size: nat, n: int, k: nat) { k < size && ((if n < 0 then size + n else n) - k) % UINT32_SIZE == 0 }

  lemma {:induction false} MeansOne(size: nat, n: int, k: nat)
    requires size <= UINT32_SIZE
    ensures Means(size, n, k) <==> k < size && ElementIndex(size, n) == k
    ensures 0 <= n < size ==> (Means(size, n, k) <==> k == n)
    ensures n < 0 <= size + n ==> (Means(size, n, k) <==> k == size + n)
    ensures size <= n < UINT32_SIZE || (-UINT32_SIZE <= n && size + n < 0) ==> !Means(size, n, k)
  {
    var p := if n < 0 then size + n else n;
    var q, r := p / UINT32_SIZE, p % UINT32_SIZE;
    assert p == q * UINT32_SIZE + r;
    if k < size {
      assert p - k == q * UINT32_SIZE + (r - k);
      Congruent(q, r - k);
    }
  }

  lemma {:induction false} Congruent(q: int, d: int)
    requires -UINT32_SIZE < d < UINT32_SIZE
    ensures (q * UINT32_SIZE + d) % UINT32_SIZE == 0 <==> d == 0
  {
  }

  /** Indexing an array gives the element meant, unchanged; an index that means none is an error. */
  lemma {:induction false} ElementLaw<F>(h: Heap<F>, r: nat, n: int, k: nat)
    requires r < |h| && |h[r]| <= UINT32_SIZE
    ensures var result := Primitive(OpIndexGet, h, [VArray(r), VInt(n)]);
            && (Means(|h[r]|, n, k) ==> result == Some((h, h[r][k])))
            && ((forall i: nat :: !Means(|h[r]|, n, i)) ==> result == Some((h, VError("Array index out of bounds"))))
  {
    hide Means, ElementIndex;
    MeansOne(|h[r]|, n, k);
    MeansOne(|h[r]|, n, ElementIndex(|h[r]|, n));
  }

  /** And a string: the character meant, as a string. */
  lemma {:induction false} CharacterLaw<F>(h: Heap<F>, s: string, n: int, k: nat)
    requires |s| <= UINT32_SIZE
    ensures var result := Primitive<F>(OpIndexGet, h, [VStr(s), VInt(n)]);
            && (Means(|s|, n, k) ==> result == Some((h, VStr([s[k]]))))
            && ((forall i: nat :: !Means(|s|, n, i)) ==> result == Some((h, VError("String index out of bounds"))))
  {
    hide Means, ElementIndex;
    MeansOne(|s|, n, k);
    MeansOne(|s|, n, ElementIndex(|s|, n));
  }

  // ---- slices ----

  lemma {:induction false} SliceOnString<F>(h: Heap<F>, s: string, start: Value<F>, end: Value<F>, i: int, j: int)
    requires (start == VInt(i) || (start == VNull && i == 0)) && (end == VInt(j) || (end == VNull && j == 0))
    requires INT32_MIN <= i <= INT32_MAX && INT32_MIN <= j <= INT32_MAX
    ensures Primitive(OpSlice, h, [VStr(s), start, end])
         == match SliceOf(s, i, j) case None => None case Some(t) => Some((h, VStr(t)))
  {
    hide SliceOf, ToInt32;
    CastKeeps(i);
    CastKeeps(j);
  }

  lemma {:induction false} SliceOnArray<F>(h: Heap<F>, r: nat, start: Value<F>, end: Value<F>, i: int, j: int)
    requires r < |h|
    requires (start == VInt(i) || (start == VNull && i == 0)) && (end == VInt(j) || (end == VNull && j == 0))
    requires INT32_MIN <= i <= INT32_MAX && INT32_MIN <= j <= INT32_MAX
    ensures Primitive(OpSlice, h, [VArray(r), start, end])
         == match SliceOf(h[r], i, j) case None => None case Some(vs) => Some((h + [vs], VArray(|h|)))
  {
    hide SliceOf, ToInt32;
    CastKeeps(i);
    CastKeeps(j);
  }

  /** `s[:k]` and `s[k:]` make up s, the first of them from its front. */
  lemma {:induction false} StringParts<F>(h: Heap<F>, s: string, k: int) returns (front: string, back: string)
    requires |s| <= INT32_MAX && (0 < k <= |s| || -|s| <= k < 0)
    ensures Primitive<F>(OpSlice, h, [VStr(s), VNull, VInt(k)]) == Some((h, VStr(front)))
    ensures Primitive<F>(OpSlice, h, [VStr(s), VInt(k), VNull]) == Some((h, VStr(back)))
    ensures front + back == s && |front| == if k > 0 then k else |s| + k
  {
    hide SliceOf;
    SlicesPartition(s, k);
    SliceOnString<F>(h, s, VNull, VInt(k), 0, k);
    SliceOnString<F>(h, s, VInt(k), VNull, k, 0);
    front, back := SliceOf(s, 0, k).value, SliceOf(s, k, 0).value;
  }

  /** The same of an array; both parts are new arrays of the elements themselves. */
  lemma {:induction false} ArrayParts<F>(h: Heap<F>, r: nat, k: int) returns (front: seq<Value<F>>, back: seq<Value<F>>)
    requires r < |h| && |h[r]| <= INT32_MAX && (0 < k <= |h[r]| || -|h[r]| <= k < 0)
    ensures Primitive(OpSlice, h, [VArray(r), VNull, VInt(k)]) == Some((h + [front], VArray(|h|)))
    ensures Primitive(OpSlice, h, [VArray(r), VInt(k), VNull]) == Some((h + [back], VArray(|h|)))
    ensures front + back == h[r] && |front| == if k > 0 then k else |h[r]| + k
  {
    hide SliceOf;
    SlicesPartition(h[r], k);
    SliceOnArray(h, r, VNull, VInt(k), 0, k);
    SliceOnArray(h, r, VInt(k), VNull, k, 0);
    front, back := SliceOf(h[r], 0, k).value, SliceOf(h[r], k, 0).value;
  }

  /** Between two bounds within the string, from the first up to but without the second. */
  lemma {:induction false} StringBetween<F>(h: Heap<F>, s: string, i: nat, j: nat)
    requires i <= j <= |s| <= INT32_MAX && j > 0
    ensures Primitive<F>(OpSlice, h, [VStr(s), VInt(i), VInt(j)]) == Some((h, VStr(s[i..j])))
  {
    hide SliceOf;
    SliceIsBetween(s, i, j);
    SliceOnString<F>(h, s, VInt(i), VInt(j), i, j);
    assert i == j ==> s[i..j] == [];
  }

  lemma {:induction false} ArrayBetween<F>(h: Heap<F>, r: nat, i: nat, j: nat)
    requires r < |h| && i <= j <= |h[r]| <= INT32_MAX && j > 0
    ensures Primitive(OpSlice, h, [VArray(r), VInt(i), VInt(j)]) == Some((h + [h[r][i..j]], VArray(|h|)))
  {
    hide SliceOf;
    SliceIsBetween(h[r], i, j);
    SliceOnArray(h, r, VInt(i), VInt(j), i, j);
    assert i == j ==> h[r][i..j] == [];
  }

  // ---- builtins ----

  const PRINT: nat := 0
  const LEN: nat := 1
  const TYPE: nat := 2
  const INT: nat := 3
  const ARRAY_POP: nat := 4
  const ARRAY_PUSH: nat := 5
  const SPLIT: nat := 7
  const CONTAINS: nat := 8

  /** `len` counts characters and elements. */
  lemma {:induction false} LenLaw<F>(h: Heap<F>, s: string, a: seq<Value<F>>, r: nat)
    requires r < |h| && h[r] == a
    ensures CallBuiltin<F>(LEN, h, [VStr(s)]) == Some((h, VInt(|s|)))
    ensures CallBuiltin(LEN, h, [VArray(r)]) == Some((h, VInt(|a|)))
  {
  }

  /** `print` gives null, whatever it prints. */
  lemma {:induction false} PrintLaw<F>(h: Heap<F>, args: seq<Value<F>>)
    ensures CallBuiltin(PRINT, h, args) == Some((h, VNull))
  {
  }

  /** `int` keeps integers, and takes true for one and false for zero. */
  lemma {:induction false} IntLaw<F>(h: Heap<F>, n: int)
    ensures CallBuiltin<F>(INT, h, [VInt(n)]) == Some((h, VInt(n)))
    ensures CallBuiltin<F>(INT, h, [VBool(true)]) == Some((h, VInt(1)))
    ensures CallBuiltin<F>(INT, h, [VBool(false)]) == Some((h, VInt(0)))
  {
  }

  /** `str_contains` is true if and only if its second argument is somewhere in its first. */
  lemma {:induction false} ContainsLaw<F>(h: Heap<F>, s: string, t: string)
    ensures CallBuiltin<F>(CONTAINS, h, [VStr(s), VStr(t)]) == Some((h, VBool(exists i: nat :: OccursAt(s, t, i))))
  {
    hide Find;
    FindIsFirst(s, t);
  }

  /** `str_split` gives a new array of the leftmost pieces, which join to its argument. */
  lemma {:induction false} SplitLaw<F>(h: Heap<F>, s: string, delim: string) returns (pieces: seq<string>)
    requires delim != ""
    ensures CallBuiltin<F>(SPLIT, h, [VStr(s), VStr(delim)]) == Some((h + [Strings(pieces)], VArray(|h|)))
    ensures pieces != [] && Join(pieces, delim) == s && LeftmostPieces(pieces, delim)
    ensures |Strings<F>(pieces)| == |pieces| && forall i | 0 <= i < |pieces| :: Strings<F>(pieces)[i] == VStr(pieces[i])
  {
    hide Split, Join, LeftmostPieces;
    pieces := Split(s, delim);
    SplitIsLeftmost(s, delim, pieces);
  }

  /** `type` tells values apart exactly by their kind. */
  lemma {:induction false} TypeLaw<F>(h: Heap<F>, v: Value<F>, w: Value<F>)
    ensures exists s :: CallBuiltin(TYPE, h, [v]) == Some((h, VStr(s)))
    ensures CallBuiltin(TYPE, h, [v]) == CallBuiltin(TYPE, h, [w]) <==>
              && v.VNull? == w.VNull? && v.VBool? == w.VBool? && v.VInt? == w.VInt? && v.VBuiltin? == w.VBuiltin?
              && v.VError? == w.VError? && v.VStr? == w.VStr? && v.VArray? == w.VArray? && v.VFun? == w.VFun?
    ensures v.VInt? ==> CallBuiltin(TYPE, h, [v]) == Some((h, VStr("INTEGER")))
    ensures v.VBool? ==> CallBuiltin(TYPE, h, [v]) == Some((h, VStr("BOOLEAN")))
    ensures v.VStr? ==> CallBuiltin(TYPE, h, [v]) == Some((h, VStr("STRING")))
    ensures v.VArray? ==> CallBuiltin(TYPE, h, [v]) == Some((h, VStr("ARRAY")))
    ensures v.VFun? ==> CallBuiltin(TYPE, h, [v]) == Some((h, VStr("COMPILED_FUNCTION")))
  {
    hide TypeName;
    assert CallBuiltin(TYPE, h, [v]) == Some((h, VStr(TypeName(v))));
    Names(v, w);
  }

  lemma {:induction false} Names<F>(v: Value<F>, w: Value<F>)
    ensures TypeName(v) == TypeName(w) <==>
              && v.VNull? == w.VNull? && v.VBool? == w.VBool? && v.VInt? == w.VInt? && v.VBuiltin? == w.VBuiltin?
              && v.VError? == w.VError? && v.VStr? == w.VStr? && v.VArray? == w.VArray? && v.VFun? == w.VFun?
    ensures v.VInt? ==> TypeName(v) == "INTEGER"
    ensures v.VBool? ==> TypeName(v) == "BOOLEAN"
    ensures v.VStr? ==> TypeName(v) == "STRING"
    ensures v.VArray? ==> TypeName(v) == "ARRAY"
    ensures v.VFun? ==> TypeName(v) == "COMPILED_FUNCTION"
  {
  }

  /** A wrong number of arguments, or one of the wrong type, is an error value. */
  lemma {:induction false} ArgumentLaw<F>(h: Heap<F>, i: nat, args: seq<Value<F>>)
    ensures i == LEN || i == TYPE || i == INT || i == ARRAY_POP ==>
              (|args| != 1 ==> CallBuiltin(i, h, args) == Some((h, VError("wrong number of arguments"))))
    ensures i == ARRAY_PUSH || i == SPLIT || i == CONTAINS ==>
              (|args| != 2 ==> CallBuiltin(i, h, args) == Some((h, VError("wrong number of arguments"))))
    ensures |args| == 1 && ((i == LEN && !args[0].VStr? && !args[0].VArray?) || (i == ARRAY_POP && !args[0].VArray?)
            || (i == INT && !args[0].VInt? && !args[0].VBool? && !args[0].VStr?)) ==>
              CallBuiltin(i, h, args) == Some((h, VError("invalid argument")))
    ensures |args| == 2 && ((i == ARRAY_PUSH && !args[0].VArray?)
            || ((i == SPLIT || i == CONTAINS) && (!args[0].VStr? || !args[1].VStr?))) ==>
              CallBuiltin(i, h, args) == Some((h, VError("invalid argument")))
  {
  }
}
