/**
 Run-time values and the operations on them (src/object.h, src/object.c,
 src/builtins.c and the handlers of src/vm.c). The payload of a function value
 is a parameter, so that the source semantics and the machine share one
 definition of every operation.
 */
module Objects {
  import opened Wrappers
  import opened Opcodes

  datatype Value<F> =
    | VNull
    | VBool(b: bool)
    | VInt(n: int)
    | VBuiltin(i: nat)
    | VError(msg: string)
    | VStr(s: string)
    | VArray(ref: nat)
    | VFun(f: F)

  /** The array lists in use, each at its address. */
  type Heap<F> = seq<seq<Value<F>>>

  predicate NoArrays<F>(vs: seq<Value<F>>) {
    forall i | 0 <= i < |vs| :: !vs[i].VArray?
  }

  /** Constants that the compiler's list and the machine's array have room for. */
  const CONSTANTS_SIZE: nat := 64

  const INT64_MIN: int := -0x8000_0000_0000_0000
  const INT64_MAX: int := 0x7fff_ffff_ffff_ffff

  /** Signed overflow has no defined result in C: the operation has none here either. */
  function IntV<F>(n: int): Option<Value<F>> {
    if INT64_MIN <= n <= INT64_MAX then Some(VInt(n)) else None
  }

  function Abs(n: int): nat { if n < 0 then -n else n }

  /** Division truncates towards zero (section 6.5.5 of ISO/IEC 9899:2011). */
  function Quotient(a: int, b: int): int
    requires b != 0
  {
    if (a < 0) == (b < 0) then Abs(a) / Abs(b) else -(Abs(a) / Abs(b))
  }

  function Remainder(a: int, b: int): int
    requires b != 0
  {
    if a < 0 then -(Abs(a) % Abs(b)) else Abs(a) % Abs(b)
  }

  function Arithmetic<F>(op: Opcode, a: int, b: int): Option<Value<F>> {
    match op
    case OpAdd => IntV(a + b)
    case OpSubtract => IntV(a - b)
    case OpMultiply => IntV(a * b)
    case OpDivide =>
      if b == 0 then Some(VError("Division by zero")) else IntV(Quotient(a, b))
    case OpModulo =>
      if b == 0 then Some(VError("Division by zero"))
      else if a == INT64_MIN && b == -1 then None
      else IntV(Remainder(a, b))
    case OpEqual => Some(VBool(a == b))
    case OpNotEqual => Some(VBool(a != b))
    case OpGreaterThan => Some(VBool(a > b))
    case OpGreaterThanOrEquals => Some(VBool(a >= b))
    case OpLessThan => Some(VBool(a < b))
    case OpLessThanOrEquals => Some(VBool(a <= b))
    case _ => None
  }

  /** None where the VM aborts: operands of different types, or an operator the type lacks. */
  function BinaryOp<F>(op: Opcode, l: Value<F>, r: Value<F>): Option<Value<F>> {
    match (l, r)
    case (VInt(a), VInt(b)) => Arithmetic(op, a, b)
    case (VStr(a), VStr(b)) =>
      (match op
       case OpAdd => Some(VStr(a + b))
       case OpEqual => Some(VBool(a == b))
       case OpNotEqual => Some(VBool(a != b))
       case _ => None)
    case (VBool(a), VBool(b)) =>
      (match op
       case OpAnd => Some(VBool(a && b))
       case OpOr => Some(VBool(a || b))
       case OpEqual => Some(VBool(a == b))
       case OpNotEqual => Some(VBool(a != b))
       case _ => None)
    case _ => None
  }

  /** What `!` tests; an integer is "false" here when it is not positive. */
  predicate Bang<F>(v: Value<F>) {
    v.VNull? || (v.VBool? && !v.b) || (v.VInt? && v.n <= 0)
  }

  /** What a jump tests: only null and false are "not true", so 0 is true. */
  predicate Truthy<F>(v: Value<F>) {
    !v.VNull? && !(v.VBool? && !v.b)
  }

  // ---- deep copies ----

  /** copy_object, for arrays nested at most d deep; None stands for no termination. */
  function Copy<F>(h: Heap<F>, v: Value<F>, d: nat): (r: Option<(Heap<F>, Value<F>)>)
    decreases d, 0
  {
    if !v.VArray? then Some((h, v))
    else if d == 0 || v.ref >= |h| then None
    else match CopyList(h, h[v.ref], d - 1)
         case None => None
         case Some((h1, vs)) => Some((h1 + [vs], VArray(|h1|)))
  }

  function CopyList<F>(h: Heap<F>, vs: seq<Value<F>>, d: nat): (r: Option<(Heap<F>, seq<Value<F>>)>)
    decreases d, |vs| + 1
  {
    if vs == [] then Some((h, []))
    else match Copy(h, vs[0], d)
         case None => None
         case Some((h1, c)) =>
           match CopyList(h1, vs[1..], d)
           case None => None
           case Some((h2, cs)) => Some((h2, [c] + cs))
  }

  /** Nesting as deep as there are arrays is enough when the heap has no cycle. */
  function CopyObject<F>(h: Heap<F>, v: Value<F>): Option<(Heap<F>, Value<F>)> {
    Copy(h, v, |h|)
  }

  function BuildArray<F>(h: Heap<F>, vs: seq<Value<F>>): Option<(Heap<F>, Value<F>)> {
    match CopyList(h, vs, |h|)
    case None => None
    case Some((h1, cs)) => Some((h1 + [cs], VArray(|h1|)))
  }

  // ---- indexing and slicing ----

  /** The cast of an index to `unsigned`. */
  function ToUint32(n: int): nat { n % 0x1_0000_0000 }

  /** The cast of a slice bound to `int32_t`. */
  function ToInt32(n: int): int {
    var u := n % 0x1_0000_0000;
    if u >= 0x8000_0000 then u - 0x1_0000_0000 else u
  }

  /** A negative index counts from the end; anything out of range lands beyond the size. */
  function ElementIndex(size: nat, n: int): nat {
    ToUint32(if n < 0 then size + n else n)
  }

  function IndexGet<F>(h: Heap<F>, left: Value<F>, index: Value<F>): Option<Value<F>> {
    if !index.VInt? then Some(VError("Array index must be integer or slice")) else
    match left
    case VArray(r) =>
      if r >= |h| then None else
      var i := ElementIndex(|h[r]|, index.n);
      Some(if i >= |h[r]| then VError("Array index out of bounds") else h[r][i])
    case VStr(s) =>
      var i := ElementIndex(|s|, index.n);
      Some(if i >= |s| then VError("String index out of bounds") else VStr([s[i]]))
    case _ => Some(VError("Invalid left-hand side for indexing operation"))
  }

  /** The element becomes a copy of v; the value left on the stack is v itself. */
  function IndexSet<F>(h: Heap<F>, arr: Value<F>, index: Value<F>, v: Value<F>): Option<(Heap<F>, Value<F>)> {
    if !index.VInt? || !arr.VArray? || arr.ref >= |h| then None
    else if index.n < 0 || index.n >= |h[arr.ref]| then
      Some((h, VError("Array assignment index out of bounds")))
    else match CopyObject(h, v)
         case None => None
         case Some((h1, c)) =>
           if arr.ref < |h1| && index.n < |h1[arr.ref]| then
             Some((h1[arr.ref := h1[arr.ref][index.n := c]], v))
           else None
  }

  /** The bounds of a slice after normalisation: build_slice_from_array and build_slice_from_string. */
  function SliceBounds(size: nat, start: int, end: int): (int, int) {
    var s := if start < 0 then ToInt32(size + start) else start;
    var e := if end <= 0 then ToInt32(size + end) else end;
    (s, if e < s then s else e)
  }

  /** None where the loop would read before the first element. */
  function SliceOf<T>(source: seq<T>, start: int, end: int): Option<seq<T>> {
    var (s, e) := SliceBounds(|source|, start, end);
    if s >= e then Some([])
    else if s < 0 then None
    else if s >= |source| then Some([])
    else Some(source[s..if e < |source| then e else |source|])
  }

  predicate IsBound<F>(v: Value<F>) { v.VNull? || v.VInt? }

  function BoundOf<F>(v: Value<F>): int
    requires IsBound(v)
  {
    if v.VNull? then 0 else ToInt32(v.n)
  }

  /** Elements are shared, not copied, by an array slice. */
  function BuildSlice<F>(h: Heap<F>, left: Value<F>, start: Value<F>, end: Value<F>): Option<(Heap<F>, Value<F>)> {
    if !IsBound(start) || !IsBound(end) then Some((h, VError("Slice indices must be integers."))) else
    match left
    case VArray(r) =>
      if r >= |h| then None else
      (match SliceOf(h[r], BoundOf(start), BoundOf(end))
       case None => None
       case Some(vs) => Some((h + [vs], VArray(|h|))))
    case VStr(s) =>
      (match SliceOf(s, BoundOf(start), BoundOf(end))
       case None => None
       case Some(t) => Some((h, VStr(t))))
    case _ => Some((h, VError("Invalid object type for slice operation")))
  }

  // ---- builtin functions ----

  const BUILTINS: nat := 9

  function TypeName<F>(v: Value<F>): string {
    match v
    case VNull => "NULL" case VBool(_) => "BOOLEAN" case VInt(_) => "INTEGER"
    case VBuiltin(_) => "BUILTIN" case VError(_) => "ERROR" case VStr(_) => "STRING"
    case VArray(_) => "ARRAY" case VFun(_) => "COMPILED_FUNCTION"
  }

  /** strstr: the first offset at which `needle` occurs. */
  function Find(s: string, needle: string): (r: Option<nat>)
    ensures r.Some? ==> r.value + |needle| <= |s|
    decreases |s|
  {
    if needle <= s then Some(0)
    else if s == [] then None
    else match Find(s[1..], needle)
         case None => None
         case Some(i) => Some(i + 1)
  }

  /** The pieces of s between the occurrences of a non-empty delimiter, taken from the left. */
  function Split(s: string, delim: string): (pieces: seq<string>)
    requires delim != ""
    ensures pieces != []
    decreases |s|
  {
    match Find(s, delim)
    case None => [s]
    case Some(i) => [s[..i]] + Split(s[i + |delim|..], delim)
  }

  function Strings<F>(pieces: seq<string>): seq<Value<F>> {
    seq(|pieces|, i requires 0 <= i < |pieces| => VStr(pieces[i]))
  }

  function WrongArguments<F>(h: Heap<F>): Option<(Heap<F>, Value<F>)> {
    Some((h, VError("wrong number of arguments")))
  }

  function InvalidArgument<F>(h: Heap<F>): Option<(Heap<F>, Value<F>)> {
    Some((h, VError("invalid argument")))
  }

  /**
   The builtin functions in the order of their table. `print` is modelled by its
   value only; file_get_contents, int() of a string and a split on the empty
   string have no result here.
   */
  function CallBuiltin<F>(i: nat, h: Heap<F>, args: seq<Value<F>>): Option<(Heap<F>, Value<F>)> {
    match i
    case 0 => Some((h, VNull))
    case 1 =>
      if |args| != 1 then WrongArguments(h) else
      (match args[0]
       case VStr(s) => Some((h, VInt(|s|)))
       case VArray(r) => if r >= |h| then None else Some((h, VInt(|h[r]|)))
       case _ => InvalidArgument(h))
    case 2 => if |args| != 1 then WrongArguments(h) else Some((h, VStr(TypeName(args[0]))))
    case 3 =>
      if |args| != 1 then WrongArguments(h) else
      (match args[0]
       case VInt(n) => Some((h, VInt(n)))
       case VBool(b) => Some((h, VInt(if b then 1 else 0)))
       case VStr(_) => None
       case _ => InvalidArgument(h))
    case 4 =>
      if |args| != 1 then WrongArguments(h)
      else if !args[0].VArray? then InvalidArgument(h)
      else ArrayPop(h, args[0].ref)
    case 5 =>
      if |args| != 2 then WrongArguments(h)
      else if !args[0].VArray? then InvalidArgument(h)
      else ArrayPush(h, args[0].ref, args[1])
    case 7 =>
      if |args| != 2 then WrongArguments(h)
      else if !args[0].VStr? || !args[1].VStr? then InvalidArgument(h)
      else if args[1].s == "" then None
      else Some((h + [Strings(Split(args[0].s, args[1].s))], VArray(|h|)))
    case 8 =>
      if |args| != 2 then WrongArguments(h)
      else if !args[0].VStr? || !args[1].VStr? then InvalidArgument(h)
      else Some((h, VBool(Find(args[0].s, args[1].s).Some?)))
    case _ => None
  }

  /** The removed element is copied out. */
  function ArrayPop<F>(h: Heap<F>, r: nat): Option<(Heap<F>, Value<F>)> {
    if r >= |h| then None
    else if h[r] == [] then Some((h, VNull))
    else CopyObject(h[r := h[r][..|h[r]| - 1]], h[r][|h[r]| - 1])
  }

  /** A copy of v is appended, even when v is the array itself. */
  function ArrayPush<F>(h: Heap<F>, r: nat, v: Value<F>): Option<(Heap<F>, Value<F>)> {
    if r >= |h| then None
    else match CopyObject(h, v)
         case None => None
         case Some((h1, c)) =>
           if r >= |h1| then None
           else Some((h1[r := h1[r] + [c]], VInt(|h1[r]| + 1)))
  }

  // ---- operators by opcode ----

  /** How many operands an instruction takes off the stack for its one result. */
  function Arity(op: Opcode, arg: nat): nat {
    match op
    case OpMinus => 1 case OpBang => 1
    case OpArray => arg
    case OpIndexSet => 3 case OpSlice => 3
    case _ => 2
  }

  /** The effect of an operator instruction on its operands, in stack order, and the heap. */
  function Primitive<F>(op: Opcode, h: Heap<F>, vs: seq<Value<F>>): Option<(Heap<F>, Value<F>)> {
    match op
    case OpMinus =>
      if |vs| != 1 || !vs[0].VInt? then None
      else (match IntV<F>(-vs[0].n) case None => None case Some(v) => Some((h, v)))
    case OpBang => if |vs| != 1 then None else Some((h, VBool(Bang(vs[0]))))
    case OpArray => BuildArray(h, vs)
    case OpIndexGet =>
      if |vs| != 2 then None
      else (match IndexGet(h, vs[0], vs[1]) case None => None case Some(v) => Some((h, v)))
    case OpIndexSet => if |vs| != 3 then None else IndexSet(h, vs[0], vs[1], vs[2])
    case OpSlice => if |vs| != 3 then None else BuildSlice(h, vs[0], vs[1], vs[2])
    case _ =>
      if |vs| != 2 then None
      else (match BinaryOp(op, vs[0], vs[1]) case None => None case Some(v) => Some((h, v)))
  }
}

/** The operations do not look inside functions: they commute with changing every function payload. */
module Naturality {
  import opened Wrappers
  import opened Opcodes
  import opened Objects

  function MapV<F, G>(f: F -> G, v: Value<F>): Value<G> {
    match v
    case VNull => VNull
    case VBool(b) => VBool(b)
    case VInt(n) => VInt(n)
    case VBuiltin(i) => VBuiltin(i)
    case VError(m) => VError(m)
    case VStr(s) => VStr(s)
    case VArray(r) => VArray(r)
    case VFun(x) => VFun(f(x))
  }

  function MapVs<F, G>(f: F -> G, vs: seq<Value<F>>): (r: seq<Value<G>>)
    ensures |r| == |vs|
    ensures forall i | 0 <= i < |vs| :: r[i] == MapV(f, vs[i])
  {
    seq(|vs|, i requires 0 <= i < |vs| => MapV(f, vs[i]))
  }

  function MapH<F, G>(f: F -> G, h: Heap<F>): (r: Heap<G>)
    ensures |r| == |h|
    ensures forall i | 0 <= i < |h| :: r[i] == MapVs(f, h[i])
  {
    seq(|h|, i requires 0 <= i < |h| => MapVs(f, h[i]))
  }

  function MapR<F, G>(f: F -> G, r: Option<(Heap<F>, Value<F>)>): Option<(Heap<G>, Value<G>)> {
    match r
    case None => None
    case Some((h, v)) => Some((MapH(f, h), MapV(f, v)))
  }

  lemma {:induction false} CopyNatural<F, G>(f: F -> G, h: Heap<F>, v: Value<F>, d: nat)
    ensures Copy(MapH(f, h), MapV(f, v), d) == MapR(f, Copy(h, v, d))
    decreases d, 0
  {
    if v.VArray? && d > 0 && v.ref < |h| {
      CopyListNatural(f, h, h[v.ref], d - 1);
      match CopyList(h, h[v.ref], d - 1)
      case None =>
      case Some((h1, vs)) => assert MapH(f, h1 + [vs]) == MapH(f, h1) + [MapVs(f, vs)];
    }
  }

  lemma {:induction false} CopyListNatural<F, G>(f: F -> G, h: Heap<F>, vs: seq<Value<F>>, d: nat)
    ensures CopyList(MapH(f, h), MapVs(f, vs), d)
         == (match CopyList(h, vs, d) case None => None case Some((h1, cs)) => Some((MapH(f, h1), MapVs(f, cs))))
    decreases d, |vs| + 1
  {
    if vs == [] {
      assert MapVs(f, vs) == [];
    } else {
      CopyNatural(f, h, vs[0], d);
      assert MapVs(f, vs)[1..] == MapVs(f, vs[1..]);
      match Copy(h, vs[0], d)
      case None =>
      case Some((h1, c)) =>
        CopyListNatural(f, h1, vs[1..], d);
        match CopyList(h1, vs[1..], d)
        case None =>
        case Some((h2, cs)) => assert MapVs(f, [c] + cs) == [MapV(f, c)] + MapVs(f, cs);
    }
  }

  lemma {:induction false} BuildArrayNatural<F, G>(f: F -> G, h: Heap<F>, vs: seq<Value<F>>)
    ensures BuildArray(MapH(f, h), MapVs(f, vs)) == MapR(f, BuildArray(h, vs))
  {
    CopyListNatural(f, h, vs, |h|);
    match CopyList(h, vs, |h|)
    case None =>
    case Some((h1, cs)) => assert MapH(f, h1 + [cs]) == MapH(f, h1) + [MapVs(f, cs)];
  }

  lemma {:induction false} IndexSetNatural<F, G>(f: F -> G, h: Heap<F>, arr: Value<F>, index: Value<F>, v: Value<F>)
    ensures IndexSet(MapH(f, h), MapV(f, arr), MapV(f, index), MapV(f, v)) == MapR(f, IndexSet(h, arr, index, v))
  {
    if index.VInt? && arr.VArray? && arr.ref < |h| && 0 <= index.n < |h[arr.ref]| {
      CopyNatural(f, h, v, |h|);
      match CopyObject(h, v)
      case None =>
      case Some((h1, c)) =>
        if arr.ref < |h1| && index.n < |h1[arr.ref]| {
          var list := h1[arr.ref][index.n := c];
          assert MapVs(f, list) == MapVs(f, h1[arr.ref])[index.n := MapV(f, c)];
          assert MapH(f, h1[arr.ref := list]) == MapH(f, h1)[arr.ref := MapVs(f, list)];
        }
    }
  }

  lemma {:induction false} SliceOfNatural<F, G>(f: F -> G, source: seq<Value<F>>, start: int, end: int)
    ensures SliceOf(MapVs(f, source), start, end)
         == (match SliceOf(source, start, end) case None => None case Some(vs) => Some(MapVs(f, vs)))
  {
    match SliceOf(source, start, end)
    case None =>
    case Some(vs) =>
      var (s, e) := SliceBounds(|source|, start, end);
      if 0 <= s < e && s < |source| {
        var hi := if e < |source| then e else |source|;
        assert MapVs(f, source)[s..hi] == MapVs(f, source[s..hi]);
      } else {
        assert MapVs(f, vs) == [];
      }
  }

  lemma {:induction false} SliceNatural<F, G>(f: F -> G, h: Heap<F>, left: Value<F>, start: Value<F>, end: Value<F>)
    ensures BuildSlice(MapH(f, h), MapV(f, left), MapV(f, start), MapV(f, end))
         == MapR(f, BuildSlice(h, left, start, end))
  {
    if IsBound(start) && IsBound(end) && left.VArray? && left.ref < |h| {
      var source := h[left.ref];
      SliceOfNatural(f, source, BoundOf(start), BoundOf(end));
      match SliceOf(source, BoundOf(start), BoundOf(end))
      case None =>
      case Some(vs) => assert MapH(f, h + [vs]) == MapH(f, h) + [MapVs(f, vs)];
    }
  }

  lemma {:induction false} BinaryNatural<F, G>(f: F -> G, op: Opcode, l: Value<F>, r: Value<F>)
    ensures BinaryOp(op, MapV(f, l), MapV(f, r))
         == (match BinaryOp(op, l, r) case None => None case Some(v) => Some(MapV(f, v)))
  {
  }

  lemma {:induction false} IndexGetNatural<F, G>(f: F -> G, h: Heap<F>, left: Value<F>, index: Value<F>)
    ensures IndexGet(MapH(f, h), MapV(f, left), MapV(f, index))
         == (match IndexGet(h, left, index) case None => None case Some(v) => Some(MapV(f, v)))
  {
  }

  lemma {:induction false} PrimNatural<F, G>(f: F -> G, op: Opcode, h: Heap<F>, vs: seq<Value<F>>)
    ensures Primitive(op, MapH(f, h), MapVs(f, vs)) == MapR(f, Primitive(op, h, vs))
  {
    hide BuildArray, IndexSet, BuildSlice, IndexGet, BinaryOp, MapH;
    match op
    case OpArray => BuildArrayNatural(f, h, vs);
    case OpIndexSet => if |vs| == 3 { IndexSetNatural(f, h, vs[0], vs[1], vs[2]); }
    case OpSlice => if |vs| == 3 { SliceNatural(f, h, vs[0], vs[1], vs[2]); }
    case OpIndexGet => if |vs| == 2 { IndexGetNatural(f, h, vs[0], vs[1]); }
    case OpMinus => UnaryNatural(f, op, h, vs);
    case OpBang => UnaryNatural(f, op, h, vs);
    case _ => if |vs| == 2 { BinaryNatural(f, op, vs[0], vs[1]); }
  }

  lemma {:induction false} UnaryNatural<F, G>(f: F -> G, op: Opcode, h: Heap<F>, vs: seq<Value<F>>)
    requires op == OpMinus || op == OpBang
    ensures Primitive(op, MapH(f, h), MapVs(f, vs)) == MapR(f, Primitive(op, h, vs))
  {
    hide MapH;
  }

  lemma {:induction false} BuiltinNatural<F, G>(f: F -> G, i: nat, h: Heap<F>, args: seq<Value<F>>)
    ensures CallBuiltin(i, MapH(f, h), MapVs(f, args)) == MapR(f, CallBuiltin(i, h, args))
  {
    match i
    case 4 => if |args| == 1 && args[0].VArray? { PopNatural(f, h, args[0].ref); }
    case 5 => if |args| == 2 && args[0].VArray? { PushNatural(f, h, args[0].ref, args[1]); }
    case 7 =>
      if |args| == 2 && args[0].VStr? && args[1].VStr? && args[1].s != "" {
        var pieces := Split(args[0].s, args[1].s);
        assert MapVs(f, Strings(pieces)) == Strings(pieces);
        assert MapH(f, h + [Strings(pieces)]) == MapH(f, h) + [MapVs(f, Strings(pieces))];
      }
    case _ =>
  }

  lemma {:induction false} PopNatural<F, G>(f: F -> G, h: Heap<F>, r: nat)
    ensures ArrayPop(MapH(f, h), r) == MapR(f, ArrayPop(h, r))
  {
    if r < |h| && h[r] != [] {
      var rest := h[r][..|h[r]| - 1];
      CopyNatural(f, h[r := rest], h[r][|h[r]| - 1], |h|);
      assert MapVs(f, rest) == MapVs(f, h[r])[..|h[r]| - 1];
      assert MapH(f, h[r := rest]) == MapH(f, h)[r := MapVs(f, rest)];
    }
  }

  lemma {:induction false} PushNatural<F, G>(f: F -> G, h: Heap<F>, r: nat, v: Value<F>)
    ensures ArrayPush(MapH(f, h), r, MapV(f, v)) == MapR(f, ArrayPush(h, r, v))
  {
    if r < |h| {
      CopyNatural(f, h, v, |h|);
      match CopyObject(h, v)
      case None =>
      case Some((h1, c)) =>
        if r < |h1| {
          assert MapVs(f, h1[r] + [c]) == MapVs(f, h1[r]) + [MapV(f, c)];
          assert MapH(f, h1[r := h1[r] + [c]]) == MapH(f, h1)[r := MapVs(f, h1[r] + [c])];
        }
    }
  }
}
