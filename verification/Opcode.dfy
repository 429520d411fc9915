/**
 Bytecode: the opcode table, the byte encoding of an instruction and its
 decoding (src/opcode.c, src/opcode.h).
 */
module Opcodes {
  import opened Wrappers

  type byte = x: int | 0 <= x < 256

  /** In the order of the C enumeration, which is also the dispatch order of the VM. */
  datatype Opcode =
    | OpConst | OpPop | OpAdd | OpSubtract | OpMultiply | OpDivide | OpModulo
    | OpTrue | OpFalse
    | OpEqual | OpNotEqual | OpGreaterThan | OpGreaterThanOrEquals | OpLessThan | OpLessThanOrEquals
    | OpAnd | OpOr | OpMinus | OpBang
    | OpJump | OpJumpNotTrue | OpNull
    | OpGetGlobal | OpSetGlobal
    | OpCall | OpReturnValue | OpReturn
    | OpGetLocal | OpSetLocal | OpGetBuiltin
    | OpArray | OpIndexGet | OpIndexSet | OpSlice
    | OpHalt

  /** The value of the C enumerator. */
  function OpByte(op: Opcode): (b: byte)
    ensures b < 35
  {
    match op
    case OpConst => 0 case OpPop => 1 case OpAdd => 2 case OpSubtract => 3
    case OpMultiply => 4 case OpDivide => 5 case OpModulo => 6
    case OpTrue => 7 case OpFalse => 8
    case OpEqual => 9 case OpNotEqual => 10 case OpGreaterThan => 11
    case OpGreaterThanOrEquals => 12 case OpLessThan => 13 case OpLessThanOrEquals => 14
    case OpAnd => 15 case OpOr => 16 case OpMinus => 17 case OpBang => 18
    case OpJump => 19 case OpJumpNotTrue => 20 case OpNull => 21
    case OpGetGlobal => 22 case OpSetGlobal => 23
    case OpCall => 24 case OpReturnValue => 25 case OpReturn => 26
    case OpGetLocal => 27 case OpSetLocal => 28 case OpGetBuiltin => 29
    case OpArray => 30 case OpIndexGet => 31 case OpIndexSet => 32 case OpSlice => 33
    case OpHalt => 34
  }

  /** The opcode at an enumerator value: the dispatch table of vm_run. */
  function OpOf(b: byte): Option<Opcode> {
    if b == 0 then Some(OpConst) else if b == 1 then Some(OpPop) else if b == 2 then Some(OpAdd)
    else if b == 3 then Some(OpSubtract) else if b == 4 then Some(OpMultiply) else if b == 5 then Some(OpDivide)
    else if b == 6 then Some(OpModulo) else if b == 7 then Some(OpTrue) else if b == 8 then Some(OpFalse)
    else if b == 9 then Some(OpEqual) else if b == 10 then Some(OpNotEqual) else if b == 11 then Some(OpGreaterThan)
    else if b == 12 then Some(OpGreaterThanOrEquals) else if b == 13 then Some(OpLessThan) else if b == 14
      then Some(OpLessThanOrEquals)
    else if b == 15 then Some(OpAnd) else if b == 16 then Some(OpOr) else if b == 17 then Some(OpMinus)
    else if b == 18 then Some(OpBang) else if b == 19 then Some(OpJump) else if b == 20 then Some(OpJumpNotTrue)
    else if b == 21 then Some(OpNull) else if b == 22 then Some(OpGetGlobal) else if b == 23 then Some(OpSetGlobal)
    else if b == 24 then Some(OpCall) else if b == 25 then Some(OpReturnValue) else if b == 26 then Some(OpReturn)
    else if b == 27 then Some(OpGetLocal) else if b == 28 then Some(OpSetLocal) else if b == 29 then Some(OpGetBuiltin)
    else if b == 30 then Some(OpArray) else if b == 31 then Some(OpIndexGet) else if b == 32 then Some(OpIndexSet)
    else if b == 33 then Some(OpSlice) else if b == 34 then Some(OpHalt)
    else None
  }

  lemma {:induction false} OpOfByte(op: Opcode)
    ensures OpOf(OpByte(op)) == Some(op)
  {
  }

  /** Operand width in bytes: every opcode has at most one operand. */
  function Width(op: Opcode): (w: nat)
    ensures w <= 2
  {
    match op
    case OpConst => 2 case OpJump => 2 case OpJumpNotTrue => 2
    case OpGetGlobal => 2 case OpSetGlobal => 2 case OpArray => 2
    case OpCall => 1 case OpGetLocal => 1 case OpSetLocal => 1 case OpGetBuiltin => 1
    case _ => 0
  }

  /** Opcodes without an operand. */
  type PlainOp = op: Opcode | Width(op) == 0 witness OpPop

  /** Opcodes that replace their operands by one result. */
  predicate IsOperator(op: Opcode) {
    match op
    case OpAdd => true case OpSubtract => true case OpMultiply => true case OpDivide => true case OpModulo => true
    case OpEqual => true case OpNotEqual => true case OpGreaterThan => true
    case OpGreaterThanOrEquals => true case OpLessThan => true case OpLessThanOrEquals => true
    case OpAnd => true case OpOr => true case OpMinus => true case OpBang => true
    case OpArray => true case OpIndexGet => true case OpIndexSet => true case OpSlice => true
    case _ => false
  }

  /** An instruction: an opcode and its operand (0 when it takes none). */
  datatype Instr = Instr(op: Opcode, arg: nat)

  function Plain(op: PlainOp): Instr { Instr(op, 0) }

  /** The operand survives the cast to its width. */
  predicate Fits(i: Instr) {
    i.arg < (match Width(i.op) case 0 => 1 case 1 => 256 case _ => 0x1_0000)
  }

  function Size(i: Instr): (n: nat)
    ensures 1 <= n <= 3
  {
    1 + Width(i.op)
  }

  /** Opcode byte, then the operand most significant byte first, each byte cast to uint8_t. */
  function Encode(i: Instr): (bs: seq<byte>)
    ensures |bs| == Size(i)
  {
    match Width(i.op)
    case 0 => [OpByte(i.op)]
    case 1 => [OpByte(i.op), i.arg % 256]
    case _ => [OpByte(i.op), i.arg / 256 % 256, i.arg % 256]
  }

  /** The instruction at byte offset p, as the VM and the sweeps over code read it. */
  function Fetch(bytes: seq<byte>, p: nat): (r: Option<Instr>)
    ensures r.Some? ==> p + Size(r.value) <= |bytes| && Fits(r.value)
  {
    if p >= |bytes| then None else
    match OpOf(bytes[p])
    case None => None
    case Some(op) =>
      if p + 1 + Width(op) > |bytes| then None else
      match Width(op)
      case 0 => Some(Instr(op, 0))
      case 1 => Some(Instr(op, bytes[p + 1]))
      case _ => var hi, lo: int := bytes[p + 1], bytes[p + 2]; Some(Instr(op, hi * 256 + lo))
  }

  lemma {:induction false} FetchEncoded(before: seq<byte>, i: Instr, after: seq<byte>)
    requires Fits(i)
    ensures Fetch(before + Encode(i) + after, |before|) == Some(i)
  {
    var bs := before + Encode(i) + after;
    forall k | 0 <= k < Size(i) ensures bs[|before| + k] == Encode(i)[k] {}
    assert bs[|before|] == OpByte(i.op);
    OpOfByte(i.op);
  }

  /** A compiled function (or program): its code and the number of its local slots. */
  datatype Compiled = Compiled(code: seq<byte>, numLocals: nat)

  /** The code from byte p on begins with bs. */
  predicate At(fn: Compiled, p: nat, bs: seq<byte>) {
    match fn
    case Compiled(code, _) => p + |bs| <= |code| && code[p..p + |bs|] == bs
  }

  lemma {:induction false} AtBound(fn: Compiled, p: nat, bs: seq<byte>)
    requires At(fn, p, bs)
    ensures p + |bs| <= |fn.code|
  {
  }

  lemma {:induction false} AtCat(fn: Compiled, p: nat, a: seq<byte>, b: seq<byte>)
    ensures At(fn, p, a + b) <==> At(fn, p, a) && At(fn, p + |a|, b)
  {
    if p + |a| + |b| <= |fn.code| {
      var s := fn.code[p..p + |a| + |b|];
      assert s == fn.code[p..p + |a|] + fn.code[p + |a|..p + |a| + |b|];
      assert (a + b)[..|a|] == a && (a + b)[|a|..] == b;
      assert s[..|a|] == fn.code[p..p + |a|] && s[|a|..] == fn.code[p + |a|..p + |a| + |b|];
    }
  }

  lemma {:induction false} AtFour(fn: Compiled, p: nat, x: seq<byte>, a: seq<byte>, b: seq<byte>, l: seq<byte>,
                                  y: seq<byte>)
    requires At(fn, p, x + (a + (b + (l + y))))
    ensures At(fn, p, x) && At(fn, p + |x|, a) && At(fn, p + |x| + |a|, b)
    ensures At(fn, p + |x| + |a| + |b|, l) && At(fn, p + |x| + |a| + |b| + |l|, y)
  {
    hide At;
    AtCat(fn, p, x, a + (b + (l + y)));
    AtCat(fn, p + |x|, a, b + (l + y));
    AtCat(fn, p + |x| + |a|, b, l + y);
    AtCat(fn, p + |x| + |a| + |b|, l, y);
  }

  /** A fitting instruction reads back as itself wherever its bytes are. */
  lemma {:induction false} AtFetch(fn: Compiled, p: nat, i: Instr)
    requires At(fn, p, Encode(i)) && Fits(i)
    ensures Fetch(fn.code, p) == Some(i)
  {
    var before, after := fn.code[..p], fn.code[p + Size(i)..];
    assert fn.code == before + Encode(i) + after;
    FetchEncoded(before, i, after);
  }
}
