/** The growing byte buffer that instructions are emitted into (src/compiler.c:105-166, src/compiler.c:264-272). */
module CodeBuffer {
  import opened Opcodes
  import opened Patching

  /** Byte `idx` of an operand, counted from the least significant one. */
  function OperandByte(n: nat, idx: nat): byte {
    (if idx == 0 then n else if idx == 1 then n / 256 else n / 0x1_0000) % 256
  }

  lemma {:induction false} EncodedOperand(i: Instr)
    ensures Encode(i)[0] == OpByte(i.op)
    ensures forall k | 1 <= k < Size(i) :: Encode(i)[k] == OperandByte(i.arg, Width(i.op) - k)
  {
  }

  /** One step of a sweep. */
  lemma {:induction false} SweepStep(rest: seq<byte>, n: nat, x: nat, v: nat)
    requires Stream(rest) && rest != [] && n > 0
    ensures Fetch(rest, 0).Some?
    ensures var i := Fetch(rest, 0).value;
            && rest == Encode(i) + rest[Size(i)..] && Stream(rest[Size(i)..])
            && PatchUntil(rest, n, x, v)
            == Encode(PatchOne(i, x, v)) + PatchUntil(rest[Size(i)..], if n < Size(i) then 0 else n - Size(i), x, v)
  {
    hide Encode, Fetch;
    EncodeFetched(rest);
  }

  /** `goal` is what a sweep makes of the bytes that has come to p and stops n bytes later. */
  predicate Sweeping(bs: seq<byte>, p: nat, n: nat, x: nat, v: nat, goal: seq<byte>) {
    && p <= |bs| && n <= |bs| - p && Stream(bs[p..])
    && goal == bs[..p] + PatchUntil(bs[p..], n, x, v)
  }

  lemma {:induction false} SweepStarts(bs: seq<byte>, p: nat, n: nat, x: nat, v: nat)
    requires p <= |bs| && n <= |bs| - p && Stream(bs[p..])
    ensures Sweeping(bs, p, n, x, v, bs[..p] + PatchUntil(bs[p..], n, x, v))
  {
  }

  lemma {:induction false} SweepOn(bs: seq<byte>, p: nat, n: nat, x: nat, v: nat, goal: seq<byte>)
    requires Sweeping(bs, p, n, x, v, goal) && n > 0
    ensures Fetch(bs, p).Some?
    ensures var i := Fetch(bs, p).value;
            Sweeping(bs[..p] + Encode(PatchOne(i, x, v)) + bs[p + Size(i)..], p + Size(i),
                     if n < Size(i) then 0 else n - Size(i), x, v, goal)
  {
    hide Encode, Fetch, Stream, PatchUntil;
    var rest := bs[p..];
    assert bs[..p] + rest == bs;
    FetchAt(bs[..p], rest);
    SweepStep(rest, n, x, v);
    var i := Fetch(bs, p).value;
    var one, later := Encode(PatchOne(i, x, v)), rest[Size(i)..];
    assert bs[p + Size(i)..] == later;
    var bs' := bs[..p] + one + later;
    assert bs'[..p + Size(i)] == bs[..p] + one && bs'[p + Size(i)..] == later;
  }

  lemma {:induction false} SweepDone(bs: seq<byte>, p: nat, x: nat, v: nat, goal: seq<byte>)
    requires Sweeping(bs, p, 0, x, v, goal)
    ensures goal == bs
  {
  }

  class Buffer {
    var bytes: array<byte>
    var size: nat

    ghost predicate Valid()
      reads this
    {
      size <= bytes.Length && 1024 <= bytes.Length
    }

    ghost function Contents(): (bs: seq<byte>)
      requires Valid()
      reads this, bytes
    {
      bytes[..size]
    }

    constructor (cap: nat)
      requires 1024 <= cap
      ensures Valid() && Contents() == [] && fresh(bytes) && bytes.Length == cap
    {
      bytes, size := new byte[cap](_ => 0), 0;
    }

    /** One more instruction at the end; the buffer doubles when it might not fit. */
    method Emit(i: Instr) returns (pos: nat)
      requires Valid()
      modifies this, bytes
      ensures Valid() && (bytes == old(bytes) || fresh(bytes))
      ensures pos == |old(Contents())| && Contents() == old(Contents()) + Encode(i)
    {
      hide Encode, OpByte, OperandByte;
      ghost var was, code := Contents(), Encode(i);
      EncodedOperand(i);
      var operands := if Width(i.op) == 0 then 0 else 1;
      if size + operands * 3 >= bytes.Length {
        Grow();
      }
      pos := size;
      bytes[size] := OpByte(i.op);
      size := size + 1;
      var idx := Width(i.op);
      while idx > 0
        invariant 0 <= idx <= Width(i.op) && size == pos + 1 + Width(i.op) - idx
        invariant pos + |code| <= bytes.Length && 1024 <= bytes.Length
        invariant bytes == old(bytes) || fresh(bytes)
        invariant forall k | 0 <= k < pos :: bytes[k] == was[k]
        invariant forall k | 0 <= k < size - pos :: bytes[pos + k] == code[k]
      {
        idx := idx - 1;
        bytes[size] := OperandByte(i.arg, idx);
        size := size + 1;
      }
      assert Contents() == was + code;
    }

    /** realloc to twice the capacity. */
    method Grow()
      requires Valid()
      modifies this
      ensures Valid() && fresh(bytes) && Contents() == old(Contents())
      ensures size == old(size) && bytes.Length == 2 * old(bytes.Length)
    {
      var more := new byte[2 * bytes.Length](_ => 0);
      for k := 0 to size
        invariant unchanged(this) && k <= bytes.Length
        invariant more[..k] == bytes[..k]
      {
        more[k] := bytes[k];
      }
      bytes := more;
    }

    /** New operand bytes for the instruction at pos. */
    method ChangeOperand(pos: nat, operand: nat)
      requires Valid() && Fetch(Contents(), pos).Some?
      modifies bytes
      ensures var i := Fetch(old(Contents()), pos).value;
              Contents() == old(Contents())[..pos] + Encode(Instr(i.op, operand)) + old(Contents())[pos + Size(i)..]
    {
      hide Encode, OperandByte;
      ghost var was := Contents();
      ghost var i := Instr(Fetch(was, pos).value.op, operand);
      EncodedOperand(i);
      var op := OpOf(bytes[pos]).value;
      ByteOfOp(bytes[pos], op);
      var idx := Width(op);
      var k := 1;
      while idx > 0
        invariant 0 <= idx <= Width(op) && k == 1 + Width(op) - idx
        invariant forall j | 0 <= j < size :: bytes[j] == if pos <= j < pos + k then Encode(i)[j - pos] else was[j]
      {
        idx := idx - 1;
        bytes[pos + k] := OperandByte(operand, idx);
        k := k + 1;
      }
      assert Contents() == was[..pos] + Encode(i) + was[pos + Size(i)..];
    }

    /** The scan for `break` and `continue` placeholders, instruction by instruction. */
    method ChangePlaceholders(start: nat, end: nat, placeholder: nat, value: nat)
      requires Valid() && end <= |Contents()|
      requires start < end ==> Stream(Contents()[start..])
      modifies bytes
      ensures start >= end ==> Contents() == old(Contents())
      ensures start < end ==> Contents() == old(Contents())[..start] + PatchUntil(old(Contents())[start..], end - start,
              placeholder, value)
    {
      hide Fetch, Stream, PatchUntil, Encode, Sweeping;
      if start >= end {
        return;
      }
      var p := start;
      ghost var n := end - start;
      ghost var goal := Contents()[..start] + PatchUntil(Contents()[start..], n, placeholder, value);
      SweepStarts(Contents(), start, n, placeholder, value);
      while p < end
        invariant start <= p && n == if end < p then 0 else end - p
        invariant Sweeping(Contents(), p, n, placeholder, value, goal)
        decreases end - p
      {
        SweepOn(Contents(), p, n, placeholder, value, goal);
        ghost var i := Fetch(Contents(), p).value;
        var op := ChangeOne(p, placeholder, value);
        n := if n < Size(i) then 0 else n - Size(i);
        p := p + 1 + Width(op);
      }
      SweepDone(Contents(), p, placeholder, value, goal);
    }

    /** The opcode at p, its operand changed if it jumps to the placeholder. */
    method ChangeOne(p: nat, placeholder: nat, value: nat) returns (op: Opcode)
      requires Valid() && Fetch(Contents(), p).Some?
      modifies bytes
      ensures var i := Fetch(old(Contents()), p).value;
              && op == i.op
              && Contents() == old(Contents())[..p] + Encode(PatchOne(i, placeholder, value))
                 + old(Contents())[p + Size(i)..]
    {
      ghost var was := Contents();
      ghost var i := Fetch(was, p).value;
      op := OpOf(bytes[p]).value;
      if op == OpJump && bytes[p + 1] as int * 256 + bytes[p + 2] as int == placeholder {
        ChangeOperand(p, value);
      } else {
        FetchAt(was[..p], was[p..]);
        assert was[..p] + was[p..] == was;
        EncodeFetched(was[p..]);
        assert Contents() == was[..p] + was[p..][..Size(i)] + was[p + Size(i)..];
      }
    }

    /** Back to the position of the last instruction. */
    method Truncate(pos: nat)
      requires Valid() && pos <= |Contents()|
      modifies `size
      ensures Valid() && Contents() == old(Contents())[..pos]
    {
      size := pos;
    }

    /** The bytes of an instruction over those at pos. */
    method Replace(pos: nat, i: Instr)
      requires Valid() && pos + Size(i) <= |Contents()|
      modifies bytes
      ensures Contents() == old(Contents())[..pos] + Encode(i) + old(Contents())[pos + Size(i)..]
    {
      ghost var was := Contents();
      var code := Encode(i);
      for k := 0 to |code|
        invariant forall j | 0 <= j < size :: bytes[j] == if pos <= j < pos + k then code[j - pos] else was[j]
      {
        bytes[pos + k] := code[k];
      }
      assert Contents() == was[..pos] + code + was[pos + |code|..];
    }
  }
}
