/** What str_split, slices and division give (src/builtins.c:194-231, src/vm.c:129-216, 385-447). */
module ValueLaws {
  import opened Wrappers
  import opened Opcodes
  import opened Objects

  // ---- searching and splitting ----

  predicate OccursAt(s: string, needle: string, i: nat) { i + |needle| <= |s| && s[i..i + |needle|] == needle }

  lemma {:induction false} OccursInTail(s: string, needle: string, i: nat)
    requires s != []
    ensures OccursAt(s[1..], needle, i) <==> OccursAt(s, needle, i + 1)
  {
    if i + 1 + |needle| <= |s| {
      assert s[1..][i..i + |needle|] == s[i + 1..i + 1 + |needle|];
    }
  }

  /** Find gives the first occurrence, and nothing only if there is none. */
  lemma {:induction false} FindIsFirst(s: string, needle: string)
    ensures match Find(s, needle)
            case None => forall i: nat :: !OccursAt(s, needle, i)
            case Some(k) => OccursAt(s, needle, k) && forall i: nat | i < k :: !OccursAt(s, needle, i)
    decreases |s|
  {
    if needle <= s {
      assert OccursAt(s, needle, 0);
    } else {
      assert !OccursAt(s, needle, 0);
      if s != [] {
        FindIsFirst(s[1..], needle);
        forall i: nat ensures OccursAt(s[1..], needle, i) <==> OccursAt(s, needle, i + 1) {
          OccursInTail(s, needle, i);
        }
        forall i: nat | OccursAt(s, needle, i) ensures i > 0 && OccursAt(s[1..], needle, i - 1) {
          OccursInTail(s, needle, i - 1);
        }
      }
    }
  }

  function Join(pieces: seq<string>, delim: string): string {
    if pieces == [] then "" else if |pieces| == 1 then pieces[0] else pieces[0] + delim + Join(pieces[1..], delim)
  }

  /** No piece holds the delimiter, and each delimiter is the first one from where its piece starts. */
  predicate LeftmostPieces(pieces: seq<string>, delim: string) {
    forall k | 0 <= k < |pieces| ::
      if k == |pieces| - 1 then Find(pieces[k], delim) == None else Find(pieces[k] + delim, delim) == Some(|pieces[k]|)
  }

  /** What follows the first occurrence does not matter. */
  lemma {:induction false} FindBefore(p: string, delim: string, rest: string)
    requires delim != ""
    ensures Find(p + delim, delim) == Some(|p|) <==> Find(p + delim + rest, delim) == Some(|p|)
  {
    hide Find;
    var short, long := p + delim, p + delim + rest;
    assert short[|p|..|p| + |delim|] == delim && long[|p|..|p| + |delim|] == delim;
    forall i: nat | i < |p| ensures OccursAt(short, delim, i) <==> OccursAt(long, delim, i) {
      if i + |delim| <= |short| {
        assert short[i..i + |delim|] == long[i..i + |delim|];
      }
    }
    FindIsFirst(short, delim);
    FindIsFirst(long, delim);
    assert OccursAt(short, delim, |p|) && OccursAt(long, delim, |p|);
  }

  lemma {:induction false} JoinedOccurs(pieces: seq<string>, delim: string)
    ensures |pieces| > 1 ==> OccursAt(Join(pieces, delim), delim, |pieces[0]|)
  {
    if |pieces| > 1 {
      var s, k := Join(pieces, delim), |pieces[0]|;
      assert s == pieces[0] + delim + Join(pieces[1..], delim);
      assert s[k..k + |delim|] == delim;
    }
  }

  lemma {:induction false} OccursLonger(s: string, rest: string, needle: string, i: nat)
    ensures OccursAt(s, needle, i) ==> OccursAt(s + rest, needle, i)
  {
    if i + |needle| <= |s| {
      assert (s + rest)[i..i + |needle|] == s[i..i + |needle|];
    }
  }

  /**
   Splitting is undone by joining, and its pieces are cut at the leftmost delimiters; no other
   list has both properties.
   */
  lemma {:induction false} SplitIsLeftmost(s: string, delim: string, pieces: seq<string>)
    requires delim != ""
    ensures pieces == Split(s, delim) <==> pieces != [] && Join(pieces, delim) == s && LeftmostPieces(pieces, delim)
    decreases |s|
  {
    hide Find;
    match Find(s, delim)
    case None =>
      FindIsFirst(s, delim);
      JoinedOccurs(pieces, delim);
    case Some(i) =>
      var rest := s[i + |delim|..];
      FindIsFirst(s, delim);
      assert s == s[..i] + delim + rest;
      FindBefore(s[..i], delim, rest);
      if pieces == Split(s, delim) {
        assert pieces[1..] == Split(rest, delim);
        SplitIsLeftmost(rest, delim, pieces[1..]);
        PiecesCons(pieces, delim);
      }
      if pieces != [] && Join(pieces, delim) == s && LeftmostPieces(pieces, delim) {
        assert |pieces| > 1;
        FindBefore(pieces[0], delim, Join(pieces[1..], delim));
        PiecesCons(pieces, delim);
        assert |pieces[0]| == i && s[..i] == pieces[0];
        assert Join(pieces[1..], delim) == rest;
        SplitIsLeftmost(rest, delim, pieces[1..]);
        assert pieces == [pieces[0]] + pieces[1..];
      }
  }

  lemma {:induction false} PiecesCons(pieces: seq<string>, delim: string)
    requires |pieces| > 1
    ensures LeftmostPieces(pieces, delim)
       <==> Find(pieces[0] + delim, delim) == Some(|pieces[0]|) && LeftmostPieces(pieces[1..], delim)
  {
    hide Find;
    var rest := pieces[1..];
    if Find(pieces[0] + delim, delim) == Some(|pieces[0]|) && LeftmostPieces(rest, delim) {
      forall k | 0 < k < |pieces|
        ensures if k == |pieces| - 1 then Find(pieces[k], delim) == None
                else Find(pieces[k] + delim, delim) == Some(|pieces[k]|)
      {
        assert rest[k - 1] == pieces[k];
      }
    }
    if LeftmostPieces(pieces, delim) {
      forall k | 0 <= k < |rest|
        ensures if k == |rest| - 1 then Find(rest[k], delim) == None
                else Find(rest[k] + delim, delim) == Some(|rest[k]|)
      {
        assert rest[k] == pieces[k + 1];
      }
    }
  }

  /** No piece holds the delimiter. */
  lemma {:induction false} NoPieceHoldsDelimiter(s: string, delim: string, piece: string)
    requires delim != "" && piece in Split(s, delim)
    ensures Find(piece, delim) == None
  {
    hide Find, Split, Join;
    var pieces := Split(s, delim);
    SplitIsLeftmost(s, delim, pieces);
    var k :| 0 <= k < |pieces| && pieces[k] == piece;
    if k < |pieces| - 1 {
      var long := piece + delim;
      FindIsFirst(long, delim);
      FindIsFirst(piece, delim);
      if Find(piece, delim).Some? {
        OccursLonger(piece, delim, delim, Find(piece, delim).value);
        assert false;
      }
    }
  }

  // ---- slices ----

  const INT32_MAX: int := 0x7fff_ffff
  const INT32_MIN: int := -0x8000_0000

  /** The elements from s up to, but not including, e; none if s is not before e. */
  function Between<T>(source: seq<T>, s: nat, e: int): seq<T> {
    var end := if e < |source| then e else |source|;
    if s < end then source[s..end] else []
  }

  /** Negative bounds count from the end, and so does an end of 0. */
  function Normal(size: nat, n: int): int { if n < 0 then size + n else n }

  function NormalEnd(size: nat, n: int): int { if n <= 0 then size + n else n }

  /** The cast to 32 bits does nothing to what fits. */
  lemma {:induction false} CastKeeps(n: int)
    requires INT32_MIN <= n <= INT32_MAX
    ensures ToInt32(n) == n
  {
    if n >= 0 {
      assert n % 0x1_0000_0000 == n;
    } else {
      assert n % 0x1_0000_0000 == n + 0x1_0000_0000;
    }
  }

  lemma {:induction false} BoundsAreNormal(size: nat, start: int, end: int)
    requires size <= INT32_MAX && INT32_MIN <= start <= INT32_MAX && INT32_MIN <= end <= INT32_MAX
    ensures var s, e := Normal(size, start), NormalEnd(size, end);
            SliceBounds(size, start, end) == (s, if e < s then s else e)
  {
    hide ToInt32;
    if start < 0 {
      CastKeeps(size + start);
    }
    if end <= 0 {
      CastKeeps(size + end);
    }
  }

  /**
   A slice is the part of the source between its bounds. It has no result exactly
   where the start lies before the first element and the end after the start.
   */
  lemma {:induction false} SliceIsBetween<T>(source: seq<T>, start: int, end: int)
    requires |source| <= INT32_MAX && INT32_MIN <= start <= INT32_MAX && INT32_MIN <= end <= INT32_MAX
    ensures var s, e := Normal(|source|, start), NormalEnd(|source|, end);
            match SliceOf(source, start, end)
            case None => s < 0 && s < e
            case Some(r) => if s < 0 then e <= s && r == [] else r == Between(source, s, e)
  {
    hide ToInt32, SliceBounds;
    BoundsAreNormal(|source|, start, end);
  }

  /** Cutting anywhere, from either end, loses nothing. */
  lemma {:induction false} SlicesPartition<T>(source: seq<T>, k: int)
    requires |source| <= INT32_MAX && (0 < k <= |source| || -|source| <= k < 0)
    ensures match (SliceOf(source, 0, k), SliceOf(source, k, 0))
            case (Some(front), Some(back)) => front + back == source && |front| == Normal(|source|, k)
            case _ => false
  {
    SliceIsBetween(source, 0, k);
    SliceIsBetween(source, k, 0);
    var n := Normal(|source|, k);
    assert source[..n] + source[n..] == source;
  }

  /** An element is the slice of length one at its index. */
  lemma {:induction false} ElementIsSlice<F>(h: Heap<F>, s: string, n: int)
    requires |s| <= INT32_MAX && -|s| <= n < |s|
    ensures IndexGet(h, VStr(s), VInt(n)) == Some(VStr([s[if n < 0 then |s| + n else n]]))
    ensures SliceOf(s, n, n + 1) == Some([s[if n < 0 then |s| + n else n]])
  {
    SliceIsBetween(s, n, n + 1);
    var k := if n < 0 then |s| + n else n;
    assert s[k..k + 1] == [s[k]];
  }

  // ---- division ----

  /** Division truncates: the remainder is smaller than the divisor and has the dividend's sign. */
  lemma {:induction false} DivisionTruncates(a: int, b: int)
    requires b != 0
    ensures a == Quotient(a, b) * b + Remainder(a, b)
    ensures Abs(Remainder(a, b)) < Abs(b)
    ensures a >= 0 ==> Remainder(a, b) >= 0
    ensures a <= 0 ==> Remainder(a, b) <= 0
  {
    var x, y := Abs(a), Abs(b);
    assert x == (x / y) * y + x % y;
  }

  /** These properties determine both results. */
  lemma {:induction false} DivisionIsUnique(a: int, b: int, q: int, r: int)
    requires b != 0 && a == q * b + r && Abs(r) < Abs(b) && (a >= 0 ==> r >= 0) && (a <= 0 ==> r <= 0)
    ensures q == Quotient(a, b) && r == Remainder(a, b)
  {
    hide Quotient, Remainder;
    DivisionTruncates(a, b);
    var d := q - Quotient(a, b);
    Differ(q, Quotient(a, b), b);
    if d != 0 {
      Multiple(d, b);
    }
  }

  lemma {:induction false} Differ(q: int, p: int, b: int)
    ensures (q - p) * b == q * b - p * b
  {
  }

  lemma {:induction false} Multiple(d: int, b: int)
    requires d != 0
    ensures Abs(d * b) >= Abs(b)
  {
    if d > 0 && b > 0 {
      assert d * b >= b;
    } else if d > 0 && b < 0 {
      assert d * b <= b;
    } else if d < 0 && b > 0 {
      assert d * b <= -b;
    } else if d < 0 && b < 0 {
      assert d * b >= -b;
    }
  }

  /** Integer division overflows in one case only. */
  lemma {:induction false} DivisionFits<F>(a: int, b: int)
    requires INT64_MIN <= a <= INT64_MAX && INT64_MIN <= b <= INT64_MAX && b != 0
    ensures Arithmetic<F>(OpDivide, a, b) == None <==> a == INT64_MIN && b == -1
    ensures Arithmetic<F>(OpModulo, a, b) == None <==> a == INT64_MIN && b == -1
  {
    QuotientFits(Abs(a), Abs(b));
  }

  lemma {:induction false} QuotientFits(x: nat, y: nat)
    requires y > 0
    ensures x / y <= x && (y > 1 && x > 0 ==> x / y < x) && x % y < y
  {
    var q, r := x / y, x % y;
    assert x == q * y + r && 0 <= r < y;
    Scaled(q, y);
  }

  lemma {:induction false} Scaled(q: nat, y: nat)
    requires y > 0
    ensures q * y >= q && (y > 1 ==> q * y >= q + q)
  {
    if q > 0 {
      Scaled(q - 1, y);
      assert q * y == (q - 1) * y + y;
    }
  }
}
