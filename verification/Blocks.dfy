/** Block-wise comparing and copying of memory with 16- and 32-byte registers (AVX2): blocks may overlap
    at the tail, the results are those of a byte-by-byte pass. A comparison mask is seen as its bits. */
module Blocks {
  import opened Keys

  // ----- the first difference -----

  lemma DiffByIndex(a: Bytes, b: Bytes, c: nat)
    requires |a| == |b| && c <= |a| && forall i | 0 <= i < c :: a[i] == b[i]
    requires c < |a| ==> a[c] != b[c]
    ensures Diff(a, b) == if c < |a| then (a[c] as int) - (b[c] as int) else 0
  {
    CommonUnique(a, b, c);
  }

  lemma DiffSame(a: Bytes, b: Bytes)
    requires |a| == |b|
    ensures Diff(a, b) == 0 <==> a == b
  {
    if a == b { DiffByIndex(a, b, |a|); }
  }

  /** A difference in a block whose predecessors are equal is the difference of the whole. */
  lemma DiffFirst(a: Bytes, b: Bytes, at: nat, end: nat)
    requires |a| == |b| && at <= end <= |a| && a[..at] == b[..at]
    ensures Diff(a[at..end], b[at..end]) != 0 ==> Diff(a, b) == Diff(a[at..end], b[at..end])
    ensures Diff(a[at..end], b[at..end]) == 0 ==> a[..end] == b[..end]
    ensures end == |a| ==> Diff(a, b) == Diff(a[at..end], b[at..end])
  {
    var c := Common(a[at..end], b[at..end]);
    assert forall i | 0 <= i < at :: a[i] == a[..at][i] && b[i] == b[..at][i];
    assert forall i | 0 <= i < end - at :: a[at..end][i] == a[at + i] && b[at..end][i] == b[at + i];
    if c < end - at {
      DiffByIndex(a, b, at + c);
    } else {
      assert a[at..end] == b[at..end];
      assert a[..end] == a[..at] + a[at..end] && b[..end] == b[..at] + b[at..end];
      if end == |a| { DiffByIndex(a, b, |a|); }
    }
  }

  // ----- register operations, byte by byte -----

  function XorBits(a: int, b: int, width: nat): (r: int)
    requires 0 <= a && 0 <= b
    ensures 0 <= r
  {
    if width == 0 then 0 else (a + b) % 2 + 2 * XorBits(a / 2, b / 2, width - 1)
  }

  lemma XorByteFacts(a: Byte, b: Byte)
    ensures XorBits(a, b, 8) < 256
    ensures XorBits(a, b, 8) == 0 <==> a == b
    ensures XorBits(a, b, 8) >= 128 <==> (a >= 128) != (b >= 128)
  {
    XorRange(a, b, 8);
    XorZero(a, b, 8);
    XorTop(a, b, 7);
  }

  function TwoTo(n: nat): (p: int)
    ensures p > 0
  {
    if n == 0 then 1 else 2 * TwoTo(n - 1)
  }

  lemma {:induction false} XorRange(a: int, b: int, width: nat)
    requires 0 <= a && 0 <= b
    ensures XorBits(a, b, width) < TwoTo(width)
  {
    if width > 0 { XorRange(a / 2, b / 2, width - 1); }
  }

  lemma {:induction false} XorZero(a: int, b: int, width: nat)
    requires 0 <= a < TwoTo(width) && 0 <= b < TwoTo(width)
    ensures XorBits(a, b, width) == 0 <==> a == b
  {
    if width > 0 { XorZero(a / 2, b / 2, width - 1); }
  }

  lemma {:induction false} XorTop(a: int, b: int, width: nat)
    requires 0 <= a < 2 * TwoTo(width) && 0 <= b < 2 * TwoTo(width)
    ensures XorBits(a, b, width + 1) >= TwoTo(width) <==> (a >= TwoTo(width)) != (b >= TwoTo(width))
  {
    if width > 0 {
      XorTop(a / 2, b / 2, width - 1);
      XorRange(a / 2, b / 2, width);
    }
  }

  function XorVector(a: Bytes, b: Bytes): (r: Bytes)
    requires |a| == |b|
    ensures |r| == |a| && forall i | 0 <= i < |a| :: r[i] == XorBits(a[i], b[i], 8)
  {
    if |a| == 0 then [] else
      XorByteFacts(a[0], b[0]);
      [XorBits(a[0], b[0], 8)] + XorVector(a[1..], b[1..])
  }

  predicate AllZero(v: Bytes) {
    forall i | 0 <= i < |v| :: v[i] == 0
  }

  lemma XorSame(a: Bytes, b: Bytes)
    requires |a| == |b|
    ensures AllZero(XorVector(a, b)) <==> a == b
  {
    forall i | 0 <= i < |a| ensures XorVector(a, b)[i] == 0 <==> a[i] == b[i] { XorByteFacts(a[i], b[i]); }
  }

  /** Bytes are compared as signed numbers. */
  function Signed(x: Byte): int {
    if x < 128 then x else x - 256
  }

  function GreaterVector(a: Bytes, b: Bytes): (r: Bytes)
    requires |a| == |b|
    ensures |r| == |a| && forall i | 0 <= i < |a| :: r[i] == if Signed(a[i]) > Signed(b[i]) then 255 else 0
  {
    if |a| == 0 then [] else [if Signed(a[0]) > Signed(b[0]) then 255 else 0] + GreaterVector(a[1..], b[1..])
  }

  /** The top bits of the bytes, lowest byte first, filled up to 32 bits with zeros. */
  function MoveMask(v: Bytes): (m: seq<bool>)
    requires |v| <= 32
    ensures |m| == 32 && forall i | 0 <= i < 32 :: m[i] == (i < |v| && v[i] >= 128)
  {
    seq(32, i requires 0 <= i < 32 => i < |v| && v[i] >= 128)
  }

  // ----- comparing -----

  /** The first bit in which two masks differ, or -1. */
  method CmpFfd(x: seq<bool>, y: seq<bool>) returns (i: int)
    requires |x| == |y| == 32
    ensures -1 <= i < 32
    ensures i >= 0 ==> x[i] != y[i] && forall j | 0 <= j < i :: x[j] == y[j]
    ensures i == -1 ==> x == y
  {
    i := 0;
    while i < 32
      invariant 0 <= i <= 32
      invariant forall j | 0 <= j < i :: x[j] == y[j]
    {
      if x[i] != y[i] { return; }
      i := i + 1;
    }
    i := -1;
  }

  method CmpFfdb(x: Bytes, y: Bytes) returns (r: int)
    requires |x| == |y|
    ensures r == Diff(x, y)
  {
    var i := 0;
    while i < |x|
      invariant 0 <= i <= |x|
      invariant forall j | 0 <= j < i :: x[j] == y[j]
    {
      if x[i] != y[i] {
        DiffByIndex(x, y, i);
        return (x[i] as int) - (y[i] as int);
      }
      i := i + 1;
    }
    DiffByIndex(x, y, |x|);
    r := 0;
  }

  /** Compares two halves of 8 bytes as whole words first. */
  method Cmp16(a: Bytes, b: Bytes) returns (r: int)
    requires |a| == |b| == 16
    ensures r == Diff(a, b)
  {
    XorSame(a, b);
    DiffSame(a, b);
    if !AllZero(XorVector(a, b)) {
      var mm11, mm12, mm21, mm22 := a[..8], a[8..], b[..8], b[8..];
      TwoHalves(a, b, 8);
      if mm11 == mm21 {
        r := CmpFfdb(mm12, mm22);
      } else {
        r := CmpFfdb(mm11, mm21);
      }
      return;
    }
    r := 0;
  }

  /** The masks of the signed comparisons in both directions, each with the xor in it: exactly one of the
      comparisons holds where the bytes differ, so that the masks differ exactly there. */
  method DirectionMasks(a: Bytes, b: Bytes) returns (cmp: seq<bool>, rcmp: seq<bool>)
    requires |a| == |b| <= 32
    ensures |cmp| == |rcmp| == 32 && forall i | 0 <= i < 32 :: cmp[i] != rcmp[i] <==> i < |a| && a[i] != b[i]
  {
    var x := XorVector(a, b);
    cmp := MoveMask(XorVector(x, GreaterVector(a, b)));
    rcmp := MoveMask(XorVector(x, GreaterVector(b, a)));
    forall i | 0 <= i < 32 ensures cmp[i] != rcmp[i] <==> i < |a| && a[i] != b[i] {
      if i < |a| {
        XorByteFacts(x[i], GreaterVector(a, b)[i]);
        XorByteFacts(x[i], GreaterVector(b, a)[i]);
      }
    }
  }

  /** Finds the first unequal byte of one register. */
  method CmpMask(a: Bytes, b: Bytes) returns (r: int)
    requires |a| == |b| <= 32
    ensures r == Diff(a, b)
  {
    hide Diff;
    var cmp, rcmp := DirectionMasks(a, b);
    var at := CmpFfd(cmp, rcmp);
    DiffByIndex(a, b, if at == -1 then |a| else at);
    r := if at == -1 then 0 else (a[at] as int) - (b[at] as int);
  }

  /** Two registers of `half` bytes each: 16 for `rte_cmp32`, 32 for `rte_cmp64`. */
  method CmpTwo(a: Bytes, b: Bytes, half: nat) returns (r: int)
    requires 0 < half <= 32 && |a| == |b| == 2 * half
    ensures r == Diff(a, b)
  {
    hide XorVector, AllZero, Diff;
    var mm11, mm12, mm21, mm22 := a[..half], a[half..], b[..half], b[half..];
    var mm1, mm2 := XorVector(mm11, mm21), XorVector(mm12, mm22);
    XorSame(mm11, mm21);
    XorSame(mm12, mm22);
    TwoHalves(a, b, half);
    if !(AllZero(mm1) && AllZero(mm2)) {
      if AllZero(mm1) {
        r := CmpMask(mm12, mm22);
      } else {
        r := CmpMask(mm11, mm21);
      }
      return;
    }
    r := 0;
  }

  lemma TwoHalves(a: Bytes, b: Bytes, half: nat)
    requires |a| == |b| == 2 * half
    ensures a[..half] == b[..half] ==> Diff(a, b) == Diff(a[half..], b[half..])
    ensures a[..half] != b[..half] ==> Diff(a, b) == Diff(a[..half], b[..half])
    ensures a[..half] == b[..half] && a[half..] == b[half..] ==> Diff(a, b) == 0
  {
    assert a[half..] == a[half..2 * half] && b[half..] == b[half..2 * half] && a[0..half] == a[..half];
    assert b[0..half] == b[..half] && a[..0] == b[..0];
    DiffFirst(a, b, 0, half);
    DiffSame(a[..half], b[..half]);
    DiffSame(a[half..], b[half..]);
    if a[..half] == b[..half] { DiffFirst(a, b, half, 2 * half); }
  }

  method Cmp32(a: Bytes, b: Bytes, at: nat) returns (r: int)
    requires |a| == |b| && at + 32 <= |a|
    ensures r == Diff(a[at..at + 32], b[at..at + 32])
  {
    r := CmpTwo(a[at..at + 32], b[at..at + 32], 16);
  }

  method Cmp64(a: Bytes, b: Bytes, at: nat) returns (r: int)
    requires |a| == |b| && at + 64 <= |a|
    ensures r == Diff(a[at..at + 64], b[at..at + 64])
  {
    r := CmpTwo(a[at..at + 64], b[at..at + 64], 32);
  }

  /** `blocks` blocks of 64 bytes, one after the other: `rte_cmp128` and `rte_cmp256`. */
  method Cmp64s(a: Bytes, b: Bytes, at: nat, blocks: nat) returns (r: int)
    requires |a| == |b| && at + 64 * blocks <= |a| && a[..at] == b[..at]
    ensures r != 0 ==> r == Diff(a, b)
    ensures r == 0 ==> a[..at + 64 * blocks] == b[..at + 64 * blocks]
  {
    var i := 0;
    while i < blocks
      invariant 0 <= i <= blocks
      invariant a[..at + 64 * i] == b[..at + 64 * i]
    {
      r := Cmp64(a, b, at + 64 * i);
      DiffFirst(a, b, at + 64 * i, at + 64 * i + 64);
      if r != 0 { return; }
      i := i + 1;
    }
    r := 0;
  }

  /** Up to 15 bytes, by the bits of the length. */
  method CmpRegular(a: Bytes, b: Bytes) returns (r: int)
    requires |a| == |b| < 16
    ensures r == Diff(a, b)
  {
    var n, at := |a|, 0;
    if n / 8 % 2 == 1 {
      DiffFirst(a, b, 0, 8);
      if a[0..8] != b[0..8] { DiffSame(a[0..8], b[0..8]); r := CmpFfdb(a[0..8], b[0..8]); return; }
      DiffSame(a[0..8], b[0..8]);
      at := 8;
    }
    if n / 4 % 2 == 1 {
      r := RegularStep(a, b, at, 4);
      if r != 0 { return; }
      at := at + 4;
    }
    if n / 2 % 2 == 1 {
      r := RegularStep(a, b, at, 2);
      if r != 0 { return; }
      at := at + 2;
    }
    if n % 2 == 1 {
      r := RegularStep(a, b, at, 1);
      if r != 0 { return; }
      at := at + 1;
    }
    assert a[..at] == a && b[..at] == b;
    DiffSame(a, b);
    r := 0;
  }

  method RegularStep(a: Bytes, b: Bytes, at: nat, width: nat) returns (r: int)
    requires |a| == |b| && at + width <= |a| && a[..at] == b[..at]
    ensures r != 0 ==> r == Diff(a, b)
    ensures r == 0 ==> a[..at + width] == b[..at + width]
  {
    var x, y := a[at..at + width], b[at..at + width];
    DiffFirst(a, b, at, at + width);
    DiffSame(x, y);
    if x != y { r := CmpFfdb(x, y); } else { r := 0; }
  }

  method Step16(a: Bytes, b: Bytes, at: nat) returns (r: int)
    requires |a| == |b| && at + 16 <= |a| && a[..at] == b[..at]
    ensures r != 0 ==> r == Diff(a, b)
    ensures r == 0 ==> a[..at + 16] == b[..at + 16]
    ensures at + 16 == |a| ==> r == Diff(a, b)
  {
    r := Cmp16(a[at..at + 16], b[at..at + 16]);
    DiffFirst(a, b, at, at + 16);
  }

  method Step32(a: Bytes, b: Bytes, at: nat) returns (r: int)
    requires |a| == |b| && at + 32 <= |a| && a[..at] == b[..at]
    ensures r != 0 ==> r == Diff(a, b)
    ensures r == 0 ==> a[..at + 32] == b[..at + 32]
    ensures at + 32 == |a| ==> r == Diff(a, b)
  {
    r := Cmp32(a, b, at);
    DiffFirst(a, b, at, at + 32);
  }

  lemma Shorter(a: Bytes, b: Bytes, at: nat, back: nat)
    requires |a| == |b| && back <= at <= |a| && a[..at] == b[..at]
    ensures a[..back] == b[..back]
  {
    assert a[..back] == a[..at][..back] && b[..back] == b[..at][..back];
  }

  /** The last 16 of `n` bytes, overlapping what has been compared already (perhaps beyond `n`). */
  method Tail16(a: Bytes, b: Bytes, at: nat, n: nat) returns (r: int)
    requires |a| == |b| && 16 <= n <= at + 16 && at <= |a| && a[..at] == b[..at]
    requires |a| == if at < n then n else at
    ensures r == Diff(a, b)
  {
    Shorter(a, b, at, n - 16);
    r := Cmp16(a[n - 16..n], b[n - 16..n]);
    DiffFirst(a, b, n - 16, n);
    if n <= at {
      assert a[..at] == a && b[..at] == b;
      DiffSame(a, b);
      EqualPart(a, b, n - 16, n);
    }
  }

  lemma EqualPart(a: Bytes, b: Bytes, i: nat, j: nat)
    requires a == b && i <= j <= |a|
    ensures Diff(a[i..j], b[i..j]) == 0
  {
    DiffSame(a[i..j], b[i..j]);
  }

  method Tail32(a: Bytes, b: Bytes, at: nat) returns (r: int)
    requires |a| == |b| && 32 <= |a| <= at + 32 && at <= |a| && a[..at] == b[..at]
    ensures r == Diff(a, b)
  {
    Shorter(a, b, at, |a| - 32);
    r := Step32(a, b, |a| - 32);
  }

  /** The label for at most 512 remaining bytes, from offset `from`, with more than 128 bytes in all. */
  method CmpUpTo512(a: Bytes, b: Bytes, from: nat) returns (r: int)
    requires |a| == |b| > 128 && from < |a| <= from + 512 && a[..from] == b[..from]
    ensures r == Diff(a, b)
  {
    var at, n := from, |a| - from;
    r := 0;
    if n >= 256 {
      r := Cmp64s(a, b, at, 4);
      if r != 0 { return; }
      at, n := at + 256, n - 256;
    }
    if n >= 128 {
      r := Cmp64s(a, b, at, 2);
      if r != 0 { return; }
      at, n := at + 128, n - 128;
    }
    if n >= 64 {
      n := n - 64;
      r := Cmp64s(a, b, at, 1);
      if r != 0 { return; }
      at := at + 64;
    }
    if n > 32 {
      r := Step32(a, b, at);
      if r != 0 { return; }
      r := Tail32(a, b, at + 32);
      return;
    }
    if n > 0 {
      r := Tail32(a, b, at);
    } else {
      assert a[..at] == a && b[..at] == b;
      DiffSame(a, b);
    }
  }

  // ----- the whole comparison -----

  /** For these lengths the code compares a full block although fewer bytes were asked for. */
  predicate OverReads(n: nat) {
    65 <= n <= 79 || 97 <= n <= 111
  }

  /** How many bytes of both buffers a comparison of `n` bytes can look at. */
  function ReadEnd(n: nat): (e: nat)
    ensures n <= e <= n + 15 && (e == n <==> !OverReads(n))
  {
    if 65 <= n <= 79 then 80 else if 97 <= n <= 111 then 112 else n
  }

  /** `x` and `y` are the memory at the two pointers. The result is the difference of the first unequal
      bytes among the first `n`, or, if there is none, among the further bytes of an over-read. */
  method Memcmp(x: Bytes, y: Bytes, n: nat) returns (r: int)
    requires ReadEnd(n) <= |x| && ReadEnd(n) <= |y|
    ensures r == Diff(x[..ReadEnd(n)], y[..ReadEnd(n)])
  {
    var a, b := x[..ReadEnd(n)], y[..ReadEnd(n)];
    if n < 16 { r := CmpRegular(a, b); return; }
    assert a[..0] == b[..0];
    if n <= 32 {
      r := Step16(a, b, 0);
      if r != 0 { return; }
      r := Tail16(a, b, 16, n);
      return;
    }
    if n <= 48 {
      r := Step32(a, b, 0);
      if r != 0 { return; }
      r := Tail16(a, b, 32, n);
      return;
    }
    if n <= 64 {
      r := Step32(a, b, 0);
      if r != 0 { return; }
      r := Step16(a, b, 32);
      if r != 0 { return; }
      r := Tail16(a, b, 48, n);
      return;
    }
    if n <= 96 {
      r := Cmp64s(a, b, 0, 1);
      if r != 0 { return; }
      r := Step16(a, b, 64);
      if r != 0 { return; }
      r := Tail16(a, b, 80, n);
      return;
    }
    if n <= 128 {
      r := Cmp64s(a, b, 0, 1);
      if r != 0 { return; }
      r := Step32(a, b, 64);
      if r != 0 { return; }
      r := Step16(a, b, 96);
      if r != 0 { return; }
      r := Tail16(a, b, 112, n);
      return;
    }
    var at := 0;
    while n - at > 512
      invariant 0 <= at < n && a[..at] == b[..at]
    {
      r := Cmp64s(a, b, at, 4);
      if r != 0 { return; }
      r := Cmp64s(a, b, at + 256, 4);
      if r != 0 { return; }
      at := at + 512;
    }
    r := CmpUpTo512(a, b, at);
  }

  /** The comparison answers for the first `n` bytes alone if and only if the length is not one of the
      over-read ones, or those bytes differ, or the bytes behind them happen to be equal. */
  lemma MemcmpExact(x: Bytes, y: Bytes, n: nat)
    requires ReadEnd(n) <= |x| && ReadEnd(n) <= |y|
    ensures Diff(x[..ReadEnd(n)], y[..ReadEnd(n)]) == Diff(x[..n], y[..n])
            <==> !OverReads(n) || x[..n] != y[..n] || x[n..ReadEnd(n)] == y[n..ReadEnd(n)]
  {
    var e := ReadEnd(n);
    var a, b := x[..e], y[..e];
    assert a[0..n] == x[..n] && b[0..n] == y[..n] && a[..0] == b[..0];
    DiffFirst(a, b, 0, n);
    DiffSame(x[..n], y[..n]);
    DiffSame(a, b);
    if x[..n] == y[..n] {
      assert a == x[..n] + x[n..e] && b == y[..n] + y[n..e];
      if a == b { assert a[n..] == x[n..e] && b[n..] == y[n..e]; }
    }
  }

  /** 65 equal bytes compare as unequal because the byte behind them is looked at too. */
  lemma OverReadExample(zeros: Bytes)
    requires |zeros| == 80 && forall i | 0 <= i < 80 :: zeros[i] == 0
    ensures Diff(zeros[..65], zeros[65 := 1][..65]) == 0
    ensures ReadEnd(65) == 80 && Diff(zeros[..80], zeros[65 := 1][..80]) == -1
  {
    DiffByIndex(zeros[..65], zeros[65 := 1][..65], 65);
    DiffByIndex(zeros[..80], zeros[65 := 1][..80], 65);
  }
}
