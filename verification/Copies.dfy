/** Block-wise copying (AVX2): `n` bytes arrive at the destination, and no byte around them changes, even
    where blocks overlap at the tail. */
module Copies {
  import opened Keys

  /** The first `p` of `n` bytes have arrived at `base`; around the target nothing has changed. */
  ghost predicate Arrived(now: seq<Byte>, before: seq<Byte>, src: Bytes, base: nat, n: nat, p: nat) {
    && |now| == |before| && base + n <= |now| && p <= n <= |src|
    && (forall x | base <= x < base + p :: now[x] == src[x - base])
    && (forall x | 0 <= x < |now| && !(base <= x < base + n) :: now[x] == before[x])
  }

  lemma Whole(now: seq<Byte>, before: seq<Byte>, src: Bytes, base: nat, n: nat)
    requires Arrived(now, before, src, base, n, n)
    ensures now == before[..base] + src[..n] + before[base + n..]
  {
  }

  /** One load and one store of `k` bytes, at the same distance from both pointers. */
  method Mov(dst: array<Byte>, ghost before: seq<Byte>, src: Bytes, base: nat, ghost n: nat, ghost p: nat, at: nat,
             k: nat)
    requires Arrived(dst[..], before, src, base, n, p) && at <= p && at + k <= n
    modifies dst
    ensures Arrived(dst[..], before, src, base, n, if p < at + k then at + k else p)
  {
    forall i | 0 <= i < k { dst[base + at + i] := src[at + i]; }
    assert forall x | base <= x < base + at :: dst[x] == src[x - base];
  }

  /** `rte_mov64` and `rte_mov128`: registers of 32 bytes in a row. */
  method Mov32s(dst: array<Byte>, ghost before: seq<Byte>, src: Bytes, base: nat, ghost n: nat, ghost p: nat, at: nat,
                count: nat)
    requires Arrived(dst[..], before, src, base, n, p) && at <= p && at + 32 * count <= n
    modifies dst
    ensures Arrived(dst[..], before, src, base, n, if p < at + 32 * count then at + 32 * count else p)
  {
    var i := 0;
    ghost var q := p;
    while i < count
      invariant 0 <= i <= count && q == if p < at + 32 * i then at + 32 * i else p
      invariant Arrived(dst[..], before, src, base, n, q)
    {
      Mov(dst, before, src, base, n, q, at + 32 * i, 32);
      q := if q < at + 32 * i + 32 then at + 32 * i + 32 else q;
      i := i + 1;
    }
  }

  /** Fewer than 16 bytes: one store per bit of the length. */
  method CopySmall(dst: array<Byte>, ghost before: seq<Byte>, src: Bytes, base: nat, n: nat)
    requires n < 16 && Arrived(dst[..], before, src, base, n, 0)
    modifies dst
    ensures Arrived(dst[..], before, src, base, n, n)
  {
    var at := 0;
    if n % 2 == 1 { Mov(dst, before, src, base, n, at, at, 1); at := at + 1; }
    if n / 2 % 2 == 1 { Mov(dst, before, src, base, n, at, at, 2); at := at + 2; }
    if n / 4 % 2 == 1 { Mov(dst, before, src, base, n, at, at, 4); at := at + 4; }
    if n / 8 % 2 == 1 { Mov(dst, before, src, base, n, at, at, 8); at := at + 8; }
  }

  /** The label for the rest: `at` bytes have been copied, at most 128 remain, and the last store may reach
      back over bytes that are there already. */
  method CopyBack31(dst: array<Byte>, ghost before: seq<Byte>, src: Bytes, base: nat, n: nat, from: nat)
    requires from <= n <= from + 128 && n > 64 && Arrived(dst[..], before, src, base, n, from)
    modifies dst
    ensures Arrived(dst[..], before, src, base, n, n)
  {
    var at, rest := from, n - from;
    if rest >= 64 {
      rest := rest - 64;
      Mov32s(dst, before, src, base, n, at, at, 2);
      at := at + 64;
    }
    if rest > 32 {
      Mov(dst, before, src, base, n, at, at, 32);
      Mov(dst, before, src, base, n, at + 32, at + rest - 32, 32);
      return;
    }
    if rest > 0 { Mov(dst, before, src, base, n, at, at + rest - 32, 32); }
  }

  /** `misalign` is the destination address modulo 32. */
  method CopyGeneric(dst: array<Byte>, src: Bytes, base: nat, n: nat, misalign: nat)
    requires base + n <= dst.Length && n <= |src| && misalign < 32
    modifies dst
    ensures dst[..] == old(dst[..])[..base] + src[..n] + old(dst[..])[base + n..]
  {
    ghost var before := dst[..];
    if n < 16 {
      CopySmall(dst, before, src, base, n);
    } else if n <= 32 {
      Mov(dst, before, src, base, n, 0, 0, 16);
      Mov(dst, before, src, base, n, 16, n - 16, 16);
    } else if n <= 48 {
      Mov(dst, before, src, base, n, 0, 0, 16);
      Mov(dst, before, src, base, n, 16, 16, 16);
      Mov(dst, before, src, base, n, 32, n - 16, 16);
    } else if n <= 64 {
      Mov(dst, before, src, base, n, 0, 0, 32);
      Mov(dst, before, src, base, n, 32, n - 32, 32);
    } else if n <= 256 {
      var at := 0;
      if n >= 128 {
        Mov32s(dst, before, src, base, n, 0, 0, 4);
        at := 128;
      }
      CopyBack31(dst, before, src, base, n, at);
    } else {
      CopyLarge(dst, before, src, base, n, misalign);
    }
    Whole(dst[..], before, src, base, n);
  }

  /** More than 256 bytes: the first store may overlap the next ones so that these are aligned. */
  method CopyLarge(dst: array<Byte>, ghost before: seq<Byte>, src: Bytes, base: nat, n: nat, misalign: nat)
    requires n > 256 && misalign < 32 && Arrived(dst[..], before, src, base, n, 0)
    modifies dst
    ensures Arrived(dst[..], before, src, base, n, n)
  {
    var at := 0;
    ghost var p := 0;
    if misalign > 0 {
      Mov(dst, before, src, base, n, 0, 0, 32);
      at, p := 32 - misalign, 32;
    }
    while n - at >= 128
      invariant at <= p <= n && p < at + 32 && Arrived(dst[..], before, src, base, n, p)
    {
      Mov32s(dst, before, src, base, n, p, at, 4);
      at, p := at + 128, at + 128;
    }
    ArrivedSoFar(dst[..], before, src, base, n, p, at);
    CopyBack31(dst, before, src, base, n, at);
  }

  lemma ArrivedSoFar(now: seq<Byte>, before: seq<Byte>, src: Bytes, base: nat, n: nat, p: nat, q: nat)
    requires Arrived(now, before, src, base, n, p) && q <= p
    ensures Arrived(now, before, src, base, n, q)
  {
  }

  /** Both pointers aligned to 32 bytes. */
  method CopyAligned(dst: array<Byte>, src: Bytes, base: nat, n: nat)
    requires base + n <= dst.Length && n <= |src|
    modifies dst
    ensures dst[..] == old(dst[..])[..base] + src[..n] + old(dst[..])[base + n..]
  {
    ghost var before := dst[..];
    if n < 16 {
      CopySmall(dst, before, src, base, n);
    } else if n <= 32 {
      Mov(dst, before, src, base, n, 0, 0, 16);
      Mov(dst, before, src, base, n, 16, n - 16, 16);
    } else if n <= 64 {
      Mov(dst, before, src, base, n, 0, 0, 32);
      Mov(dst, before, src, base, n, 32, n - 32, 32);
    } else {
      var at := 0;
      while n - at >= 64
        invariant at <= n && Arrived(dst[..], before, src, base, n, at)
      {
        Mov32s(dst, before, src, base, n, at, at, 2);
        at := at + 64;
      }
      Mov32s(dst, before, src, base, n, at, n - 64, 2);
    }
    Whole(dst[..], before, src, base, n);
  }

  /** For disjoint buffers, at any alignment and length: exactly `n` bytes are copied. */
  method Memcpy(dst: array<Byte>, src: Bytes, base: nat, n: nat, dstAddress: nat, srcAddress: nat)
    requires base + n <= dst.Length && n <= |src|
    modifies dst
    ensures dst[..] == old(dst[..])[..base] + src[..n] + old(dst[..])[base + n..]
  {
    if dstAddress % 32 == 0 && srcAddress % 32 == 0 {
      CopyAligned(dst, src, base, n);
    } else {
      CopyGeneric(dst, src, base, n, dstAddress % 32);
    }
  }
}
