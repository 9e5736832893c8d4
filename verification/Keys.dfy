/** Byte strings and their lexicographic order, the order every search of the tree relies on. */
module Keys {
  type Byte = b: int | 0 <= b < 256
  type Bytes = seq<Byte>

  /** Length of the longest common prefix. */
  function Common(a: Bytes, b: Bytes): (c: nat)
    ensures c <= |a| && c <= |b|
    ensures forall i | 0 <= i < c :: a[i] == b[i]
    ensures c < |a| && c < |b| ==> a[c] != b[c]
  {
    if |a| == 0 || |b| == 0 || a[0] != b[0] then 0 else 1 + Common(a[1..], b[1..])
  }

  lemma CommonUnique(a: Bytes, b: Bytes, c: nat)
    requires c <= |a| && c <= |b|
    requires forall i | 0 <= i < c :: a[i] == b[i]
    requires c < |a| && c < |b| ==> a[c] != b[c]
    ensures Common(a, b) == c
  {
    var d := Common(a, b);
  }

  /** Strict lexicographic order; a proper prefix is smaller. */
  predicate Less(a: Bytes, b: Bytes) {
    LessFrom(a, b, 0)
  }

  predicate LessFrom(a: Bytes, b: Bytes, i: nat)
    decreases |b| - i
  {
    i < |b| && (i >= |a| || a[i] < b[i] || (a[i] == b[i] && LessFrom(a, b, i + 1)))
  }

  lemma {:induction false} LessAtFrom(a: Bytes, b: Bytes, c: nat, i: nat)
    requires i <= c <= |a| && c <= |b|
    requires forall j | i <= j < c :: a[j] == b[j]
    requires c < |a| && c < |b| ==> a[c] != b[c]
    ensures LessFrom(a, b, i) <==> c < |b| && (c < |a| ==> a[c] < b[c])
    decreases c - i
  {
    if i < c {
      LessAtFrom(a, b, c, i + 1);
    }
  }

  /** The first difference decides. */
  lemma LessAt(a: Bytes, b: Bytes, c: nat)
    requires c <= |a| && c <= |b|
    requires forall i | 0 <= i < c :: a[i] == b[i]
    requires c < |a| && c < |b| ==> a[c] != b[c]
    ensures Less(a, b) <==> c < |b| && (c < |a| ==> a[c] < b[c])
  {
    LessAtFrom(a, b, c, 0);
  }

  lemma LessByCommon(a: Bytes, b: Bytes)
    ensures var c := Common(a, b); Less(a, b) <==> c < |b| && (c < |a| ==> a[c] < b[c])
  {
    LessAt(a, b, Common(a, b));
  }

  lemma CommonSym(a: Bytes, b: Bytes)
    ensures Common(a, b) == Common(b, a)
  {
    CommonUnique(b, a, Common(a, b));
  }

  lemma Trichotomy(a: Bytes, b: Bytes)
    ensures a == b || Less(a, b) || Less(b, a)
    ensures !(Less(a, b) && Less(b, a))
    ensures !Less(a, a)
  {
    LessAt(a, a, |a|);
    CommonSym(a, b);
    LessByCommon(a, b);
    LessByCommon(b, a);
    if Common(a, b) == |a| == |b| {
      assert a == b;
    }
  }

  lemma Transitive(a: Bytes, b: Bytes, c: Bytes)
    requires Less(a, b) && Less(b, c)
    ensures Less(a, c)
  {
    LessByCommon(a, b);
    LessByCommon(b, c);
    LessAt(a, c, if Common(a, b) < Common(b, c) then Common(a, b) else Common(b, c));
  }

  /** Whatever `b` is, it separates `a` from `c`: used with any two of the three facts. */
  lemma Chain(a: Bytes, b: Bytes, c: Bytes)
    ensures Less(a, b) && Less(b, c) ==> Less(a, c)
    ensures Less(a, b) && !Less(c, b) ==> Less(a, c)
    ensures !Less(b, a) && Less(b, c) ==> Less(a, c)
    ensures !Less(b, a) && !Less(c, b) ==> !Less(c, a)
  {
    Trichotomy(a, b);
    Trichotomy(b, c);
    Trichotomy(a, c);
    if Less(a, b) && Less(b, c) { Transitive(a, b, c); }
  }

  lemma NothingBelowEmpty(a: Bytes)
    ensures !Less(a, [])
    ensures a != [] ==> Less([], a)
  {
    LessAt([], a, 0);
  }

  /** The order-preserving 4-byte head of a key, read big-endian and padded with zero bytes. */
  function Head(k: Bytes): (h: int)
    ensures 0 <= h < 0x1_0000_0000
  {
    At(k, 0) * 0x100_0000 + At(k, 1) * 0x1_0000 + At(k, 2) * 0x100 + At(k, 3)
  }

  function At(k: Bytes, i: nat): Byte {
    if i < |k| then k[i] else 0
  }

  lemma HeadOrder(a: Bytes, b: Bytes)
    ensures !Less(a, b) ==> Head(b) <= Head(a)
  {
    var c := Common(a, b);
    LessByCommon(a, b);
    assert forall i: nat | i < c :: At(a, i) == At(b, i);
    if c == |b| {
      assert forall i: nat | c <= i :: At(b, i) == 0;
    } else if c < |a| {
      assert At(a, c) == a[c] && At(b, c) == b[c];
    }
  }

  /** Cutting a shared prefix leaves the order alone. */
  lemma CutPrefix(p: Bytes, a: Bytes, b: Bytes)
    ensures Less(p + a, p + b) <==> Less(a, b)
    ensures Common(p + a, p + b) == |p| + Common(a, b)
  {
    var c := Common(a, b);
    CommonUnique(p + a, p + b, |p| + c);
    LessByCommon(a, b);
    LessByCommon(p + a, p + b);
  }

  /** Keys between two bounds carry the bounds' common prefix. */
  lemma BetweenCarriesPrefix(lo: Bytes, k: Bytes, hi: Bytes)
    requires Less(lo, k) && !Less(hi, k)
    ensures Common(lo, hi) <= |k|
    ensures k[..Common(lo, hi)] == lo[..Common(lo, hi)] == hi[..Common(lo, hi)]
  {
    var p := Common(lo, hi);
    var c := Common(lo, k);
    LessByCommon(lo, k);
    if c < p {
      LessAt(hi, k, c);
    }
  }

  /** What comparing two byte ranges of one length yields: the difference of the first unequal bytes, or 0. */
  function Diff(a: Bytes, b: Bytes): int
    requires |a| == |b|
  {
    var c := Common(a, b);
    if c == |a| then 0 else (a[c] as int) - (b[c] as int)
  }

  function Min(a: nat, b: nat): nat {
    if a < b then a else b
  }

  /** Comparing the common length first and the lengths afterwards decides the order. */
  lemma DiffDecides(a: Bytes, b: Bytes)
    ensures var m := Min(|a|, |b|); var d := Diff(a[..m], b[..m]);
      && (d < 0 ==> Less(a, b)) && (d > 0 ==> Less(b, a))
      && (d == 0 && |a| < |b| ==> Less(a, b)) && (d == 0 && |a| > |b| ==> Less(b, a))
      && (d == 0 && |a| == |b| ==> a == b)
  {
    var m := Min(|a|, |b|);
    var c := Common(a[..m], b[..m]);
    assert forall i | 0 <= i < m :: a[..m][i] == a[i] && b[..m][i] == b[i];
    LessAt(a, b, c);
    LessAt(b, a, c);
    if c == |a| == |b| { assert a == b; }
  }
}
