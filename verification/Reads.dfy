/** Which searches of a node do not depend on what the comparison reads behind a key. */
module Reads {
  import opened Keys
  import opened Nodes
  import opened Spaces
  import opened Blocks

  /** Comparing `x` with `y` does not depend on the bytes behind the shorter one. */
  predicate Clear(x: Bytes, y: Bytes) {
    var m := Min(|x|, |y|);
    OverReads(m) ==> x[..m] != y[..m]
  }

  /** All comparisons of a search for `key` in the node are clear. */
  predicate Searchable(n: Node, key: Bytes) {
    var p := Prefix(n);
    Clear(key, n.lo[..p]) && forall i | 0 <= i < |n.keys| :: SlotClear(n, key, i)
  }

  predicate SlotClear(n: Node, key: Bytes, i: nat)
    requires i < |n.keys|
  {
    var p := Prefix(n);
    p <= |key| && p <= |n.keys[i]| ==> Clear(key[p..], n.keys[i][p..])
  }

  /** Keys of at most 64 bytes can always be searched for, and found. */
  lemma ShortSearchable(n: Node, key: Bytes)
    requires |key| <= SHORT
    ensures Searchable(n, key)
  {
  }

  /** Nodes whose keys and fences have at most 64 bytes can be searched for any key. */
  lemma ShortNodeSearchable(n: Node, key: Bytes)
    requires Small(n, SHORT)
    ensures Searchable(n, key)
  {
    hide OverReads;
    forall i | 0 <= i < |n.keys| ensures SlotClear(n, key, i) { ShortClear(n, key, i); }
    NoOverRead(Min(|key|, Prefix(n)));
  }

  lemma ShortClear(n: Node, key: Bytes, i: nat)
    requires Small(n, SHORT) && i < |n.keys|
    ensures SlotClear(n, key, i)
  {
  }

  lemma NoOverRead(n: nat)
    requires n <= SHORT
    ensures !OverReads(n)
  {
  }

  /** No comparison with the prefix or with a whole stored suffix reads on. */
  predicate LengthsFit(n: Node) {
    && !OverReads(Prefix(n))
    && forall i | 0 <= i < |n.keys| :: Prefix(n) <= |n.keys[i]| && !OverReads(|n.keys[i]| - Prefix(n))
  }

  function TallKey(second: Byte): Bytes {
    [1, second] + seq(78, _ => 0)
  }

  /** Keys of 80 bytes between fences that share nothing. */
  function TallLeaf(): Node {
    Node(true, [1], [2], [TallKey(1), TallKey(2), TallKey(3)], [[], [], []], NO_NEIGHBOUR)
  }

  /** A split need not keep fitting lengths: the left half has a longer prefix, and so shorter suffixes. For this
      reason trees bound the length of their keys. */
  lemma SplitUnfits(right: Pid, ordered: bool)
    ensures WellFormed(TallLeaf()) && LengthsFit(TallLeaf())
    ensures var i, sep := FindSeparator(TallLeaf(), ordered), Separator(TallLeaf(), ordered);
      GoodCut(TallLeaf(), i.slot, sep) && !LengthsFit(SplitLeft(TallLeaf(), i.slot, sep, right))
  {
    TallWellFormed();
    TallCut(ordered);
    hide TallKey, Less, WellFormed, GoodCut, FindSeparator, Separator;
    var sep := Separator(TallLeaf(), ordered);
    CommonUnique([1], sep, 1);
    CommonUnique([1], [2], 0);
    assert SplitLeft(TallLeaf(), 1, sep, right).keys[0] == TallKey(1);
  }

  lemma TallCut(ordered: bool)
    ensures WellFormed(TallLeaf()) && FindSeparator(TallLeaf(), ordered).slot == 1
    ensures GoodCut(TallLeaf(), 1, Separator(TallLeaf(), ordered))
    ensures |Separator(TallLeaf(), ordered)| > 0 && Separator(TallLeaf(), ordered)[0] == 1
  {
    TallWellFormed();
    TallCommon(2, 3);
    CommonUnique([1], [2], 0);
    hide TallKey, Less, Within, Sorted, Common;
    SeparatorCuts(TallLeaf(), ordered);
    SepInRange(TallLeaf(), ordered);
  }

  lemma TallCommon(x: Byte, y: Byte)
    requires x != y
    ensures Common(TallKey(x), TallKey(y)) == 1 && |TallKey(x)| == |TallKey(y)| == 80
    ensures TallKey(x)[0] == TallKey(y)[0] == 1
  {
    CommonUnique(TallKey(x), TallKey(y), 1);
  }

  lemma TallWellFormed()
    ensures WellFormed(TallLeaf()) && forall i | 0 <= i < 3 :: |TallLeaf().keys[i]| == 80
  {
    var n := TallLeaf();
    LessAt(n.lo, n.hi, 0);
    forall i | 0 <= i < 3 ensures Within(n.keys[i], n.lo, n.hi) {
      LessAt(n.lo, n.keys[i], 1);
      LessAt(n.hi, n.keys[i], 0);
    }
    forall i, j | 0 <= i < j < 3 ensures Less(n.keys[i], n.keys[j]) { LessAt(n.keys[i], n.keys[j], 1); }
  }

  // ----- comparing with given bytes behind -----

  /** What the comparison of `n` bytes of `x` and `y` yields, with what is behind them in memory. */
  function Raw(x: Bytes, y: Bytes, n: nat): int
    requires ReadEnd(n) <= |x| && ReadEnd(n) <= |y|
  {
    Diff(x[..ReadEnd(n)], y[..ReadEnd(n)])
  }

  /** Bytes behind a key that make it as small, and as large, as bytes behind it can. */
  function Zeros(): (b: Bytes)
    ensures |b| == 15 && forall i | 0 <= i < 15 :: b[i] == 0
  {
    seq(15, _ => 0)
  }

  function Highs(): (b: Bytes)
    ensures |b| == 15 && forall i | 0 <= i < 15 :: b[i] == 255
  {
    seq(15, _ => 255)
  }

  /** With some bytes behind it, `x` compares as smaller than the memory `y`. */
  predicate Falls(x: Bytes, y: Bytes, n: nat)
    requires n <= |x| && ReadEnd(n) <= |y|
  {
    Raw(x + Zeros(), y, n) < 0
  }

  predicate Rises(x: Bytes, y: Bytes, n: nat)
    requires n <= |x| && ReadEnd(n) <= |y|
  {
    Raw(x + Highs(), y, n) > 0
  }

  /** Different bytes decide; equal ones do unless the comparison reads on. */
  lemma RawMeans(x: Bytes, y: Bytes, n: nat)
    requires ReadEnd(n) <= |x| && ReadEnd(n) <= |y|
    ensures !OverReads(n) || x[..n] != y[..n] ==> Raw(x, y, n) == Diff(x[..n], y[..n])
    ensures Raw(x, y, n) == 0 <==> x[..ReadEnd(n)] == y[..ReadEnd(n)]
    ensures Raw(x, y, n) == 0 ==> x[..n] == y[..n]
  {
    hide OverReads, Diff;
    var e := ReadEnd(n);
    MemcmpExact(x, y, n);
    DiffSame(x[..e], y[..e]);
    assert x[..e][..n] == x[..n] && y[..e][..n] == y[..n];
  }

  /** `Falls` and `Rises` speak for all bytes behind. */
  lemma RawRange(x: Bytes, behind: Bytes, y: Bytes, n: nat)
    requires n <= |x| && ReadEnd(n) <= |y| && |behind| >= 15
    ensures Raw(x + behind, y, n) < 0 ==> Falls(x, y, n)
    ensures Raw(x + behind, y, n) > 0 ==> Rises(x, y, n)
  {
    var e := ReadEnd(n);
    var a, z, h, b := (x + behind)[..e], (x + Zeros())[..e], (x + Highs())[..e], y[..e];
    var c := Common(a, b);
    if c < e {
      var cz, ch := Common(z, b), Common(h, b);
      assert forall i | 0 <= i < e && i < |x| :: a[i] == z[i] == h[i];
      assert forall i | |x| <= i < e :: z[i] == 0 && h[i] == 255;
    }
  }

  /** A key with nothing of its own behind the compared bytes cannot equal the memory whatever is behind. */
  lemma FallsOrRises(x: Bytes, y: Bytes, n: nat)
    requires n <= |x| < ReadEnd(n) <= |y| && x[..n] == y[..n]
    ensures Falls(x, y, n) || Rises(x, y, n)
  {
    hide OverReads;
    var e := ReadEnd(n);
    var a, b := (x + Zeros())[..e], (x + Highs())[..e];
    assert a[|x|] == 0 && b[|x|] == 255;
    DiffOutside(a, b, y[..e], |x|);
  }

  /** Two ranges that differ from `at` on only by zeros and high bytes cannot enclose a third. */
  lemma DiffOutside(a: Bytes, b: Bytes, y: Bytes, at: nat)
    requires |a| == |b| == |y| && at < |y| && a[at] == 0 && b[at] == 255 && forall i | 0 <= i < at :: a[i] == b[i]
    ensures Diff(a, y) < 0 || Diff(b, y) > 0
  {
    if Common(a, y) >= at {
      assert Common(b, y) >= at by { assert forall i | 0 <= i < at :: b[i] == y[i]; }
    } else {
      CommonUnique(b, y, Common(a, y));
    }
  }
}
