/** Page space of a node seen as values: what it occupies once the fences' common prefix is cut from every
    key, where it is split, and when the halves or the merged leaf fit a page. */
module Spaces {
  import opened Keys
  import opened Nodes

  // ----- sizes -----

  function Prefix(n: Node): (p: nat)
    ensures p <= |n.lo| && p <= |n.hi|
  {
    Common(n.lo, n.hi)
  }

  /** Slots, key suffixes and payloads of some entries when `p` bytes of every key are cut. */
  function Bulk(keys: seq<Bytes>, pays: seq<Bytes>, p: int): int
    requires |keys| == |pays|
  {
    if |keys| == 0 then 0 else SLOT + |keys[0]| - p + |pays[0]| + Bulk(keys[1..], pays[1..], p)
  }

  /** Everything the node needs on its page. */
  function Size(n: Node): int
    requires |n.keys| == |n.pays|
  {
    HEADER + |n.lo| + |n.hi| + Bulk(n.keys, n.pays, Prefix(n))
  }

  /** `freeSpaceAfterCompaction`. */
  function Room(n: Node): int
    requires |n.keys| == |n.pays|
  {
    PAGE_SIZE - Size(n)
  }

  predicate Fits(n: Node)
    requires |n.keys| == |n.pays|
  {
    Size(n) <= PAGE_SIZE
  }

  predicate HasSpaceFor(n: Node, keyLen: nat, payLen: nat)
    requires |n.keys| == |n.pays|
  {
    SLOT + (keyLen - Prefix(n)) + payLen <= Room(n)
  }

  lemma {:induction false} BulkConcat(a: seq<Bytes>, v: seq<Bytes>, b: seq<Bytes>, w: seq<Bytes>, p: int)
    requires |a| == |v| && |b| == |w|
    ensures Bulk(a + b, v + w, p) == Bulk(a, v, p) + Bulk(b, w, p)
  {
    if |a| == 0 {
      assert a + b == b && v + w == w;
    } else {
      BulkConcat(a[1..], v[1..], b, w, p);
      assert (a + b)[1..] == a[1..] + b && (v + w)[1..] == v[1..] + w;
    }
  }

  lemma BulkCut(keys: seq<Bytes>, pays: seq<Bytes>, i: nat, p: int)
    requires |keys| == |pays| && i <= |keys|
    ensures Bulk(keys, pays, p) == Bulk(keys[..i], pays[..i], p) + Bulk(keys[i..], pays[i..], p)
  {
    assert keys == keys[..i] + keys[i..] && pays == pays[..i] + pays[i..];
    BulkConcat(keys[..i], pays[..i], keys[i..], pays[i..], p);
  }

  lemma BulkAt(keys: seq<Bytes>, pays: seq<Bytes>, i: nat, p: int)
    requires |keys| == |pays| && i < |keys|
    ensures Bulk(keys[i..], pays[i..], p) == SLOT + |keys[i]| - p + |pays[i]| + Bulk(keys[i + 1..], pays[i + 1..], p)
  {
    assert keys[i..][1..] == keys[i + 1..] && pays[i..][1..] == pays[i + 1..];
  }

  lemma {:induction false} BulkShift(keys: seq<Bytes>, pays: seq<Bytes>, p: int, q: int)
    requires |keys| == |pays|
    ensures Bulk(keys, pays, q) == Bulk(keys, pays, p) + (p - q) * |keys|
  {
    if |keys| > 0 {
      BulkShift(keys[1..], pays[1..], p, q);
      assert (p - q) * |keys| == (p - q) * (|keys| - 1) + (p - q);
    }
  }

  lemma {:induction false} BulkShrinks(keys: seq<Bytes>, pays: seq<Bytes>, p: int, q: int)
    requires |keys| == |pays| && p <= q
    ensures Bulk(keys, pays, q) <= Bulk(keys, pays, p)
  {
    if |keys| > 0 { BulkShrinks(keys[1..], pays[1..], p, q); }
  }

  /** The node's own prefix is a prefix of each of its keys. */
  predicate Carries(keys: seq<Bytes>, p: int) {
    forall i | 0 <= i < |keys| :: p <= |keys[i]|
  }

  lemma {:induction false} BulkLeast(keys: seq<Bytes>, pays: seq<Bytes>, p: int)
    requires |keys| == |pays| && Carries(keys, p)
    ensures Bulk(keys, pays, p) >= SLOT * |keys|
  {
    if |keys| > 0 {
      BulkLeast(keys[1..], pays[1..], p);
    }
  }

  lemma PrefixCarried(n: Node)
    requires WellFormed(n)
    ensures Carries(n.keys, Prefix(n))
    ensures forall i | 0 <= i < |n.keys| :: Prefix(n) <= |n.keys[i]| && n.keys[i][..Prefix(n)] == n.lo[..Prefix(n)]
  {
    forall i | 0 <= i < |n.keys|
      ensures Prefix(n) <= |n.keys[i]| && n.keys[i][..Prefix(n)] == n.lo[..Prefix(n)]
    {
      KeyCarries(n, n.keys[i]);
    }
  }

  lemma KeyCarries(n: Node, k: Bytes)
    requires Within(k, n.lo, n.hi)
    ensures Prefix(n) <= |k| && k[..Prefix(n)] == n.lo[..Prefix(n)]
  {
    if n.lo != [] && n.hi != [] { BetweenCarriesPrefix(n.lo, k, n.hi); }
  }

  // ----- changing entries -----

  lemma InsertSize(n: Node, k: Bytes, v: Bytes)
    requires WellFormed(n)
    ensures Size(InsertEntry(n, k, v)) == Size(n) + SLOT + |k| - Prefix(n) + |v|
  {
    var p, q := LowerBound(n.keys, k), Prefix(n);
    BulkCut(n.keys, n.pays, p, q);
    BulkConcat(n.keys[..p] + [k], n.pays[..p] + [v], n.keys[p..], n.pays[p..], q);
    BulkConcat(n.keys[..p], n.pays[..p], [k], [v], q);
    assert Bulk([k], [v], q) == SLOT + |k| - q + |v| by { assert [k][1..] == [] && [v][1..] == []; }
  }

  lemma RemoveSize(n: Node, i: nat)
    requires |n.keys| == |n.pays| && i < |n.keys|
    ensures Size(RemoveAt(n, i)) == Size(n) - (SLOT + |n.keys[i]| - Prefix(n) + |n.pays[i]|)
  {
    var q := Prefix(n);
    BulkCut(n.keys, n.pays, i, q);
    BulkAt(n.keys, n.pays, i, q);
    BulkConcat(n.keys[..i], n.pays[..i], n.keys[i + 1..], n.pays[i + 1..], q);
  }

  lemma SetPaySize(n: Node, i: nat, v: Bytes)
    requires |n.keys| == |n.pays| && i < |n.keys|
    ensures Size(SetPay(n, i, v)) == Size(n) + |v| - |n.pays[i]|
  {
    var q, m := Prefix(n), SetPay(n, i, v);
    BulkCut(n.keys, n.pays, i, q);
    BulkAt(n.keys, n.pays, i, q);
    BulkCut(m.keys, m.pays, i, q);
    BulkAt(m.keys, m.pays, i, q);
    assert m.pays[..i] == n.pays[..i] && m.pays[i + 1..] == n.pays[i + 1..];
  }

  // ----- choosing a separator -----

  datatype SepInfo = SepInfo(len: nat, slot: nat, truncated: bool)

  /** `commonPrefix` of two slots: bytes their suffixes share. */
  function CommonSuffix(n: Node, a: nat, b: nat): int
    requires a < |n.keys| && b < |n.keys|
  {
    Common(n.keys[a], n.keys[b]) - Prefix(n)
  }

  /** The first slot from `i` that shares something else with slot 0 than `best`, or `upper`. */
  function FirstChange(n: Node, i: nat, upper: nat, best: int): (s: nat)
    requires i <= upper < |n.keys|
    ensures i <= s <= upper
    ensures forall j | i <= j < s :: CommonSuffix(n, j, 0) == best
    ensures s < upper ==> CommonSuffix(n, s, 0) != best
    decreases upper - i
  {
    if i < upper && CommonSuffix(n, i, 0) == best then FirstChange(n, i + 1, upper, best) else i
  }

  /** The slot a leaf is cut at. */
  function BestSlot(n: Node, ordered: bool): (s: nat)
    requires |n.keys| > 1
    ensures s + 1 < |n.keys|
  {
    var count := |n.keys|;
    if ordered then count - 2
    else if count > 16 then
      var lower, upper := count / 2 - count / 16, count / 2;
      var best := CommonSuffix(n, lower, 0);
      if best != CommonSuffix(n, upper - 1, 0) then FirstChange(n, lower + 1, upper, best) else lower
    else (count - 1) / 2
  }

  function FindSeparator(n: Node, ordered: bool): SepInfo
    requires WellFormed(n) && |n.keys| > (if n.leaf then 1 else 0)
  {
    if !n.leaf then SepInfo(|n.keys[|n.keys| / 2]|, |n.keys| / 2, false)
    else
      var s := BestSlot(n, ordered);
      var common := CommonSuffix(n, s, s + 1);
      var p := Prefix(n);
      if |n.keys[s]| - p > common && |n.keys[s + 1]| - p > common + 1 then SepInfo(p + common + 1, s, true)
      else SepInfo(|n.keys[s]|, s, false)
  }

  /** The separator's bytes: the node's prefix, then suffix bytes of the slot or, truncated, of the next one. */
  function GetSep(n: Node, info: SepInfo): Bytes
    requires WellFormed(n)
    requires var s := info.slot + if info.truncated then 1 else 0;
      s < |n.keys| && Prefix(n) <= info.len <= |n.keys[s]|
  {
    var s := info.slot + if info.truncated then 1 else 0;
    n.lo[..Prefix(n)] + n.keys[s][Prefix(n)..info.len]
  }

  lemma SepIsKeyPrefix(n: Node, info: SepInfo)
    requires WellFormed(n)
    requires var s := info.slot + if info.truncated then 1 else 0;
      s < |n.keys| && Prefix(n) <= info.len <= |n.keys[s]|
    ensures GetSep(n, info) == n.keys[info.slot + if info.truncated then 1 else 0][..info.len]
  {
    PrefixCarried(n);
    var k := n.keys[info.slot + if info.truncated then 1 else 0];
    assert k[..Prefix(n)] + k[Prefix(n)..info.len] == k[..info.len];
  }

  lemma SepInRange(n: Node, ordered: bool)
    requires WellFormed(n) && |n.keys| > (if n.leaf then 1 else 0)
    ensures var i := FindSeparator(n, ordered); var s := i.slot + if i.truncated then 1 else 0;
      s < |n.keys| && Prefix(n) <= i.len <= |n.keys[s]| && i.slot < |n.keys|
    ensures var i := FindSeparator(n, ordered); i.len <= |n.keys[i.slot]|
    ensures var i := FindSeparator(n, ordered); i.truncated ==> n.leaf && i.slot + 1 < |n.keys| && i.len < |n.keys[i.slot + 1]|
    ensures var i := FindSeparator(n, ordered); !i.truncated ==> i.len == |n.keys[i.slot]|
    ensures n.leaf ==> FindSeparator(n, ordered).slot + 1 < |n.keys|
  {
    hide Less, Sorted, Common, Within;
    PrefixCarried(n);
    if n.leaf {
      var s := BestSlot(n, ordered);
      CommonAtLeast(n.keys[s], n.keys[s + 1], n.lo[..Prefix(n)]);
    }
  }

  lemma CommonAtLeast(a: Bytes, b: Bytes, p: Bytes)
    requires |p| <= |a| && |p| <= |b| && a[..|p|] == p == b[..|p|]
    ensures Common(a, b) >= |p|
  {
    assert forall i | 0 <= i < |p| :: a[i] == a[..|p|][i] && b[i] == b[..|p|][i];
  }

  function Separator(n: Node, ordered: bool): Bytes
    requires WellFormed(n) && |n.keys| > (if n.leaf then 1 else 0)
  {
    SepInRange(n, ordered);
    GetSep(n, FindSeparator(n, ordered))
  }

  /** Where a page is cut. An inner node is cut in the middle; a leaf filled in order keeps all but its last entry;
      any other small leaf is cut so that the left half has as many entries as the right one, or one more. */
  lemma SlotChosen(n: Node, ordered: bool)
    requires WellFormed(n) && |n.keys| > (if n.leaf then 1 else 0)
    ensures var slot := FindSeparator(n, ordered).slot;
      if !n.leaf then 2 * slot <= |n.keys| <= 2 * slot + 1
      else if ordered then |n.keys| - (slot + 1) == 1
      else |n.keys| <= 16 ==> var left, right := slot + 1, |n.keys| - (slot + 1); right <= left <= right + 1
  {
  }

  /** A large leaf that is not filled in order is cut in the last eighth of its left half, at the place from which on
      keys share something else with the first key. */
  lemma LargeLeafSlot(n: Node)
    requires WellFormed(n) && n.leaf && |n.keys| > 16
    ensures var count, slot := |n.keys|, FindSeparator(n, false).slot;
      var lower, upper := count / 2 - count / 16, count / 2;
      && 0 < lower <= slot <= upper && lower < upper
      && (Common(n.keys[lower], n.keys[0]) == Common(n.keys[upper - 1], n.keys[0]) ==> slot == lower)
      && (Common(n.keys[lower], n.keys[0]) != Common(n.keys[upper - 1], n.keys[0]) ==>
            && slot > lower
            && (forall j | lower <= j < slot :: Common(n.keys[j], n.keys[0]) == Common(n.keys[lower], n.keys[0]))
            && (slot < upper ==> Common(n.keys[slot], n.keys[0]) != Common(n.keys[lower], n.keys[0])))
  {
    var lower, upper := |n.keys| / 2 - |n.keys| / 16, |n.keys| / 2;
    ChangeFound(n, lower, upper);
    hide Common, Sorted, Within, Less, FirstChange, CommonSuffix, Prefix;
  }

  lemma ChangeFound(n: Node, lower: nat, upper: nat)
    requires WellFormed(n) && lower + 1 <= upper < |n.keys|
    ensures CommonSuffix(n, lower, 0) == CommonSuffix(n, upper - 1, 0)
      <==> Common(n.keys[lower], n.keys[0]) == Common(n.keys[upper - 1], n.keys[0])
    ensures var slot := FirstChange(n, lower + 1, upper, CommonSuffix(n, lower, 0));
      && lower < slot <= upper
      && (forall j | lower <= j < slot :: Common(n.keys[j], n.keys[0]) == Common(n.keys[lower], n.keys[0]))
      && (slot < upper ==> Common(n.keys[slot], n.keys[0]) != Common(n.keys[lower], n.keys[0]))
  {
    hide Common, Sorted, Within, Less;
    var slot := FirstChange(n, lower + 1, upper, CommonSuffix(n, lower, 0));
    forall j | lower <= j < slot ensures Common(n.keys[j], n.keys[0]) == Common(n.keys[lower], n.keys[0]) {
      if j > lower { assert CommonSuffix(n, j, 0) == CommonSuffix(n, lower, 0); }
    }
  }

  /** A leaf's separator is cut short exactly when that is possible, and then nothing shorter lies between the two
      keys; otherwise it is the key at the slot. */
  lemma SeparatorShortest(n: Node, ordered: bool, x: Bytes)
    requires WellFormed(n) && n.leaf && |n.keys| > 1
    ensures var info, sep := FindSeparator(n, ordered), Separator(n, ordered);
      && info.slot + 1 < |n.keys|
      && var a, b := n.keys[info.slot], n.keys[info.slot + 1];
         && (info.truncated <==> Common(a, b) < |a| && Common(a, b) + 1 < |b|)
         && (info.truncated ==> |sep| == Common(a, b) + 1 && sep == b[..|sep|])
         && (!info.truncated ==> sep == a)
         && (info.truncated && !Less(x, a) && Less(x, b) ==> |x| >= |sep|)
  {
    hide Sorted, Within, BestSlot, GetSep;
    SepInRange(n, ordered);
    SepIsKeyPrefix(n, FindSeparator(n, ordered));
    var info, sep := FindSeparator(n, ordered), Separator(n, ordered);
    var a, b := n.keys[info.slot], n.keys[info.slot + 1];
    if info.truncated && !Less(x, a) && Less(x, b) && |x| < |sep| { ShortOutside(a, b, x); }
  }

  /** Nothing as short as what two keys share lies between them, the smaller one included. */
  lemma ShortOutside(a: Bytes, b: Bytes, x: Bytes)
    requires |x| <= Common(a, b) < |a|
    ensures Less(x, a) || !Less(x, b)
  {
    LessByCommon(x, a);
    LessByCommon(x, b);
    if Common(x, a) < |x| { CommonUnique(x, b, Common(x, a)); }
  }

  /** The separator lies at or above the key at its slot, below the next key and the upper fence, and
      carries the node's prefix; in an inner node it is the key at its slot. */
  lemma SeparatorCuts(n: Node, ordered: bool)
    requires WellFormed(n) && |n.keys| > (if n.leaf then 1 else 0)
    requires !n.leaf && n.hi != [] ==> Less(n.keys[|n.keys| - 1], n.hi)
    ensures GoodCut(n, FindSeparator(n, ordered).slot, Separator(n, ordered))
    ensures var sep := Separator(n, ordered); Prefix(n) <= |sep| && sep[..Prefix(n)] == n.lo[..Prefix(n)]
  {
    hide Less, Sorted, Within, GoodCut, Common, BestSlot;
    var info, sep := FindSeparator(n, ordered), Separator(n, ordered);
    SepInRange(n, ordered);
    SepIsKeyPrefix(n, info);
    PrefixCarried(n);
    var k := n.keys[info.slot + if info.truncated then 1 else 0];
    assert sep[..Prefix(n)] == k[..Prefix(n)];
    if info.truncated {
      TruncatedCut(n, info.slot, info.len);
    } else {
      assert sep == n.keys[info.slot];
      WholeCut(n, info.slot);
    }
  }

  lemma TruncatedCut(n: Node, s: nat, len: nat)
    requires WellFormed(n) && n.leaf && s + 1 < |n.keys|
    requires Common(n.keys[s], n.keys[s + 1]) < |n.keys[s]|
    requires len == Common(n.keys[s], n.keys[s + 1]) + 1 < |n.keys[s + 1]|
    ensures GoodCut(n, s, n.keys[s + 1][..len])
  {
    hide Less;
    var sep := n.keys[s + 1][..len];
    TruncatedBetween(n.keys[s], n.keys[s + 1], len);
    Chain(sep, n.keys[s + 1], n.hi);
  }

  lemma WholeCut(n: Node, s: nat)
    requires WellFormed(n) && s < |n.keys| && (n.leaf ==> s + 1 < |n.keys|)
    requires !n.leaf && n.hi != [] ==> Less(n.keys[|n.keys| - 1], n.hi)
    ensures GoodCut(n, s, n.keys[s])
  {
    hide Less;
    var last := |n.keys| - 1;
    Trichotomy(n.keys[s], n.keys[s]);
    assert s < last ==> Less(n.keys[s], n.keys[last]);
    Chain(n.keys[s], n.keys[last], n.hi);
  }

  /** One byte past the common prefix of `a < b` gives a key strictly between them. */
  lemma TruncatedBetween(a: Bytes, b: Bytes, len: nat)
    requires Less(a, b) && Common(a, b) < |a| && len == Common(a, b) + 1 < |b|
    ensures Less(a, b[..len]) && Less(b[..len], b) && !Less(b[..len], a)
  {
    LessByCommon(a, b);
    LessAt(a, b[..len], len - 1);
    LessAt(b[..len], b, len);
    Trichotomy(a, b[..len]);
  }

  // ----- splitting -----

  /** Entries that stay in the left half; an inner node's entry at the slot goes to neither half. */
  function Kept(n: Node, slot: nat): nat {
    if n.leaf then slot + 1 else slot
  }

  /** What the entries right of the separator slot occupy. */
  function Moved(n: Node, slot: nat): int
    requires |n.keys| == |n.pays| && slot < |n.keys|
  {
    Bulk(n.keys[slot + 1..], n.pays[slot + 1..], Prefix(n))
  }

  /** Bytes the left half saves because its fences share a longer prefix. */
  function Gain(n: Node, slot: nat, sep: Bytes): int {
    (Common(n.lo, sep) - Prefix(n)) * Kept(n, slot)
  }

  lemma HalvesCarry(n: Node, slot: nat, sep: Bytes)
    requires GoodCut(n, slot, sep)
    ensures Common(n.lo, sep) >= Prefix(n) && Common(sep, n.hi) >= Prefix(n) && |sep| >= Prefix(n)
  {
    hide WellFormed, Less, Common, GoodCut;
    SplitFactsOf(n, slot, sep);
    CutWithin(n, slot, sep);
    KeyCarries(n, sep);
    CommonAtLeast(n.lo, sep, n.lo[..Prefix(n)]);
    PrefixShared(n);
    CommonAtLeast(sep, n.hi, n.lo[..Prefix(n)]);
  }

  lemma PrefixShared(n: Node)
    ensures n.hi[..Prefix(n)] == n.lo[..Prefix(n)]
  {
  }

  lemma GainNonNegative(n: Node, slot: nat, sep: Bytes)
    requires GoodCut(n, slot, sep)
    ensures Gain(n, slot, sep) >= 0 && Common(sep, n.hi) >= Prefix(n) && |sep| >= Prefix(n)
  {
    hide WellFormed, Less, Common, GoodCut, Prefix;
    HalvesCarry(n, slot, sep);
    NonNegative(Common(n.lo, sep) - Prefix(n), Kept(n, slot));
  }

  lemma NonNegative(a: int, b: nat)
    requires a >= 0
    ensures a * b >= 0
  {
  }

  lemma SplitFactsOf(n: Node, slot: nat, sep: Bytes)
    requires GoodCut(n, slot, sep)
    ensures WellFormed(n) && slot < |n.keys| == |n.pays|
  {
    hide Less, Sorted;
  }

  /** The exact size of the left half. */
  lemma LeftSize(n: Node, slot: nat, sep: Bytes, right: Pid)
    requires GoodCut(n, slot, sep)
    ensures Size(SplitLeft(n, slot, sep, right)) ==
      Size(n) + |sep| - |n.hi| - Moved(n, slot) - Gain(n, slot, sep)
      - if n.leaf then 0 else SLOT + |n.keys[slot]| - Prefix(n) + |n.pays[slot]|
  {
    hide WellFormed, GoodCut, Bulk, Common, Less;
    SplitFactsOf(n, slot, sep);
    var c, p := Kept(n, slot), Prefix(n);
    var left := SplitLeft(n, slot, sep, right);
    assert left.keys == n.keys[..c] && left.pays == n.pays[..c] && left.lo == n.lo && left.hi == sep;
    BulkShift(n.keys[..c], n.pays[..c], p, Common(n.lo, sep));
    BulkCut(n.keys, n.pays, c, p);
    BulkAt(n.keys, n.pays, slot, p);
  }

  /** The right half always fits a page: the separator is never longer than the key it follows. */
  lemma RightFits(n: Node, slot: nat, sep: Bytes)
    requires GoodCut(n, slot, sep) && Fits(n) && |sep| <= |n.keys[slot]|
    ensures Fits(SplitRight(n, slot, sep))
  {
    hide WellFormed, GoodCut, Bulk, Gain, Common, Less;
    SplitFactsOf(n, slot, sep);
    var p, q := Prefix(n), Common(sep, n.hi);
    GainNonNegative(n, slot, sep);
    PrefixCarried(n);
    BulkShrinks(n.keys[slot + 1..], n.pays[slot + 1..], p, q);
    BulkCut(n.keys, n.pays, slot, p);
    BulkAt(n.keys, n.pays, slot, p);
    BulkLeast(n.keys[..slot], n.pays[..slot], p);
  }

  /** Bytes of the key at the separator slot that the left half has to repeat as its upper fence. */
  function Suffix(n: Node, slot: nat): int
    requires slot < |n.keys|
  {
    |n.keys[slot]| - Prefix(n)
  }

  /** What is left over for the new upper fence of the left half: the free bytes, what the old fence had
      beyond the prefix, the entries that move right, and a longer prefix. */
  function Slack(n: Node, slot: nat, sep: Bytes): int
    requires |n.keys| == |n.pays| && slot < |n.keys|
  {
    Room(n) + (|n.hi| - Prefix(n)) + Moved(n, slot) + Gain(n, slot, sep)
  }

  /** The left half of a split fits in an inner node and with a truncated separator. With a full key as
      the separator of a leaf it fits if and only if the key's suffix is no longer than the slack. */
  lemma LeftFits(n: Node, ordered: bool, right: Pid)
    requires WellFormed(n) && |n.keys| > (if n.leaf then 1 else 0) && Fits(n)
    requires GoodCut(n, FindSeparator(n, ordered).slot, Separator(n, ordered))
    ensures var i, sep := FindSeparator(n, ordered), Separator(n, ordered);
      Fits(SplitLeft(n, i.slot, sep, right)) <==> !n.leaf || i.truncated || Suffix(n, i.slot) <= Slack(n, i.slot, sep)
  {
    hide Less, Bulk, Gain, Common, GoodCut, FindSeparator, Moved, GetSep, Sorted, Within;
    var i, sep := FindSeparator(n, ordered), Separator(n, ordered);
    SepInRange(n, ordered);
    SepIsKeyPrefix(n, i);
    LeftSize(n, i.slot, sep, right);
    GainNonNegative(n, i.slot, sep);
    PrefixCarried(n);
    MovedLeast(n, i.slot);
  }

  lemma MovedLeast(n: Node, slot: nat)
    requires WellFormed(n) && slot < |n.keys|
    ensures Moved(n, slot) >= 0
    ensures slot + 1 < |n.keys| ==> Moved(n, slot) >= SLOT + |n.keys[slot + 1]| - Prefix(n)
  {
    PrefixCarried(n);
    BulkLeast(n.keys[slot + 1..], n.pays[slot + 1..], Prefix(n));
    if slot + 1 < |n.keys| {
      BulkAt(n.keys, n.pays, slot + 1, Prefix(n));
      BulkLeast(n.keys[slot + 2..], n.pays[slot + 2..], Prefix(n));
    }
  }

  /** It is enough that the suffix is no longer than the entries that move right. */
  lemma LeftFitsWhenMoved(n: Node, ordered: bool, right: Pid)
    requires WellFormed(n) && |n.keys| > (if n.leaf then 1 else 0) && Fits(n)
    requires var i := FindSeparator(n, ordered); GoodCut(n, i.slot, Separator(n, ordered)) && Suffix(n, i.slot) <= Moved(n, i.slot)
    ensures Fits(SplitLeft(n, FindSeparator(n, ordered).slot, Separator(n, ordered), right))
  {
    hide Less, Bulk, Gain, Common, GoodCut, FindSeparator, Moved, GetSep, Sorted, Within, Separator;
    var i, sep := FindSeparator(n, ordered), Separator(n, ordered);
    GainNonNegative(n, i.slot, sep);
    LeftFits(n, ordered, right);
  }

  /** Neighbours between which a separator can be truncated, or of which the smaller key is not much longer. */
  predicate Tame(a: Bytes, b: Bytes) {
    Common(a, b) + 1 < |b| || |a| <= |b| + SLOT
  }

  /** Any two of the keys are tame, the smaller one first. */
  ghost predicate TameKeys(keys: set<Bytes>) {
    forall a, b | a in keys && b in keys && Less(a, b) :: Tame(a, b)
  }

  /** Leaves whose neighbouring keys are tame never overflow when they are split. */
  lemma TameFits(n: Node, ordered: bool, right: Pid)
    requires WellFormed(n) && n.leaf && |n.keys| > 1 && Fits(n)
    requires forall i | 0 <= i < |n.keys| - 1 :: Tame(n.keys[i], n.keys[i + 1])
    ensures Fits(SplitLeft(n, FindSeparator(n, ordered).slot, Separator(n, ordered), right))
  {
    hide Bulk, Gain, Moved, Sorted, Within, BestSlot, GetSep;
    SeparatorCuts(n, ordered);
    SepInRange(n, ordered);
    var s := BestSlot(n, ordered);
    MovedLeast(n, s);
    assert Tame(n.keys[s], n.keys[s + 1]);
    PrefixCarried(n);
    assert n.keys[s] != n.keys[s + 1] by { KeysDiffer(n, s); }
    if FindSeparator(n, ordered).truncated {
      LeftFits(n, ordered, right);
    } else {
      LeftFitsWhenMoved(n, ordered, right);
    }
  }

  lemma KeysDiffer(n: Node, i: nat)
    requires WellFormed(n) && i + 1 < |n.keys|
    ensures n.keys[i] != n.keys[i + 1]
  {
    assert Less(n.keys[i], n.keys[i + 1]);
    Trichotomy(n.keys[i], n.keys[i]);
  }

  /** So do leaves whose keys all have one length. */
  lemma FixedLengthFits(n: Node, ordered: bool, right: Pid, len: nat)
    requires WellFormed(n) && n.leaf && |n.keys| > 1 && Fits(n)
    requires forall i | 0 <= i < |n.keys| :: |n.keys[i]| == len
    ensures Fits(SplitLeft(n, FindSeparator(n, ordered).slot, Separator(n, ordered), right))
  {
    TameFits(n, ordered, right);
  }

  function WideKey(first: Byte): Bytes {
    [first] + seq(63, _ => 0)
  }

  function WidePay(): Bytes {
    seq(915, _ => 0)
  }

  /** Four large entries and three small ones: legal entries of a root leaf. */
  function LopsidedLeaf(): Node {
    Node(true, [], [], [WideKey(1), WideKey(2), WideKey(3), WideKey(4), [10], [11], [12]],
         [WidePay(), WidePay(), WidePay(), WidePay(), [], [], []], NO_NEIGHBOUR)
  }

  lemma LopsidedWellFormed()
    ensures WellFormed(LopsidedLeaf())
  {
    var n := LopsidedLeaf();
    forall i, j | 0 <= i < j < 7 ensures Less(n.keys[i], n.keys[j]) {
      LessAt(n.keys[i], n.keys[j], 0);
    }
  }

  lemma BulkNone()
    ensures Bulk([], [], 0) == 0
  {
  }

  lemma LopsidedSize()
    ensures Size(LopsidedLeaf()) == 4093 && Moved(LopsidedLeaf(), 3) == 33
  {
    LopsidedKeys();
    LopsidedPrefix();
    hide Bulk, WideKey, WidePay, LopsidedLeaf;
    var n := LopsidedLeaf();
    BulkNone();
    assert n.keys[7..] == [] && n.pays[7..] == [];
    assert n.keys[0..] == n.keys && n.pays[0..] == n.pays;
    BulkAt(n.keys, n.pays, 0, 0);
    BulkAt(n.keys, n.pays, 1, 0);
    BulkAt(n.keys, n.pays, 2, 0);
    BulkAt(n.keys, n.pays, 3, 0);
    BulkAt(n.keys, n.pays, 4, 0);
    BulkAt(n.keys, n.pays, 5, 0);
    BulkAt(n.keys, n.pays, 6, 0);
  }

  lemma LopsidedPrefix()
    ensures Prefix(LopsidedLeaf()) == 0 && |LopsidedLeaf().lo| == |LopsidedLeaf().hi| == 0
    ensures |LopsidedLeaf().keys| == |LopsidedLeaf().pays| == 7
    ensures forall i | 4 <= i < 7 :: |LopsidedLeaf().pays[i]| == 0
  {
  }

  /** The left half of a legal leaf can overflow: this leaf fits its page, has no room for a key of
      one byte and is therefore split at its fourth key, whose copy as the upper fence does not fit. */
  lemma LeftCanOverflow(right: Pid)
    ensures var n := LopsidedLeaf();
      && WellFormed(n) && Small(n, SHORT) && Fits(n) && !HasSpaceFor(n, 1, 0)
      && FindSeparator(n, false) == SepInfo(64, 3, false)
      && !Fits(SplitLeft(n, 3, Separator(n, false), right))
  {
    hide Less, Bulk, WideKey, WidePay;
    var n := LopsidedLeaf();
    LopsidedKeys();
    LopsidedWellFormed();
    LopsidedSize();
    LopsidedSep();
    SeparatorCuts(n, false);
    var sep := Separator(n, false);
    NoGain(n, 3, sep);
    LeftFits(n, false, right);
  }

  lemma LopsidedKeys()
    ensures forall i | 0 <= i < 4 :: |LopsidedLeaf().keys[i]| == 64 && |LopsidedLeaf().pays[i]| == 915
    ensures forall i | 4 <= i < 7 :: |LopsidedLeaf().keys[i]| == 1
  {
  }

  lemma LopsidedSep()
    ensures WellFormed(LopsidedLeaf()) && FindSeparator(LopsidedLeaf(), false) == SepInfo(64, 3, false)
  {
    LopsidedWellFormed();
    hide Less, Sorted;
    var n := LopsidedLeaf();
    assert BestSlot(n, false) == 3;
    assert n.keys[3] == WideKey(4) && n.keys[4] == [10];
    CommonUnique(n.keys[3], n.keys[4], 0);
  }

  lemma NoGain(n: Node, slot: nat, sep: Bytes)
    requires n.lo == []
    ensures Gain(n, slot, sep) == 0
  {
  }

  // ----- merging -----

  /** The bound `mergeNodes` computes before it merges. */
  function SpaceUpperBound(l: Node, r: Node): int
    requires |l.keys| == |l.pays| && |r.keys| == |r.pays|
  {
    var p := Common(l.lo, r.hi);
    Used(l) + Used(r) + HEADER + SLOT * (|l.keys| + |r.keys|)
    + (Prefix(l) - p) * |l.keys| + (Prefix(r) - p) * |r.keys|
  }

  /** `spaceUsed`: fences, key suffixes and payloads. */
  function Used(n: Node): int
    requires |n.keys| == |n.pays|
  {
    Size(n) - HEADER - SLOT * |n.keys|
  }

  /** The bound is above the true size by exactly the two fences that disappear. */
  lemma MergeBound(l: Node, r: Node)
    requires |l.keys| == |l.pays| && |r.keys| == |r.pays|
    ensures SpaceUpperBound(l, r) == Size(MergeLeaves(l, r)) + |l.hi| + |r.lo|
  {
    hide Bulk, Common;
    var p := Common(l.lo, r.hi);
    BulkConcat(l.keys, l.pays, r.keys, r.pays, p);
    BulkShift(l.keys, l.pays, Prefix(l), p);
    BulkShift(r.keys, r.pays, Prefix(r), p);
  }

  // ----- room after a split -----

  /** Whatever is compared with a key of at most this length is compared exactly. */
  const SHORT := 64

  /** Keys, fences and entries as short as the tree admits them; `most` bounds the keys. */
  predicate Small(n: Node, most: nat) {
    && |n.lo| <= most && |n.hi| <= most
    && |n.keys| == |n.pays|
    && forall i | 0 <= i < |n.keys| :: |n.keys[i]| <= most && (n.leaf ==> |n.keys[i]| + |n.pays[i]| <= MAX_KV)
         && (!n.leaf ==> |n.pays[i]| == 8)
  }

  /** Nodes with one entry at most have room for another one. */
  lemma OneEntryRoom(n: Node, most: nat, keyLen: nat, payLen: nat)
    requires |n.keys| == |n.pays| <= 1 && Small(n, most) && most <= MAX_KV
    requires n.leaf || |n.keys| == 0 || most <= 989
    requires if n.leaf then keyLen + payLen <= MAX_KV else keyLen <= most && payLen == 8
    ensures HasSpaceFor(n, keyLen, payLen)
  {
    if |n.keys| == 1 { assert Bulk(n.keys, n.pays, Prefix(n)) == SLOT + |n.keys[0]| - Prefix(n) + |n.pays[0]|; }
  }

  /** A leaf without room for a legal entry has at least two entries. */
  lemma FullLeaf(n: Node, keyLen: nat, payLen: nat)
    requires WellFormed(n) && n.leaf && Small(n, MAX_KV) && keyLen + payLen <= MAX_KV
    requires !HasSpaceFor(n, keyLen, payLen)
    ensures |n.keys| >= 2
  {
    if |n.keys| <= 1 { OneEntryRoom(n, MAX_KV, keyLen, payLen); }
  }

  /** With keys of at most 64 bytes, two entries leave room for a third in every leaf. */
  lemma TwoEntryLeafRoom(n: Node, keyLen: nat, payLen: nat)
    requires n.leaf && |n.keys| == |n.pays| <= 2 && Small(n, SHORT) && keyLen + payLen <= MAX_KV
    ensures HasSpaceFor(n, keyLen, payLen)
  {
    assert n.keys[0..] == n.keys && n.pays[0..] == n.pays;
    if |n.keys| > 0 { BulkAt(n.keys, n.pays, 0, Prefix(n)); }
    if |n.keys| > 1 { BulkAt(n.keys, n.pays, 1, Prefix(n)); }
    assert Bulk([], [], Prefix(n)) == 0;
    assert n.keys[|n.keys|..] == [] && n.pays[|n.pays|..] == [];
  }

  /** So such a leaf without room has at least three. */
  lemma FullShortLeaf(n: Node, keyLen: nat, payLen: nat)
    requires WellFormed(n) && n.leaf && Small(n, SHORT) && keyLen + payLen <= MAX_KV
    requires !HasSpaceFor(n, keyLen, payLen)
    ensures |n.keys| >= 3
  {
    if |n.keys| <= 2 { TwoEntryLeafRoom(n, keyLen, payLen); }
  }

  /** Slots that `splitNode` admits. */
  predicate SlotAllowed(slot: nat) {
    0 < slot < PAGE_SIZE / 8
  }

  /** The separator of a leaf with three entries, or an inner node with two, is at an admitted slot. */
  lemma SepSlotAllowed(n: Node, ordered: bool)
    requires WellFormed(n) && Fits(n) && |n.keys| > (if n.leaf then 2 else 1)
    ensures SlotAllowed(FindSeparator(n, ordered).slot)
  {
    hide Less, Sorted, Within, Bulk, CommonSuffix;
    SepInRange(n, ordered);
    PrefixCarried(n);
    BulkLeast(n.keys, n.pays, Prefix(n));
    if n.leaf { BestSlotPositive(n, ordered); }
  }

  lemma BestSlotPositive(n: Node, ordered: bool)
    requires |n.keys| > 2
    ensures BestSlot(n, ordered) > 0
  {
  }

  /** An inner node without room for a separator has an entry, and two if keys have at most 989 bytes. */
  lemma FullInner(n: Node, most: nat, keyLen: nat)
    requires Inner(n) && Small(n, most) && most <= MAX_KV && keyLen <= most
    requires !HasSpaceFor(n, keyLen, 8)
    ensures |n.keys| >= 1 && (most <= 989 ==> |n.keys| >= 2)
  {
    if |n.keys| == 0 || (|n.keys| == 1 && most <= 989) { OneEntryRoom(n, most, keyLen, 8); }
  }

  /** Roots have no fences, so three entries are needed to fill one. */
  lemma TwoEntryRootRoom(n: Node, keyLen: nat, payLen: nat)
    requires |n.keys| == |n.pays| <= 2 && Small(n, MAX_KV) && n.lo == [] && n.hi == []
    requires if n.leaf then keyLen + payLen <= MAX_KV else keyLen <= MAX_KV && payLen == 8
    ensures HasSpaceFor(n, keyLen, payLen)
  {
    assert n.keys[0..] == n.keys && n.pays[0..] == n.pays;
    if |n.keys| > 0 { BulkAt(n.keys, n.pays, 0, 0); }
    if |n.keys| > 1 { BulkAt(n.keys, n.pays, 1, 0); }
    assert Bulk([], [], 0) == 0;
    assert n.keys[|n.keys|..] == [] && n.pays[|n.pays|..] == [];
  }

  /** A root without room has at least three entries. */
  lemma FullRoot(n: Node, keyLen: nat, payLen: nat)
    requires WellFormed(n) && Small(n, MAX_KV) && n.lo == [] && n.hi == []
    requires if n.leaf then keyLen + payLen <= MAX_KV else keyLen <= MAX_KV && payLen == 8
    requires !HasSpaceFor(n, keyLen, payLen)
    ensures |n.keys| >= 3
  {
    if |n.keys| <= 2 { TwoEntryRootRoom(n, keyLen, payLen); }
  }
}
