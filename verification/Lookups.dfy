/** The search of a page as the code makes it, comparisons that read on behind keys included: `behind` is
    what follows the searched key in its buffer, `after` what follows the page in memory. */
module Lookups {
  import opened Keys
  import opened Nodes
  import opened Spaces
  import opened Layouts
  import opened Searches
  import opened Blocks
  import opened Reads

  // ----- the search -----

  /** Memory from a place in the heap on. */
  function From(p: Page, at: nat, after: Bytes): Bytes
    requires Shape(p) && at <= PAGE_SIZE
  {
    p.heap[at..] + after
  }

  predicate Readable(p: Page, after: Bytes) {
    Shape(p) && |after| >= 15
  }

  function PrefixCmp(p: Page, after: Bytes, skey: Bytes, behind: Bytes): int
    requires Readable(p, after) && |behind| >= 15
  {
    Raw(skey + behind, From(p, p.lower.offset, after), Min(|skey|, p.prefixLen))
  }

  function SlotCmp(p: Page, after: Bytes, key: Bytes, behind: Bytes, i: nat): int
    requires Readable(p, after) && |behind| >= 15 && i < |p.slots|
  {
    Raw(key + behind, From(p, p.slots[i].offset, after), Min(|key|, p.slots[i].keyLen))
  }

  /** The first hint from `i` on that is not below `h`, and the first that differs from it. */
  function NotBelow(hint: seq<int>, h: int, i: nat): (r: nat)
    requires i <= |hint|
    ensures i <= r <= |hint|
    decreases |hint| - i
  {
    if i < |hint| && hint[i] < h then NotBelow(hint, h, i + 1) else i
  }

  function Different(hint: seq<int>, h: int, i: nat): (r: nat)
    requires i <= |hint|
    ensures i <= r <= |hint|
    decreases |hint| - i
  {
    if i < |hint| && hint[i] == h then Different(hint, h, i + 1) else i
  }

  /** The range that the hints leave. */
  function Narrow(count: nat, hint: seq<int>, h: int): (r: (nat, nat))
    requires |hint| == HINTS
    ensures r.0 <= r.1 <= count
  {
    if count <= HINTS * 2 then (0, count)
    else
      var dist := count / (HINTS + 1);
      var pos := NotBelow(hint, h, 0);
      var pos2 := Different(hint, h, pos);
      HintRange(count, dist, pos, pos2);
      (pos * dist, if pos2 < HINTS then (pos2 + 1) * dist else count)
  }

  lemma HintRange(count: nat, dist: nat, pos: nat, pos2: nat)
    requires dist == count / 17 && pos <= pos2 <= HINTS
    ensures pos * dist <= count && pos * dist <= (pos2 + 1) * dist && (pos2 < HINTS ==> (pos2 + 1) * dist <= count)
  {
    MulMono(dist, pos, HINTS);
    MulMono(dist, pos, pos2 + 1);
    if pos2 < HINTS { MulMono(dist, pos2 + 1, HINTS); }
  }

  /** The binary search between `lower` and `upper` for a key without the page's prefix. */
  function Bisect(p: Page, after: Bytes, key: Bytes, behind: Bytes, lower: nat, upper: nat): (r: (nat, bool))
    requires Readable(p, after) && |behind| >= 15 && lower <= upper <= |p.slots|
    ensures lower <= r.0 <= upper && (r.1 ==> r.0 < upper)
    decreases upper - lower
  {
    if lower == upper then (lower, false)
    else
      var mid := (upper - lower) / 2 + lower;
      if Head(key) < p.slots[mid].head then Bisect(p, after, key, behind, lower, mid)
      else if Head(key) > p.slots[mid].head then Bisect(p, after, key, behind, mid + 1, upper)
      else
        var cmp := SlotCmp(p, after, key, behind, mid);
        if cmp < 0 then Bisect(p, after, key, behind, lower, mid)
        else if cmp > 0 then Bisect(p, after, key, behind, mid + 1, upper)
        else if |key| < p.slots[mid].keyLen then Bisect(p, after, key, behind, lower, mid)
        else if |key| > p.slots[mid].keyLen then Bisect(p, after, key, behind, mid + 1, upper)
        else (mid, true)
  }

  /** One round of the binary search. */
  lemma BisectStep(p: Page, after: Bytes, key: Bytes, behind: Bytes, lower: nat, upper: nat)
    requires Readable(p, after) && |behind| >= 15 && lower < upper <= |p.slots|
    ensures var mid := (upper - lower) / 2 + lower;
      var cmp := SlotCmp(p, after, key, behind, mid);
      Bisect(p, after, key, behind, lower, upper) ==
        if Head(key) < p.slots[mid].head || (Head(key) == p.slots[mid].head
             && (cmp < 0 || (cmp == 0 && |key| < p.slots[mid].keyLen)))
        then Bisect(p, after, key, behind, lower, mid)
        else if Head(key) > p.slots[mid].head || cmp > 0 || |key| > p.slots[mid].keyLen
        then Bisect(p, after, key, behind, mid + 1, upper)
        else (mid, true)
  {
    hide Head, Raw, From, Shape;
  }

  lemma BisectEnd(p: Page, after: Bytes, key: Bytes, behind: Bytes)
    requires Readable(p, after) && |behind| >= 15
    ensures forall i: nat | i <= |p.slots| :: Bisect(p, after, key, behind, i, i) == (i, false)
  {
    hide Head, Raw, From, Shape;
  }

  /** Slot and found flag of `lowerBound`. */
  function Search(p: Page, hint: seq<int>, after: Bytes, skey: Bytes, behind: Bytes): (r: (nat, bool))
    requires Readable(p, after) && |behind| >= 15 && |hint| == HINTS
    ensures r.0 <= |p.slots|
  {
    var cmp := PrefixCmp(p, after, skey, behind);
    if cmp < 0 then (0, false)
    else if cmp > 0 then (|p.slots|, false)
    else if |skey| < p.prefixLen then (0, false)
    else
      var key := skey[p.prefixLen..];
      var range := Narrow(|p.slots|, hint, Head(key));
      Bisect(p, after, key, behind, range.0, range.1)
  }

  // ----- when it is exact -----

  function Exactly(p: Page, skey: Bytes): (nat, bool)
    requires Laid(p) && WellFormed(View(p))
  {
    (Nodes.LowerBound(View(p).keys, skey), Found(View(p).keys, skey))
  }

  /** Whatever follows the key in its buffer, the search gives the lower bound and the right flag. */
  ghost predicate Exact(p: Page, hint: seq<int>, after: Bytes, skey: Bytes)
    requires Readable(p, after) && |hint| == HINTS && Laid(p) && WellFormed(View(p))
  {
    forall behind: Bytes | |behind| >= 15 :: Search(p, hint, after, skey, behind) == Exactly(p, skey)
  }

  /** The comparison with a slot turns the right way: if it reads on, what the page has behind the compared
      bytes cannot outweigh the lengths. */
  predicate Harmless(p: Page, after: Bytes, key: Bytes, i: nat)
    requires Readable(p, after) && i < |p.slots|
  {
    var n, y := Min(|key|, p.slots[i].keyLen), From(p, p.slots[i].offset, after);
    OverReads(n) && key[..n] == SuffixAt(p, i)[..n] ==>
      (|key| <= p.slots[i].keyLen ==> !Rises(key, y, n)) && (|key| >= p.slots[i].keyLen ==> !Falls(key, y, n))
  }

  /** All comparisons on the way of the binary search are harmless. */
  predicate WayHarmless(p: Page, after: Bytes, key: Bytes, lower: nat, upper: nat)
    requires Readable(p, after) && lower <= upper <= |p.slots|
    decreases upper - lower
  {
    if lower == upper then true
    else
      var mid := (upper - lower) / 2 + lower;
      if Head(key) < p.slots[mid].head then WayHarmless(p, after, key, lower, mid)
      else if Head(key) > p.slots[mid].head then WayHarmless(p, after, key, mid + 1, upper)
      else
        && Harmless(p, after, key, mid)
        && (Less(key, SuffixAt(p, mid)) ==> WayHarmless(p, after, key, lower, mid))
        && (Less(SuffixAt(p, mid), key) ==> WayHarmless(p, after, key, mid + 1, upper))
  }

  /** The comparison with the prefix does not stop the search, or stops it where it would have ended. */
  predicate PrefixHarmless(p: Page, after: Bytes, skey: Bytes)
    requires Readable(p, after)
  {
    var n, y, keys := Min(|skey|, p.prefixLen), From(p, p.lower.offset, after), View(p).keys;
    OverReads(n) && skey[..n] == Lo(p)[..n] ==>
      && (Falls(skey, y, n) ==> forall i | 0 <= i < |keys| :: Less(skey, keys[i]))
      && (Rises(skey, y, n) ==> forall i | 0 <= i < |keys| :: Less(keys[i], skey))
  }

  /** The binary search begins: the key goes on like the memory behind the prefix as far as that is read. */
  predicate PassesPrefix(p: Page, after: Bytes, skey: Bytes)
    requires Readable(p, after)
  {
    HasPrefix(p, skey) && ReadEnd(p.prefixLen) <= |skey|
    && skey[..ReadEnd(p.prefixLen)] == From(p, p.lower.offset, after)[..ReadEnd(p.prefixLen)]
  }

  predicate SearchHarmless(p: Page, hint: seq<int>, after: Bytes, skey: Bytes)
    requires Readable(p, after) && |hint| == HINTS
  {
    && PrefixHarmless(p, after, skey)
    && (PassesPrefix(p, after, skey) ==>
        var key := skey[p.prefixLen..];
        var range := Narrow(|p.slots|, hint, Head(key));
        WayHarmless(p, after, key, range.0, range.1))
  }

  // ----- comparisons with a slot -----

  lemma SlotMemory(p: Page, after: Bytes, i: nat, n: nat)
    requires Laid(p) && Readable(p, after) && i < |p.slots| && n <= p.slots[i].keyLen
    ensures |SuffixAt(p, i)| == p.slots[i].keyLen && p.slots[i].offset + p.slots[i].keyLen <= PAGE_SIZE == |p.heap|
    ensures From(p, p.slots[i].offset, after)[..n] == SuffixAt(p, i)[..n]
  {
    hide RangesApart, HeadsFit, Accounted;
    assert InHeap(p, p.slots[i].offset, p.slots[i].keyLen + p.slots[i].payLen);
  }

  /** A harmless comparison turns the search the way the order says. */
  lemma HarmlessTurns(p: Page, after: Bytes, key: Bytes, behind: Bytes, i: nat)
    requires Laid(p) && Readable(p, after) && i < |p.slots| && |behind| >= 15
    requires Harmless(p, after, key, i)
    ensures |SuffixAt(p, i)| == p.slots[i].keyLen
    ensures var cmp, s := SlotCmp(p, after, key, behind, i), SuffixAt(p, i);
      && (Less(key, s) ==> cmp < 0 || (cmp == 0 && |key| < |s|))
      && (Less(s, key) ==> cmp > 0 || (cmp == 0 && |key| > |s|))
      && (key == s ==> cmp == 0)
  {
    hide Laid, Shape, OverReads, Less, Diff, Falls, Rises;
    var n := Min(|key|, p.slots[i].keyLen);
    SlotMemory(p, after, i, n);
    var x, y, s := key + behind, From(p, p.slots[i].offset, after), SuffixAt(p, i);
    assert x[..n] == key[..n];
    RawMeans(x, y, n);
    RawRange(key, behind, y, n);
    DiffDecides(key, s);
    DiffZero(key[..n], s[..n]);
    Opposite(key, s);
  }

  /** At most one of the three. */
  lemma Opposite(a: Bytes, b: Bytes)
    ensures Less(a, b) ==> !Less(b, a) && a != b
  {
    Trichotomy(a, b);
    Trichotomy(b, b);
  }

  /** Equal heads and an unharmful comparison: what one step of the binary search does. */
  lemma {:induction false} WayRight(p: Page, after: Bytes, skey: Bytes, behind: Bytes, lower: nat, upper: nat)
    requires Laid(p) && WellFormed(View(p)) && Readable(p, after) && |behind| >= 15 && HasPrefix(p, skey)
    requires lower <= upper <= |p.slots| && Bracket(View(p).keys, skey, lower, upper)
    requires WayHarmless(p, after, skey[p.prefixLen..], lower, upper)
    ensures Bisect(p, after, skey[p.prefixLen..], behind, lower, upper) == Exactly(p, skey)
    decreases upper - lower
  {
    hide Laid, WellFormed, View, Shape, Less, Head, SlotCmp, Harmless, Bracket, Lo, Nodes.LowerBound, Found;
    SortedView(p);
    var keys, key := View(p).keys, skey[p.prefixLen..];
    if lower == upper {
      BracketClosed(keys, skey, lower);
    } else {
      var mid := (upper - lower) / 2 + lower;
      Turns(p, skey, lower, upper, mid);
      if Head(key) < p.slots[mid].head {
        WayRight(p, after, skey, behind, lower, mid);
      } else if Head(key) > p.slots[mid].head {
        WayRight(p, after, skey, behind, mid + 1, upper);
      } else {
        HarmlessTurns(p, after, key, behind, mid);
        Trichotomy(key, SuffixAt(p, mid));
        if Less(key, SuffixAt(p, mid)) {
          WayRight(p, after, skey, behind, lower, mid);
        } else if Less(SuffixAt(p, mid), key) {
          WayRight(p, after, skey, behind, mid + 1, upper);
        }
      }
    }
  }

  lemma SortedView(p: Page)
    requires Laid(p) && WellFormed(View(p))
    ensures Shape(p) && Sorted(View(p).keys) && |View(p).keys| == |p.slots|
  {
    hide Sorted;
  }

  /** How the bracket shrinks at slot `mid`, by heads or by suffixes. */
  lemma Turns(p: Page, skey: Bytes, lower: nat, upper: nat, mid: nat)
    requires Laid(p) && WellFormed(View(p)) && HasPrefix(p, skey) && lower <= mid < upper <= |p.slots|
    requires Bracket(View(p).keys, skey, lower, upper)
    ensures var keys, key := View(p).keys, skey[p.prefixLen..];
      && |keys| == |p.slots|
      && (Head(key) < p.slots[mid].head || Less(key, SuffixAt(p, mid)) ==> Bracket(keys, skey, lower, mid))
      && (Head(key) > p.slots[mid].head || Less(SuffixAt(p, mid), key) ==> Bracket(keys, skey, mid + 1, upper))
      && (key == SuffixAt(p, mid) ==> Nodes.LowerBound(keys, skey) == mid && Found(keys, skey))
  {
    hide Laid, WellFormed, View, Shape, Less, Head, Bracket, Lo, Nodes.LowerBound, Found, SuffixAt;
    SortedView(p);
    var keys, key := View(p).keys, skey[p.prefixLen..];
    HeadDecides(p, skey, mid);
    SuffixOrder(p, skey, mid);
    if Less(skey, keys[mid]) { BracketLeft(keys, skey, lower, upper, mid); }
    if Less(keys[mid], skey) { BracketRight(keys, skey, lower, upper, mid); }
    if key == SuffixAt(p, mid) { BracketHit(keys, skey, mid); }
  }

  /** A comparison that can go wrong makes the search go wrong, for some bytes behind the key. */
  lemma HarmlessNeeded(p: Page, after: Bytes, skey: Bytes, lower: nat, upper: nat)
    requires Laid(p) && WellFormed(View(p)) && Readable(p, after) && HasPrefix(p, skey)
    requires lower < upper <= |p.slots| && Bracket(View(p).keys, skey, lower, upper)
    requires Head(skey[p.prefixLen..]) == p.slots[(upper - lower) / 2 + lower].head
    requires Bisect(p, after, skey[p.prefixLen..], Zeros(), lower, upper) == Exactly(p, skey)
    requires Bisect(p, after, skey[p.prefixLen..], Highs(), lower, upper) == Exactly(p, skey)
    ensures Harmless(p, after, skey[p.prefixLen..], (upper - lower) / 2 + lower)
  {
    hide Laid, WellFormed, View, Shape, Less, Head, Bracket, Lo, Nodes.LowerBound, Found, OverReads, Raw;
    var mid, keys, key := (upper - lower) / 2 + lower, View(p).keys, skey[p.prefixLen..];
    SortedView(p);
    Turns(p, skey, lower, upper, mid);
    var n := Min(|key|, p.slots[mid].keyLen);
    SlotMemory(p, after, mid, n);
    var s := SuffixAt(p, mid);
    if key[..n] == s[..n] {
      PrefixLess(key, s);
      if Less(key, s) { BracketAt(keys, skey, lower, mid); }
      if Less(s, key) { BracketAt(keys, skey, mid + 1, upper); }
    }
  }

  lemma PrefixLess(a: Bytes, b: Bytes)
    requires var n := Min(|a|, |b|); a[..n] == b[..n]
    ensures |a| < |b| ==> Less(a, b)
    ensures |a| > |b| ==> Less(b, a)
    ensures |a| == |b| ==> a == b
  {
    var n := Min(|a|, |b|);
    DiffZero(a[..n], b[..n]);
    DiffDecides(a, b);
  }

  lemma BracketAt(keys: seq<Bytes>, key: Bytes, lower: nat, upper: nat)
    requires Sorted(keys) && Bracket(keys, key, lower, upper)
    ensures lower <= Nodes.LowerBound(keys, key) <= upper
    ensures Found(keys, key) ==> Nodes.LowerBound(keys, key) < upper
  {
    var at := Nodes.LowerBound(keys, key);
    if lower > 0 { assert Less(keys[lower - 1], key); }
    if upper < |keys| { Opposite(key, keys[upper]); }
  }

  lemma {:induction false} WayNeeded(p: Page, after: Bytes, skey: Bytes, lower: nat, upper: nat)
    requires Laid(p) && WellFormed(View(p)) && Readable(p, after) && HasPrefix(p, skey)
    requires lower <= upper <= |p.slots| && Bracket(View(p).keys, skey, lower, upper)
    requires forall behind: Bytes | |behind| >= 15 ::
      Bisect(p, after, skey[p.prefixLen..], behind, lower, upper) == Exactly(p, skey)
    ensures WayHarmless(p, after, skey[p.prefixLen..], lower, upper)
    decreases upper - lower
  {
    hide Laid, WellFormed, View, Shape, Less, Head, SlotCmp, Harmless, Bracket, Lo, Nodes.LowerBound, Found;
    if lower < upper {
      var mid, key := (upper - lower) / 2 + lower, skey[p.prefixLen..];
      Turns(p, skey, lower, upper, mid);
      if Head(key) < p.slots[mid].head {
        WayNeeded(p, after, skey, lower, mid);
      } else if Head(key) > p.slots[mid].head {
        WayNeeded(p, after, skey, mid + 1, upper);
      } else {
        HarmlessNeeded(p, after, skey, lower, upper);
        forall behind: Bytes | |behind| >= 15
          ensures Less(key, SuffixAt(p, mid)) ==> Bisect(p, after, key, behind, lower, mid) == Exactly(p, skey)
          ensures Less(SuffixAt(p, mid), key) ==> Bisect(p, after, key, behind, mid + 1, upper) == Exactly(p, skey)
        {
          HarmlessTurns(p, after, key, behind, mid);
        }
        if Less(key, SuffixAt(p, mid)) { WayNeeded(p, after, skey, lower, mid); }
        if Less(SuffixAt(p, mid), key) { WayNeeded(p, after, skey, mid + 1, upper); }
      }
    }
  }

  // ----- the whole search -----

  lemma LowerMemory(p: Page, after: Bytes, n: nat)
    requires Laid(p) && Readable(p, after) && n <= p.prefixLen
    ensures p.prefixLen <= |Lo(p)| && p.lower.offset + p.prefixLen <= PAGE_SIZE == |p.heap|
    ensures From(p, p.lower.offset, after)[..n] == Lo(p)[..n]
  {
    hide RangesApart, HeadsFit, Accounted;
  }

  /** The range that the hints leave contains the lower bound. */
  lemma NarrowRight(p: Page, hint: seq<int>, skey: Bytes)
    requires Laid(p) && WellFormed(View(p)) && HintsFit(p.slots, hint) && HasPrefix(p, skey)
    ensures var range := Narrow(|p.slots|, hint, Head(skey[p.prefixLen..])); Bracket(View(p).keys, skey, range.0,
        range.1)
  {
    hide Laid, WellFormed, View, Shape, Less, Head, Bracket, Lo, HintAt;
    SortedView(p);
    BracketWhole(View(p).keys, skey);
    if |p.slots| > HINTS * 2 {
      var h := Head(skey[p.prefixLen..]);
      var pos := NotBelow(hint, h, 0);
      var pos2 := Different(hint, h, pos);
      NotBelowMeans(hint, h, 0);
      DifferentMeans(hint, h, pos);
      if pos < pos2 < HINTS { HintsAscend(p, hint, pos2 - 1, pos2); }
      HintBracket(p, hint, skey, pos, pos2);
    }
  }

  lemma {:induction false} NotBelowMeans(hint: seq<int>, h: int, i: nat)
    requires i <= |hint|
    ensures var r := NotBelow(hint, h, i); (r > i ==> hint[r - 1] < h) && (r < |hint| ==> hint[r] >= h)
    decreases |hint| - i
  {
    if i < |hint| && hint[i] < h { NotBelowMeans(hint, h, i + 1); }
  }

  lemma {:induction false} DifferentMeans(hint: seq<int>, h: int, i: nat)
    requires i <= |hint|
    ensures var r := Different(hint, h, i); (r > i ==> hint[r - 1] == h) && (r < |hint| ==> hint[r] != h)
    decreases |hint| - i
  {
    if i < |hint| && hint[i] == h { DifferentMeans(hint, h, i + 1); }
  }

  /** What the comparison with the prefix yields, and what that says about the lower bound. */
  lemma PrefixMeans(p: Page, after: Bytes, skey: Bytes, behind: Bytes)
    requires Laid(p) && WellFormed(View(p)) && Readable(p, after) && |behind| >= 15
    ensures p.prefixLen <= |Lo(p)| && p.lower.offset + p.prefixLen <= PAGE_SIZE == |p.heap|
    ensures var n, cmp := Min(|skey|, p.prefixLen), PrefixCmp(p, after, skey, behind);
      && (cmp == 0 <==> (skey + behind)[..ReadEnd(n)] == From(p, p.lower.offset, after)[..ReadEnd(n)])
      && (cmp == 0 ==> skey[..n] == Lo(p)[..n])
      && (cmp != 0 && !(OverReads(n) && skey[..n] == Lo(p)[..n])
          ==> Exactly(p, skey) == (if cmp < 0 then 0 else |p.slots|, false))
      && (!OverReads(n) && skey[..n] == Lo(p)[..n] ==> cmp == 0)
  {
    hide Laid, WellFormed, View, Shape, Less, Bracket, Lo, Nodes.LowerBound, Found, OverReads, Diff;
    SortedView(p);
    var n := Min(|skey|, p.prefixLen);
    LowerMemory(p, after, n);
    var x, y := skey + behind, From(p, p.lower.offset, after);
    assert x[..n] == skey[..n];
    RawMeans(x, y, n);
    PrefixDecides(p, skey);
    DiffZero(skey[..n], Lo(p)[..n]);
    var d := Diff(skey[..n], Lo(p)[..n]);
    if d < 0 { BracketClosed(View(p).keys, skey, 0); }
    if d > 0 { BracketClosed(View(p).keys, skey, |p.slots|); }
  }

  /** Keys shorter than the prefix, when they are its start, lie before the whole page. */
  lemma ShorterMeans(p: Page, skey: Bytes)
    requires Laid(p) && WellFormed(View(p)) && |skey| < p.prefixLen <= |Lo(p)| && skey == Lo(p)[..|skey|]
    ensures Exactly(p, skey) == (0, false)
  {
    hide Laid, WellFormed, View, Shape, Less, Bracket, Lo, Nodes.LowerBound, Found;
    SortedView(p);
    PrefixDecides(p, skey);
    DiffZero(skey[..|skey|], Lo(p)[..|skey|]);
    assert skey[..|skey|] == skey;
    BracketClosed(View(p).keys, skey, 0);
  }

  /** With a rest of fewer than 16 bytes no comparison with a slot reads on. */
  lemma {:induction false} ShortWay(p: Page, after: Bytes, key: Bytes, lower: nat, upper: nat)
    requires Readable(p, after) && lower <= upper <= |p.slots| && |key| < 16
    ensures WayHarmless(p, after, key, lower, upper)
    decreases upper - lower
  {
    hide Shape, Less, Head, Falls, Rises;
    if lower < upper {
      var mid := (upper - lower) / 2 + lower;
      ShortWay(p, after, key, lower, mid);
      ShortWay(p, after, key, mid + 1, upper);
    }
  }

  /** The search is exact whatever is behind the key if and only if every comparison it makes is harmless. */
  lemma ExactIffHarmless(p: Page, hint: seq<int>, after: Bytes, skey: Bytes)
    requires Laid(p) && WellFormed(View(p)) && HintsFit(p.slots, hint) && |hint| == HINTS && Readable(p, after)
    ensures Exact(p, hint, after, skey) <==> SearchHarmless(p, hint, after, skey)
  {
    hide Laid, WellFormed, View, Exactly, SearchHarmless, Search;
    if SearchHarmless(p, hint, after, skey) {
      forall behind: Bytes | |behind| >= 15 ensures Search(p, hint, after, skey, behind) == Exactly(p, skey) {
        HarmlessExact(p, hint, after, skey, behind);
      }
    }
    if Exact(p, hint, after, skey) { ExactHarmless(p, hint, after, skey); }
  }

  lemma HarmlessExact(p: Page, hint: seq<int>, after: Bytes, skey: Bytes, behind: Bytes)
    requires Laid(p) && WellFormed(View(p)) && HintsFit(p.slots, hint) && |hint| == HINTS && Readable(p, after)
    requires |behind| >= 15
    requires SearchHarmless(p, hint, after, skey)
    ensures Search(p, hint, after, skey, behind) == Exactly(p, skey)
  {
    hide Laid, WellFormed, View, Shape, Less, Lo, Exactly, OverReads, Raw, Bisect, WayHarmless, Narrow, Head, HintsFit;
    PrefixMeans(p, after, skey, behind);
    var n, y := Min(|skey|, p.prefixLen), From(p, p.lower.offset, after);
    RawRange(skey, behind, y, n);
    StoppedRight(p, skey);
    var cmp := PrefixCmp(p, after, skey, behind);
    if cmp == 0 && |skey| < p.prefixLen {
      ShorterMeans(p, skey);
    } else if cmp == 0 {
      assert HasPrefix(p, skey);
      var key := skey[p.prefixLen..];
      var range := Narrow(|p.slots|, hint, Head(key));
      if ReadEnd(p.prefixLen) <= |skey| {
        assert (skey + behind)[..ReadEnd(n)] == skey[..ReadEnd(n)];
      } else {
        ShortWay(p, after, key, range.0, range.1);
      }
      NarrowRight(p, hint, skey);
      WayRight(p, after, skey, behind, range.0, range.1);
    }
  }

  /** Stopping at once is right for keys before or behind the whole page. */
  lemma StoppedRight(p: Page, skey: Bytes)
    requires Laid(p) && WellFormed(View(p))
    ensures |View(p).keys| == |p.slots|
    ensures (forall i | 0 <= i < |View(p).keys| :: Less(skey, View(p).keys[i])) <==> Exactly(p, skey) == (0, false)
    ensures (forall i | 0 <= i < |View(p).keys| :: Less(View(p).keys[i], skey))
        <==> Exactly(p, skey) == (|p.slots|, false)
  {
    hide Laid, WellFormed, View, Shape;
    SortedView(p);
    BeforeAll(View(p).keys, skey);
    BehindAll(View(p).keys, skey);
  }

  lemma BeforeAll(keys: seq<Bytes>, key: Bytes)
    requires Sorted(keys)
    ensures (forall i | 0 <= i < |keys| :: Less(key, keys[i])) <==> Nodes.LowerBound(keys, key) == 0 && !Found(keys, key)
  {
    forall i | 0 <= i < |keys| ensures Nodes.LowerBound(keys, key) == 0 && !Found(keys, key) ==> Less(key, keys[i]) {
      Trichotomy(key, keys[0]);
      if i > 0 { Chain(key, keys[0], keys[i]); }
    }
    if forall i | 0 <= i < |keys| :: Less(key, keys[i]) { BracketClosed(keys, key, 0); }
  }

  lemma BehindAll(keys: seq<Bytes>, key: Bytes)
    requires Sorted(keys)
    ensures (forall i | 0 <= i < |keys| :: Less(keys[i], key)) <==> Nodes.LowerBound(keys, key) == |keys| && !Found(keys, key)
  {
    if forall i | 0 <= i < |keys| :: Less(keys[i], key) { BracketClosed(keys, key, |keys|); }
  }

  lemma ExactHarmless(p: Page, hint: seq<int>, after: Bytes, skey: Bytes)
    requires Laid(p) && WellFormed(View(p)) && HintsFit(p.slots, hint) && |hint| == HINTS && Readable(p, after)
    requires Exact(p, hint, after, skey)
    ensures SearchHarmless(p, hint, after, skey)
  {
    hide Laid, WellFormed, View, Shape, Less, Lo, Exactly, OverReads, Raw, Bisect, WayHarmless, Narrow, Head, HintsFit;
    PrefixMeans(p, after, skey, Zeros());
    PrefixMeans(p, after, skey, Highs());
    assert Search(p, hint, after, skey, Zeros()) == Exactly(p, skey);
    assert Search(p, hint, after, skey, Highs()) == Exactly(p, skey);
    StoppedRight(p, skey);
    assert PrefixHarmless(p, after, skey);
    if PassesPrefix(p, after, skey) {
      var key := skey[p.prefixLen..];
      var range := Narrow(|p.slots|, hint, Head(key));
      NarrowRight(p, hint, skey);
      forall behind: Bytes | |behind| >= 15
        ensures Bisect(p, after, key, behind, range.0, range.1) == Exactly(p, skey)
      {
        PrefixMeans(p, after, skey, behind);
        assert (skey + behind)[..ReadEnd(p.prefixLen)] == skey[..ReadEnd(p.prefixLen)];
        assert Search(p, hint, after, skey, behind) == Exactly(p, skey);
      }
      WayNeeded(p, after, skey, range.0, range.1);
    }
  }

  /** Clear comparisons are harmless. */
  lemma ClearHarmless(p: Page, hint: seq<int>, after: Bytes, skey: Bytes)
    requires Laid(p) && WellFormed(View(p)) && Readable(p, after) && |hint| == HINTS && Searchable(View(p), skey)
    ensures SearchHarmless(p, hint, after, skey)
  {
    hide Laid, WellFormed, View, Shape, OverReads, WayHarmless, Narrow, Head, Searchable, Lo, Falls, Rises;
    PrefixClear(p, skey);
    if PassesPrefix(p, after, skey) {
      var key := skey[p.prefixLen..];
      var range := Narrow(|p.slots|, hint, Head(key));
      ClearWay(p, after, skey, range.0, range.1);
    }
  }

  lemma PrefixClear(p: Page, key: Bytes)
    requires Laid(p)
    ensures Shape(p) && p.prefixLen <= |Lo(p)|
    ensures var m := Min(|key|, p.prefixLen);
      Searchable(View(p), key) && OverReads(m) ==> key[..m] != Lo(p)[..m]
  {
    hide OverReads, RangesApart, HeadsFit;
    ShapeFacts(p);
    var m := Min(|key|, p.prefixLen);
    assert Lo(p)[..p.prefixLen][..m] == Lo(p)[..m];
  }

  lemma SuffixClear(p: Page, key: Bytes, i: nat)
    requires Laid(p) && Shape(p) && Searchable(View(p), key) && p.prefixLen <= |key| && i < |p.slots|
    ensures var k, s := key[p.prefixLen..], SuffixAt(p, i);
      var m := Min(|k|, |s|); OverReads(m) ==> k[..m] != s[..m]
  {
    hide OverReads, RangesApart, HeadsFit, SuffixAt, Lo;
    ShapeFacts(p);
    assert View(p).keys[i] == KeyAt(p, i);
    assert SlotClear(View(p), key, i);
    assert KeyAt(p, i)[p.prefixLen..] == SuffixAt(p, i);
  }

  lemma {:induction false} ClearWay(p: Page, after: Bytes, skey: Bytes, lower: nat, upper: nat)
    requires Laid(p) && WellFormed(View(p)) && Readable(p, after) && p.prefixLen <= |skey|
    requires Searchable(View(p), skey) && lower <= upper <= |p.slots|
    ensures WayHarmless(p, after, skey[p.prefixLen..], lower, upper)
    decreases upper - lower
  {
    hide Laid, WellFormed, View, Shape, Less, Head, Falls, Rises, OverReads, Searchable, SuffixAt;
    if lower < upper {
      var mid := (upper - lower) / 2 + lower;
      SuffixClear(p, skey, mid);
      SlotMemory(p, after, mid, p.slots[mid].keyLen);
      ClearWay(p, after, skey, lower, mid);
      ClearWay(p, after, skey, mid + 1, upper);
    }
  }

  // ----- the keys of a page -----

  /** For a stored key, harmless means: no stored suffix has a length for which the comparison reads on, and if
      the prefix has, then every key goes on like the memory behind the prefix as far as that is read. */
  predicate ReadsFit(p: Page, after: Bytes)
    requires Readable(p, after)
  {
    && (forall i | 0 <= i < |p.slots| :: !OverReads(p.slots[i].keyLen))
    && (OverReads(p.prefixLen) ==> forall i | 0 <= i < |p.slots| :: PassesPrefix(p, after, View(p).keys[i]))
  }

  /** Every stored key is found at its slot, whatever follows it in the caller's buffer. */
  ghost predicate AllFound(p: Page, hint: seq<int>, after: Bytes)
    requires Readable(p, after) && |hint| == HINTS
  {
    forall i, behind: Bytes {:trigger Search(p, hint, after, View(p).keys[i], behind)} |
      0 <= i < |p.slots| && |behind| >= 15 :: Search(p, hint, after, View(p).keys[i], behind) == (i, true)
  }

  lemma {:induction false} WayByLengths(p: Page, after: Bytes, key: Bytes, lower: nat, upper: nat)
    requires Readable(p, after) && lower <= upper <= |p.slots| && !OverReads(|key|)
    requires forall i | 0 <= i < |p.slots| :: !OverReads(p.slots[i].keyLen)
    ensures WayHarmless(p, after, key, lower, upper)
    decreases upper - lower
  {
    hide Shape, Less, Head, Falls, Rises, OverReads;
    if lower < upper {
      var mid := (upper - lower) / 2 + lower;
      WayByLengths(p, after, key, lower, mid);
      WayByLengths(p, after, key, mid + 1, upper);
    }
  }

  /** A stored key, its slot and its suffix. */
  lemma StoredKey(p: Page, i: nat)
    requires Laid(p) && WellFormed(View(p)) && i < |p.slots|
    ensures |View(p).keys| == |p.slots| && Exactly(p, View(p).keys[i]) == (i, true)
    ensures HasPrefix(p, View(p).keys[i]) && View(p).keys[i][p.prefixLen..] == SuffixAt(p, i)
    ensures |SuffixAt(p, i)| == p.slots[i].keyLen && |View(p).keys[i]| == p.prefixLen + p.slots[i].keyLen
  {
    hide RangesApart, HeadsFit, Accounted, Less;
    ShapeFacts(p);
    var key := View(p).keys[i];
    assert key == KeyAt(p, i);
    BracketHit(View(p).keys, key, i);
  }

  lemma FitFound(p: Page, hint: seq<int>, after: Bytes, i: nat)
    requires Laid(p) && WellFormed(View(p)) && HintsFit(p.slots, hint) && |hint| == HINTS && Readable(p, after)
    requires ReadsFit(p, after) && i < |p.slots|
    ensures |View(p).keys| == |p.slots| && SearchHarmless(p, hint, after, View(p).keys[i])
  {
    hide Laid, WellFormed, View, Shape, Less, Lo, Exactly, OverReads, WayHarmless, Narrow, Head, HintsFit, SuffixAt;
    StoredKey(p, i);
    var skey := View(p).keys[i];
    var range := Narrow(|p.slots|, hint, Head(skey[p.prefixLen..]));
    WayByLengths(p, after, skey[p.prefixLen..], range.0, range.1);
    if OverReads(p.prefixLen) {
      LowerMemory(p, after, p.prefixLen);
      PassingNeither(skey, From(p, p.lower.offset, after), p.prefixLen);
    }
  }

  lemma PassingNeither(x: Bytes, y: Bytes, n: nat)
    requires n <= |x| && ReadEnd(n) <= |y| && ReadEnd(n) <= |x| && x[..ReadEnd(n)] == y[..ReadEnd(n)]
    ensures !Falls(x, y, n) && !Rises(x, y, n)
  {
    hide OverReads;
    assert (x + Zeros())[..ReadEnd(n)] == x[..ReadEnd(n)] == (x + Highs())[..ReadEnd(n)];
    DiffSame(x[..ReadEnd(n)], y[..ReadEnd(n)]);
  }

  /** A key is reported as found only if the comparison with its slot, all it reads included, found no difference. */
  lemma {:induction false} FoundMeans(p: Page, after: Bytes, key: Bytes, behind: Bytes, lower: nat, upper: nat)
    requires Readable(p, after) && |behind| >= 15 && lower <= upper <= |p.slots|
    ensures var r := Bisect(p, after, key, behind, lower, upper);
      r.1 ==> r.0 < |p.slots| && SlotCmp(p, after, key, behind, r.0) == 0
    decreases upper - lower
  {
    hide Shape, Head, SlotCmp;
    if lower < upper {
      var mid := (upper - lower) / 2 + lower;
      FoundMeans(p, after, key, behind, lower, mid);
      FoundMeans(p, after, key, behind, mid + 1, upper);
    }
  }

  lemma FoundFits(p: Page, hint: seq<int>, after: Bytes, i: nat)
    requires Laid(p) && WellFormed(View(p)) && |hint| == HINTS && Readable(p, after) && i < |p.slots|
    requires |View(p).keys| == |p.slots|
    requires Search(p, hint, after, View(p).keys[i], Zeros()) == (i, true)
    requires Search(p, hint, after, View(p).keys[i], Highs()) == (i, true)
    ensures !OverReads(p.slots[i].keyLen)
    ensures OverReads(p.prefixLen) ==> PassesPrefix(p, after, View(p).keys[i])
  {
    hide Laid, WellFormed, View, Shape, Less, Lo, Exactly, OverReads, Raw, Bisect, SlotCmp, Narrow, Head, SuffixAt;
    StoredKey(p, i);
    var skey := View(p).keys[i];
    var key := skey[p.prefixLen..];
    var range := Narrow(|p.slots|, hint, Head(key));
    FoundMeans(p, after, key, Zeros(), range.0, range.1);
    FoundMeans(p, after, key, Highs(), range.0, range.1);
    SlotTie(p, after, i);
    PrefixMeans(p, after, skey, Zeros());
    PrefixMeans(p, after, skey, Highs());
    BothPass(skey, From(p, p.lower.offset, after), ReadEnd(p.prefixLen));
  }

  /** If the comparison with its own slot is zero with either bytes behind, it does not read on. */
  lemma SlotTie(p: Page, after: Bytes, i: nat)
    requires Laid(p) && WellFormed(View(p)) && Readable(p, after) && i < |p.slots|
    requires SlotCmp(p, after, SuffixAt(p, i), Zeros(), i) == 0 && SlotCmp(p, after, SuffixAt(p, i), Highs(), i) == 0
    ensures !OverReads(p.slots[i].keyLen)
  {
    hide Laid, WellFormed, View, Shape, OverReads, Raw, SuffixAt;
    SlotMemory(p, after, i, p.slots[i].keyLen);
    var s := SuffixAt(p, i);
    assert s[..|s|] == s;
    if OverReads(p.slots[i].keyLen) { FallsOrRises(s, From(p, p.slots[i].offset, after), |s|); }
  }

  lemma BothPass(x: Bytes, y: Bytes, e: nat)
    requires e <= |x| + 15 && e <= |y|
    requires (x + Zeros())[..e] == y[..e] && (x + Highs())[..e] == y[..e]
    ensures e <= |x| && x[..e] == y[..e]
  {
    TailsDiffer(x, e);
    if e <= |x| { assert (x + Zeros())[..e] == x[..e]; }
  }

  lemma TailsDiffer(x: Bytes, e: nat)
    requires e <= |x| + 15
    ensures |x| < e ==> (x + Zeros())[..e] != (x + Highs())[..e]
  {
    if |x| < e { assert (x + Zeros())[..e][|x|] == 0 && (x + Highs())[..e][|x|] == 255; }
  }

  /** Every key of the page is found for all bytes behind it if and only if the lengths on the page fit. */
  lemma AllFoundIff(p: Page, hint: seq<int>, after: Bytes)
    requires Laid(p) && WellFormed(View(p)) && HintsFit(p.slots, hint) && |hint| == HINTS && Readable(p, after)
    ensures AllFound(p, hint, after) <==> ReadsFit(p, after)
  {
    hide Laid, WellFormed, View, Shape, Exactly, SearchHarmless, Search, OverReads, HintsFit, PassesPrefix;
    SortedView(p);
    if ReadsFit(p, after) {
      forall i, behind: Bytes | 0 <= i < |p.slots| && |behind| >= 15
        ensures Search(p, hint, after, View(p).keys[i], behind) == (i, true)
      {
        FitFound(p, hint, after, i);
        StoredKey(p, i);
        HarmlessExact(p, hint, after, View(p).keys[i], behind);
      }
    }
    if AllFound(p, hint, after) {
      forall i | 0 <= i < |p.slots|
        ensures !OverReads(p.slots[i].keyLen) && (OverReads(p.prefixLen) ==> PassesPrefix(p, after, View(p).keys[i]))
      {
        FoundFits(p, hint, after, i);
      }
    }
  }

  // ----- a lost key -----

  /** A root leaf with one entry: a key of 65 bytes and a payload of 15 zero bytes. */
  function LongKey(): Bytes {
    seq(65, _ => 1)
  }

  function LongKeyPage(): Page {
    StoreAt(Fenced(true, NO_NEIGHBOUR, [], [], seq(PAGE_SIZE, _ => 0)), 0, LongKey(), Zeros())
  }

  lemma LongKeyLaid()
    ensures var p := LongKeyPage();
      && Laid(p) && WellFormed(View(p)) && View(p).keys == [LongKey()] && p.prefixLen == 0 && |p.slots| == 1
      && p.slots[0].keyLen == 65 && SuffixAt(p, 0) == LongKey() && From(p, p.slots[0].offset, [])[65..80] == Zeros()
  {
    var zeros := seq(PAGE_SIZE, _ => 0 as Byte);
    var p := Fenced(true, NO_NEIGHBOUR, [], [], zeros);
    FencedLaid(true, NO_NEIGHBOUR, [], [], zeros);
    StoreLaid(p, 0, LongKey(), Zeros());
  }

  /** The page has the key, but does not find it when high bytes follow it in the caller's buffer. */
  lemma LostKey(hint: seq<int>, after: Bytes)
    requires |hint| == HINTS && |after| >= 15
    ensures var p := LongKeyPage();
      && Laid(p) && WellFormed(View(p)) && HintsFit(p.slots, hint) && Exactly(p, LongKey()) == (0, true)
      && Search(p, hint, after, LongKey(), Zeros()) == (0, true)
      && Search(p, hint, after, LongKey(), Highs()) == (1, false)
  {
    hide LongKeyPage, LongKey, Laid, WellFormed, View, Exactly, Shape, SuffixAt, Head, Raw, Zeros, Highs, From;
    var p, key := LongKeyPage(), LongKey();
    LongKeyLaid();
    StoredKey(p, 0);
    LongKeyReads(after);
    PrefixMeans(p, after, key, Zeros());
    PrefixMeans(p, after, key, Highs());
    HeadStored(p, 0);
    assert key[0..] == key;
  }

  lemma HeadStored(p: Page, i: nat)
    requires Laid(p) && i < |p.slots|
    ensures p.slots[i].head == Head(SuffixAt(p, i))
  {
  }

  lemma LongKeyReads(after: Bytes)
    requires |after| >= 15 && |LongKeyPage().slots| == 1 && Laid(LongKeyPage())
    requires LongKeyPage().slots[0].keyLen == 65 && SuffixAt(LongKeyPage(), 0) == LongKey() && |LongKey()| == 65
    requires From(LongKeyPage(), LongKeyPage().slots[0].offset, [])[65..80] == Zeros()
    ensures SlotCmp(LongKeyPage(), after, LongKey(), Zeros(), 0) == 0
    ensures SlotCmp(LongKeyPage(), after, LongKey(), Highs(), 0) > 0
  {
    hide LongKeyPage, LongKey, Shape, RangesApart, HeadsFit, Accounted, SuffixAt;
    var p, key := LongKeyPage(), LongKey();
    SlotMemory(p, after, 0, 65);
    var y := From(p, p.slots[0].offset, after);
    assert y[65..80] == Zeros();
    assert y[..80] == y[..65] + y[65..80];
    assert key[..65] == key && (key + Zeros())[..80] == key + Zeros() && (key + Highs())[..80] == key + Highs();
    DiffSame((key + Zeros())[..80], y[..80]);
    DiffByIndex((key + Highs())[..80], y[..80], 65);
  }
}
