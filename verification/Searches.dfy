/** Why the search of a page ends at the lower bound although it compares 4-byte heads, hints and suffixes
    without the common prefix. */
module Searches {
  import opened Keys
  import opened Nodes
  import opened Spaces
  import opened Layouts

  /** `key` without the bytes that every key of the page starts with. */
  predicate HasPrefix(p: Page, key: Bytes)
    requires Shape(p)
  {
    p.prefixLen <= |key| && key[..p.prefixLen] == Lo(p)[..p.prefixLen]
  }

  /** Everything before `lower` is below the key, everything from `upper` is above it. */
  predicate Bracket(keys: seq<Bytes>, key: Bytes, lower: int, upper: int) {
    && 0 <= lower <= upper <= |keys|
    && (forall i | 0 <= i < lower :: Less(keys[i], key))
    && (forall i | upper <= i < |keys| :: Less(key, keys[i]))
  }

  lemma BracketWhole(keys: seq<Bytes>, key: Bytes)
    ensures Bracket(keys, key, 0, |keys|)
  {
  }

  lemma BracketLeft(keys: seq<Bytes>, key: Bytes, lower: int, upper: int, mid: int)
    requires Sorted(keys) && Bracket(keys, key, lower, upper) && lower <= mid < upper && Less(key, keys[mid])
    ensures Bracket(keys, key, lower, mid)
  {
    forall i | mid < i < |keys| ensures Less(key, keys[i]) { Transitive(key, keys[mid], keys[i]); }
  }

  lemma BracketRight(keys: seq<Bytes>, key: Bytes, lower: int, upper: int, mid: int)
    requires Sorted(keys) && Bracket(keys, key, lower, upper) && lower <= mid < upper && Less(keys[mid], key)
    ensures Bracket(keys, key, mid + 1, upper)
  {
    forall i | 0 <= i < mid ensures Less(keys[i], key) { Transitive(keys[i], keys[mid], key); }
  }

  /** A bracket that has closed is the lower bound, and the key is not there. */
  lemma BracketClosed(keys: seq<Bytes>, key: Bytes, lower: nat)
    requires Sorted(keys) && Bracket(keys, key, lower, lower)
    ensures LowerBound(keys, key) == lower && !Found(keys, key)
  {
    if lower < |keys| { Trichotomy(key, keys[lower]); }
    LowerBoundUnique(keys, key, lower);
  }

  lemma BracketHit(keys: seq<Bytes>, key: Bytes, mid: nat)
    requires Sorted(keys) && mid < |keys| && keys[mid] == key
    ensures LowerBound(keys, key) == mid && Found(keys, key)
  {
    Trichotomy(key, key);
    if mid > 0 { assert Less(keys[mid - 1], keys[mid]); }
    LowerBoundUnique(keys, key, mid);
  }

  /** Comparing suffixes is comparing keys. */
  lemma SuffixOrder(p: Page, key: Bytes, i: nat)
    requires Shape(p) && HasPrefix(p, key) && i < |p.slots|
    ensures View(p).keys[i] == KeyAt(p, i)
    ensures var k := key[p.prefixLen..];
      && (Less(KeyAt(p, i), key) <==> Less(SuffixAt(p, i), k)) && (Less(key, KeyAt(p, i)) <==> Less(k, SuffixAt(p, i)))
      && (KeyAt(p, i) == key <==> SuffixAt(p, i) == k)
  {
    ShapeFacts(p);
    hide Shape, Less, Lo, SuffixAt;
    var prefix, k := Lo(p)[..p.prefixLen], key[p.prefixLen..];
    assert key == prefix + k;
    CutPrefix(prefix, SuffixAt(p, i), k);
    CutPrefix(prefix, k, SuffixAt(p, i));
    if KeyAt(p, i) == key { assert KeyAt(p, i)[|prefix|..] == SuffixAt(p, i); }
  }

  /** Different heads decide. */
  lemma HeadDecides(p: Page, key: Bytes, i: nat)
    requires Laid(p) && HasPrefix(p, key) && i < |p.slots|
    ensures var h := Head(key[p.prefixLen..]);
      (h < p.slots[i].head ==> Less(key, View(p).keys[i])) && (h > p.slots[i].head ==> Less(View(p).keys[i], key))
  {
    SuffixOrder(p, key, i);
    HeadOrder(key[p.prefixLen..], SuffixAt(p, i));
    HeadOrder(SuffixAt(p, i), key[p.prefixLen..]);
    assert p.slots[i].head == Head(SuffixAt(p, i));
  }

  lemma HeadsAscend(p: Page, i: nat, j: nat)
    requires Laid(p) && Sorted(View(p).keys) && i <= j < |p.slots|
    ensures p.slots[i].head <= p.slots[j].head
  {
    hide Shape, RangesApart, Accounted, Less, Head, SuffixAt;
    assert p.slots[i].head == Head(SuffixAt(p, i)) && p.slots[j].head == Head(SuffixAt(p, j));
    if i < j {
      var prefix := Lo(p)[..p.prefixLen] by { ShapeFacts(p); }
      assert Less(View(p).keys[i], View(p).keys[j]);
      assert View(p).keys[i] == KeyAt(p, i) && View(p).keys[j] == KeyAt(p, j);
      CutPrefix(prefix, SuffixAt(p, i), SuffixAt(p, j));
      Trichotomy(SuffixAt(p, i), SuffixAt(p, j));
      HeadOrder(SuffixAt(p, j), SuffixAt(p, i));
    }
  }

  /** Keys that do not start with the common prefix lie before or behind the whole page. */
  lemma PrefixDecides(p: Page, key: Bytes)
    requires Laid(p)
    ensures var m := Min(|key|, p.prefixLen);
      var d := Diff(key[..m], Lo(p)[..m]);
      && (d < 0 || (d == 0 && |key| < p.prefixLen) ==> Bracket(View(p).keys, key, 0, 0))
      && (d > 0 ==> Bracket(View(p).keys, key, |p.slots|, |p.slots|))
      && (d == 0 && |key| >= p.prefixLen ==> HasPrefix(p, key))
  {
    hide Less, RangesApart, HeadsFit, Accounted, SuffixAt;
    ShapeFacts(p);
    var m := Min(|key|, p.prefixLen);
    var prefix := Lo(p)[..p.prefixLen];
    assert Lo(p)[..m] == prefix[..m];
    forall i | 0 <= i < |p.slots|
      ensures var d := Diff(key[..m], prefix[..m]);
        && View(p).keys[i] == KeyAt(p, i)
        && (d < 0 || (d == 0 && |key| < p.prefixLen) ==> Less(key, KeyAt(p, i))) && (d > 0 ==> Less(KeyAt(p, i), key))
    {
      PrefixDiff(key, prefix, SuffixAt(p, i));
    }
    DiffZero(key[..m], prefix[..m]);
  }

  lemma DiffZero(a: Bytes, b: Bytes)
    requires |a| == |b|
    ensures Diff(a, b) == 0 <==> a == b
  {
    if a == b { CommonUnique(a, b, |a|); }
  }

  lemma PrefixDiff(key: Bytes, prefix: Bytes, suffix: Bytes)
    ensures var m := Min(|key|, |prefix|); var d := Diff(key[..m], prefix[..m]);
      && (d < 0 || (d == 0 && |key| < |prefix|) ==> Less(key, prefix + suffix))
          && (d > 0 ==> Less(prefix + suffix, key))
  {
    var m := Min(|key|, |prefix|);
    var c := Common(key[..m], prefix[..m]);
    assert forall i | 0 <= i < m :: key[..m][i] == key[i] && prefix[..m][i] == prefix[i] == (prefix + suffix)[i];
    if c < m || |key| < |prefix| {
      LessAt(key, prefix + suffix, c);
      LessAt(prefix + suffix, key, c);
    }
  }

  // ----- hints -----

  lemma HintSteps(count: nat, i: nat, j: nat)
    requires i <= j
    ensures HintSlot(count, i) <= HintSlot(count, j)
  {
    MulMono(count / 17, i + 1, j + 1);
  }

  lemma HintsAscend(p: Page, hint: seq<int>, i: nat, j: nat)
    requires Laid(p) && Sorted(View(p).keys) && HintsFit(p.slots, hint) && |p.slots| > 2 * HINTS && i <= j < HINTS
    ensures hint[i] <= hint[j]
  {
    hide Laid, HintSlot;
    HintSteps(|p.slots|, i, j);
    assert HintAt(p.slots, hint, i) && HintAt(p.slots, hint, j);
    HeadsAscend(p, HintSlot(|p.slots|, i), HintSlot(|p.slots|, j));
  }

  /** What `searchHint` may conclude: `pos` is the first hint not below the head, `pos2` the first from
      there that differs from it. */
  lemma HintBracket(p: Page, hint: seq<int>, key: Bytes, pos: nat, pos2: nat)
    requires Laid(p) && Sorted(View(p).keys) && HintsFit(p.slots, hint) && |p.slots| > 2 * HINTS && HasPrefix(p, key)
    requires pos <= pos2 <= HINTS
    requires pos > 0 ==> hint[pos - 1] < Head(key[p.prefixLen..])
    requires pos2 < HINTS ==> hint[pos2] > Head(key[p.prefixLen..])
    ensures var dist := |p.slots| / 17;
      Bracket(View(p).keys, key, pos * dist, if pos2 < HINTS then (pos2 + 1) * dist else |p.slots|)
  {
    hide Shape, RangesApart, HeadsFit, Accounted, Less, Head;
    var dist, keys := |p.slots| / 17, View(p).keys;
    MulMono(dist, pos, HINTS);
    MulMono(dist, pos, pos2 + 1);
    BracketWhole(keys, key);
    if pos > 0 {
      assert HintAt(p.slots, hint, pos - 1);
      HeadDecides(p, key, pos * dist);
      BracketRight(keys, key, 0, |keys|, pos * dist);
    }
    if pos2 < HINTS {
      assert HintAt(p.slots, hint, pos2);
      HeadDecides(p, key, (pos2 + 1) * dist);
      BracketLeft(keys, key, 0, |keys|, (pos2 + 1) * dist);
    }
  }
}
