/** The tree as one thread sees it: lookup, update, insert with splits that move up, remove with leaf
    merges, and scans, as methods over the page store. */
module BTrees {
  import opened Keys
  import opened Nodes
  import opened Spaces
  import opened Trees
  import opened TreeSteps
  import opened Scans

  /** `Overflow`: the left half of a split does not fit its page (the code goes on and writes over its own
      slots). `Exhausted`: no page id is left (the code ends the process). */
  datatype Outcome = Done | Overflow | Exhausted

  /** The left half of leaf `c` would overflow if it were split. */
  predicate OverflowsAt(t: Tree, c: Pid, ordered: bool) {
    && c in t.level && c in t.pages && WellFormed(t.pages[c]) && t.pages[c].leaf && |t.pages[c].keys| > 1
    && !Fits(SplitLeft(t.pages[c], CutSlot(t, c, ordered), CutKey(t, c, ordered), NO_NEIGHBOUR))
  }

  /** The leaf for `k` has no room for the entry, and its left half would overflow. */
  predicate StuckAt(t: Tree, c: Pid, k: Bytes, payLen: nat, ordered: bool) {
    OnPath(t, c, k) && OverflowsAt(t, c, ordered) && |t.pages[c].keys| == |t.pages[c].pays|
    && !HasSpaceFor(t.pages[c], |k|, payLen)
  }

  ghost predicate Stuck(t: Tree, k: Bytes, payLen: nat, ordered: bool) {
    exists c :: StuckAt(t, c, k, payLen, ordered)
  }

  /** Trees over tame keys never overflow. */
  lemma TameNeverOverflows(t: Tree, m: map<Bytes, Bytes>, alloc: nat, ordered: bool)
    requires Keeps(t, m, alloc) && TameKeys(m.Keys)
    ensures forall c :: !OverflowsAt(t, c, ordered)
  {
    hide Represents, Tiled, Apart, Chained, FindSeparator, Separator, Fits, Size, Small, Tame, Less, Within;
    forall c ensures !OverflowsAt(t, c, ordered) {
      if OverflowsAt(t, c, ordered) {
        var n := t.pages[c];
        assert SizedPage(t, c) && IsLeaf(t, c);
        LeafTame(t, m, c);
        TameFits(n, ordered, NO_NEIGHBOUR);
      }
    }
  }

  /** Keys of one length are tame, as those of most tables of the benchmark. */
  lemma FixedLengthNeverOverflows(t: Tree, m: map<Bytes, Bytes>, alloc: nat, ordered: bool, len: nat)
    requires Keeps(t, m, alloc) && forall k | k in m :: |k| == len
    ensures forall c :: !OverflowsAt(t, c, ordered)
  {
    hide OverflowsAt, Keeps;
    TameNeverOverflows(t, m, alloc, ordered);
  }

  /** `u` comes from `t` by exactly one split, of the page `at` on the way to `k`, after a new root if `at` was the root. */
  ghost predicate SplitsAt(t: Tree, u: Tree, k: Bytes, at: Pid, ordered: bool) {
    exists p, r :: SplitsUnder(t, u, k, p, at, r, ordered) || SplitsRoot(t, u, k, p, at, r, ordered)
  }

  ghost predicate SplitsUnder(t: Tree, u: Tree, k: Bytes, p: Pid, at: Pid, r: Pid, ordered: bool) {
    && Leads(t, p, k, at) && at in t.pages && Cuts(t, p, at)
    && CanSplit(t, p, at, CutSlot(t, at, ordered), CutKey(t, at, ordered), r)
    && u == SplitTree(t, p, at, CutSlot(t, at, ordered), CutKey(t, at, ordered), r)
  }

  ghost predicate SplitsRoot(t: Tree, u: Tree, k: Bytes, root: Pid, at: Pid, r: Pid, ordered: bool) {
    && Sound(t) && root !in t.level && Leads(t, META, k, at)
    && SplitsUnder(GrowRoot(t, root), u, k, root, at, r, ordered)
  }

  /** On the way to `k`, no parent below `at` has room for its child's separator. */
  ghost predicate NoRoomBelow(t: Tree, k: Bytes, node: Pid, at: Pid, ordered: bool)
    requires Sound(t) && node in t.level && at in t.level
  {
    forall q, c | Leads(t, q, k, c) && q != META && Cuts(t, q, c) && t.level[node] <= t.level[c] < t.level[at] ::
      !HasSpaceFor(t.pages[q], |CutKey(t, c, ordered)|, 8)
  }

  lemma FreshPage(t: Tree, m: map<Bytes, Bytes>, alloc: nat)
    requires Keeps(t, m, alloc)
    ensures forall p | p in t.level || p in t.pages :: p < alloc
  {
    hide Tiled, Apart, Chained, WellFormed;
  }

  /** Inner nodes always fit after a split. */
  lemma LeafOrFits(t: Tree, c: Pid, r: Pid, ordered: bool)
    requires c in t.level && c in t.pages && SizedPage(t, c) && WellFormed(t.pages[c])
        && |t.pages[c].keys| > (if t.pages[c].leaf then 1 else 0)
    requires GoodCut(t.pages[c], CutSlot(t, c, ordered), CutKey(t, c, ordered))
    requires !Fits(SplitLeft(t.pages[c], CutSlot(t, c, ordered), CutKey(t, c, ordered), r))
    ensures OverflowsAt(t, c, ordered)
  {
    hide GoodCut, FindSeparator, Separator, Size, WellFormed, Small;
    LeftFits(t.pages[c], ordered, r);
    LeftFits(t.pages[c], ordered, NO_NEIGHBOUR);
  }

  /** Everything about cutting `c` and hanging its right part on page `alloc`. */
  lemma SplitStep(t: Tree, m: map<Bytes, Bytes>, alloc: nat, p: Pid, c: Pid, k: Bytes, ordered: bool)
    requires Keeps(t, m, alloc) && alloc < NO_NEIGHBOUR && Cuts(t, p, c) && Leads(t, p, k, c)
    requires HasSpaceFor(t.pages[p], |CutKey(t, c, ordered)|, 8)
    ensures c in t.pages && p in t.pages && c in t.level && alloc !in t.pages && c != p
    ensures Inner(t.pages[p]) && Sorted(t.pages[p].keys) && |t.pages[p].keys| == |t.pages[p].pays|
    ensures WellFormed(t.pages[c])
    ensures CutSlot(t, c, ordered) < |t.pages[c].keys| == |t.pages[c].pays|
    ensures var left := SplitLeft(t.pages[c], CutSlot(t, c, ordered), CutKey(t, c, ordered), alloc);
      |left.keys| == |left.pays| && if Fits(left) then SplitDone(t, m, alloc, p, c, k, ordered) else OverflowsAt(t, c,
          ordered)
  {
    hide Shaped, Tiled, Apart, Chained, Within, Represents, Small, Less, FindSeparator, Separator, Size,
         HasSpaceFor, Prefix, LowerBound, Kid, GoodCut, CutSlot, CutKey, Sorted, Leads, SplitTree;
    FreshPage(t, m, alloc);
    LeadsLevels(t, p, k, c);
    InnerFact(t, p);
    CutReady(t, p, c, k, ordered, alloc);
    assert SizedPage(t, c);
    var left := SplitLeft(t.pages[c], CutSlot(t, c, ordered), CutKey(t, c, ordered), alloc);
    if Fits(left) {
      SplitKeeps(t, m, alloc, p, c, k, ordered);
    } else {
      LeafOrFits(t, c, alloc, ordered);
    }
  }

  ghost predicate SplitDone(t: Tree, m: map<Bytes, Bytes>, alloc: nat, p: Pid, c: Pid, k: Bytes, ordered: bool) {
    && alloc < NO_NEIGHBOUR && c in t.pages && Cuts(t, p, c)
    && CanSplit(t, p, c, CutSlot(t, c, ordered), CutKey(t, c, ordered), alloc)
    && var u := SplitTree(t, p, c, CutSlot(t, c, ordered), CutKey(t, c, ordered), alloc);
       Keeps(u, m, alloc + 1) && SplitsUnder(t, u, k, p, c, alloc, ordered)
  }

  lemma NodeWellFormed(t: Tree, p: Pid)
    requires Sound(t) && p in t.level
    ensures p in t.pages && WellFormed(t.pages[p])
  {
    hide Tiled, Apart, Chained, Sorted, Within;
  }

  lemma LeadsLevels(t: Tree, p: Pid, k: Bytes, c: Pid)
    requires Sound(t) && Leads(t, p, k, c)
    ensures p in t.level && c in t.level && t.level[c] + 1 == t.level[p]
    ensures p in t.pages && |t.pages[p].keys| == |t.pages[p].pays|
    ensures c in t.pages && |t.pages[c].keys| == |t.pages[c].pays|
  {
    hide Tiled, Apart, Chained, Sorted, Less;
    Below(t, p, k);
  }

  lemma LeadsOnPath(t: Tree, p: Pid, k: Bytes, c: Pid)
    requires Leads(t, p, k, c)
    ensures OnPath(t, p, k)
  {
    hide Within;
  }

  /** What the code asserts of a page it splits (`SepSlotAllowed`); a root has three entries. */
  predicate Splittable(n: Node, parent: Pid) {
    && WellFormed(n) && |n.keys| > (if n.leaf then 2 else 1) && (parent == META ==> |n.keys| >= 3)
  }

  /** An unfinished pass of an insert of `k`: one split, at the lowest page on the way whose parent has
      room, and strictly less is left to do. */
  ghost predicate Advances(t: Tree, u: Tree, k: Bytes, node: Pid, at: Pid, b: int, ordered: bool) {
    && Sound(t) && Sound(u) && node in t.level && at in t.level && t.level[node] <= t.level[at]
    && SplitsAt(t, u, k, at, ordered) && NoRoomBelow(t, k, node, at, ordered)
    && Bound(u, k) <= b && Distance(u, k, b) < Distance(t, k, b)
  }

  lemma CutsFact(t: Tree, p: Pid, c: Pid, k: Bytes)
    requires Sound(t) && Leads(t, p, k, c) && p != META && c in t.pages && Splittable(t.pages[c], p)
    requires c in t.level && p in t.level && t.level[c] + 1 == t.level[p]
    ensures Cuts(t, p, c)
  {
    hide Sound, WellFormed, Leads;
  }

  lemma UnderAdvances(t: Tree, u: Tree, k: Bytes, p: Pid, c: Pid, r: Pid, b: int, ordered: bool)
    requires Sound(t) && Sound(u) && SplitsUnder(t, u, k, p, c, r, ordered) && Bound(t, k) <= b
    ensures Advances(t, u, k, c, c, b, ordered)
  {
    hide Sound, CanSplit, CutSlot, CutKey, SplitTree, WellFormed, Leads, Within;
    CutLevels(t, p, c, CutSlot(t, c, ordered), CutKey(t, c, ordered), r);
    BoundTop(t, k);
    SplitProgress(t, p, c, CutSlot(t, c, ordered), CutKey(t, c, ordered), r, k, b);
    assert SplitsAt(t, u, k, c, ordered);
  }

  lemma BoundTop(t: Tree, k: Bytes)
    requires Sound(t)
    ensures META in t.level && t.level[META] <= Bound(t, k)
  {
    hide Sound, Within;
    MetaOnPath(t, k);
    WeightNotNegative(t, META, k, 0, 1);
  }

  lemma RootAdvances(t: Tree, u: Tree, k: Bytes, root: Pid, c: Pid, r: Pid, b: int, ordered: bool)
    requires Sound(t) && Sound(u) && root !in t.level && root != META && Leads(t, META, k, c) && Bound(t, k) <= b
    requires Sound(Trees.GrowRoot(t, root)) && SplitsUnder(Trees.GrowRoot(t, root), u, k, root, c, r, ordered)
    requires c in t.pages && Splittable(t.pages[c], META)
    ensures Advances(t, u, k, c, c, b, ordered)
  {
    hide Shaped, Tiled, Apart, Chained, CanSplit, SplitTree, Within, Less;
    RootPath(t, k);
    GrownLeads(t, root, k);
    assert SplitsRoot(t, u, k, root, c, r, ordered);
    assert SplitsAt(t, u, k, c, ordered);
    hide WellFormed, Cuts, Leads, Separator;
    var g := Trees.GrowRoot(t, root);
    assert CutSlot(g, c, ordered) == FindSeparator(t.pages[c], ordered).slot;
    GrowProgress(t, root, CutSlot(g, c, ordered), CutKey(g, c, ordered), r, k, b);
  }

  lemma NoRoomAbove(t: Tree, k: Bytes, node: Pid, parent: Pid, at: Pid, ordered: bool)
    requires Sound(t) && Leads(t, parent, k, node) && Cuts(t, parent, node) && at in t.level
    requires t.level[parent] <= t.level[at]
    requires !HasSpaceFor(t.pages[parent], |CutKey(t, node, ordered)|, 8)
    requires NoRoomBelow(t, k, parent, at, ordered)
    ensures NoRoomBelow(t, k, node, at, ordered)
  {
    hide Tiled, Apart, Chained, HasSpaceFor, CutKey, Sorted, Less, Within, Route;
    forall q, c | Leads(t, q, k, c) && q != META && Cuts(t, q, c) && t.level[node] <= t.level[c] < t.level[at]
      ensures !HasSpaceFor(t.pages[q], |CutKey(t, c, ordered)|, 8)
    {
      if t.level[c] == t.level[node] { PathUnique(t, q, parent, k); }
    }
  }

  lemma RootOnly(t: Tree, c: Pid, k: Bytes)
    requires Sound(t) && Leads(t, META, k, c)
    ensures META in t.pages && c == t.pages[META].link
  {
    hide Tiled, Apart, Chained, Less;
  }

  /** An inner page without room for a separator can be split. */
  lemma FullSplittable(t: Tree, c: Pid, p: Pid, k: Bytes, keyLen: nat, payLen: nat)
    requires Sound(t) && Sized(t) && Leads(t, p, k, c) && c in t.level && c in t.pages
    requires if t.level[c] == 0 then keyLen + payLen <= MAX_KV else keyLen <= SHORT && payLen == 8
    requires |t.pages[c].keys| == |t.pages[c].pays| && !HasSpaceFor(t.pages[c], keyLen, payLen)
    ensures Splittable(t.pages[c], p)
  {
    hide Tiled, Apart, Chained, Size, HasSpaceFor, Sorted, Within, Less, Prefix, Fits;
    NodeWellFormed(t, c);
    LeafAtZero(t, c);
    assert SizedPage(t, c);
    if p == META {
      RootOnly(t, c, k);
      RootPath(t, k);
      FullRoot(t.pages[c], keyLen, payLen);
    }
    if t.pages[c].leaf { FullShortLeaf(t.pages[c], keyLen, payLen); } else { FullInner(t.pages[c], SHORT, keyLen); }
  }

  lemma SepIsCut(t: Tree, c: Pid, ordered: bool)
    requires c in t.pages && WellFormed(t.pages[c]) && |t.pages[c].keys| > (if t.pages[c].leaf then 1 else 0)
    ensures CutSlot(t, c, ordered) == FindSeparator(t.pages[c], ordered).slot
    ensures var i := FindSeparator(t.pages[c], ordered); var s := i.slot + if i.truncated then 1 else 0;
      s < |t.pages[c].keys| && Prefix(t.pages[c]) <= i.len <= |t.pages[c].keys[s]|
      && CutKey(t, c, ordered) == GetSep(t.pages[c], i)
  {
    hide WellFormed, FindSeparator, Prefix;
    SepInRange(t.pages[c], ordered);
  }

  lemma SepOnPath(t: Tree, p: Pid, c: Pid, k: Bytes, ordered: bool)
    requires Cuts(t, p, c) && Leads(t, p, k, c) && Sized(t)
    ensures OnPath(t, p, CutKey(t, c, ordered)) && |CutKey(t, c, ordered)| <= SHORT
  {
    hide Sound, Less, WellFormed, Within, FindSeparator, GetSep, GoodCut, Kid, Slot, CutSlot, CutKey, Fits;
    CutGood(t, p, c, ordered);
    CutWithin(t.pages[c], CutSlot(t, c, ordered), CutKey(t, c, ordered));
    CutInKeys(t.pages[c], CutSlot(t, c, ordered), CutKey(t, c, ordered));
    RouteShares(t, p, c, k, CutKey(t, c, ordered));
    assert SizedPage(t, c);
  }

  lemma CutInKeys(n: Node, slot: nat, sep: Bytes)
    requires GoodCut(n, slot, sep)
    ensures slot < |n.keys|
  {
  }

  lemma AboveAdvances(t: Tree, u: Tree, k: Bytes, node: Pid, parent: Pid, at: Pid, b: int, ordered: bool)
    requires Advances(t, u, k, parent, at, b, ordered) && Leads(t, parent, k, node) && Cuts(t, parent, node)
    requires !HasSpaceFor(t.pages[parent], |CutKey(t, node, ordered)|, 8)
    ensures Advances(t, u, k, node, at, b, ordered)
  {
    hide Sound, NoRoomBelow, SplitsAt, CutKey, HasSpaceFor, Leads, WellFormed;
    NoRoomAbove(t, k, node, parent, at, ordered);
  }

  predicate RoomIn(t: Tree, c: Pid, k: Bytes, payLen: nat) {
    && OnPath(t, c, k) && t.level[c] == 0 && WellFormed(t.pages[c]) && |t.pages[c].keys| == |t.pages[c].pays|
    && HasSpaceFor(t.pages[c], |k|, payLen)
  }

  /** The leaf for the key has room for the entry. */
  ghost predicate RoomFor(t: Tree, k: Bytes, payLen: nat) {
    exists c :: RoomIn(t, c, k, payLen)
  }

  /** The entry is put into its leaf, and nothing else happens. */
  ghost predicate PutOnly(t: Tree, u: Tree, k: Bytes, v: Bytes) {
    exists c :: RoomIn(t, c, k, |v|) && u == Store(t, c, InsertEntry(t.pages[c], k, v))
  }

  lemma RoomAt(t: Tree, k: Bytes, payLen: nat, c: Pid)
    requires Sound(t) && OnPath(t, c, k) && t.level[c] == 0 && WellFormed(t.pages[c]) && |t.pages[c].keys| == |t.pages[c].pays|
    ensures RoomFor(t, k, payLen) <==> HasSpaceFor(t.pages[c], |k|, payLen)
    ensures RoomIn(t, c, k, payLen) <==> HasSpaceFor(t.pages[c], |k|, payLen)
  {
    hide Sound, Within, HasSpaceFor, WellFormed;
    if HasSpaceFor(t.pages[c], |k|, payLen) { assert RoomIn(t, c, k, payLen); }
    if RoomFor(t, k, payLen) {
      var d :| RoomIn(t, d, k, payLen);
      PathUnique(t, c, d, k);
    }
  }

  lemma OneLevelMore(level: map<Pid, nat>, r: Pid, n: nat)
    requires r !in level
    ensures |level[r := n]| == |level| + 1
  {
    assert level[r := n].Keys == level.Keys + {r};
    assert |level[r := n].Keys| == |level.Keys| + 1;
  }

  lemma SameLevels(level: map<Pid, nat>, r: Pid, n: nat)
    requires r in level
    ensures |level[r := n]| == |level|
  {
    assert level[r := n].Keys == level.Keys;
    assert |level[r := n].Keys| == |level.Keys|;
  }

  // ----- a leaf that cannot be split -----

  /** A pass of an insert leaves a stuck leaf as it is: it cannot have been the page that was split. */
  lemma StuckStays(t: Tree, u: Tree, k: Bytes, payLen: nat, c: Pid, at: Pid, ordered: bool)
    requires Sound(t) && Sound(u) && Sized(u) && StuckAt(t, c, k, payLen, ordered) && SplitsAt(t, u, k, at, ordered)
    ensures StuckAt(u, c, k, payLen, ordered) && at != c
  {
    hide Shaped, Tiled, Apart, Chained, SplitsUnder, SplitsRoot, Small, HasSpaceFor, OverflowsAt, Within;
    var p, r :| SplitsUnder(t, u, k, p, at, r, ordered) || SplitsRoot(t, u, k, p, at, r, ordered);
    if SplitsUnder(t, u, k, p, at, r, ordered) {
      UnderStays(t, u, k, payLen, c, p, at, r, ordered);
    } else {
      assert SplitsRoot(t, u, k, p, at, r, ordered);
      GrownStays(t, k, payLen, c, p, at, ordered) by { RootSplit(t, u, k, p, at, r, ordered); }
      RootSplit(t, u, k, p, at, r, ordered);
      UnderStays(Trees.GrowRoot(t, p), u, k, payLen, c, p, at, r, ordered);
    }
  }

  lemma RootSplit(t: Tree, u: Tree, k: Bytes, root: Pid, at: Pid, r: Pid, ordered: bool)
    requires SplitsRoot(t, u, k, root, at, r, ordered)
    ensures Sound(t) && root !in t.level && Sound(Trees.GrowRoot(t, root))
    ensures SplitsUnder(Trees.GrowRoot(t, root), u, k, root, at, r, ordered)
  {
    hide Sound, Leads, Cuts, CutSlot, CutKey, SplitTree;
  }

  lemma GrownStays(t: Tree, k: Bytes, payLen: nat, c: Pid, root: Pid, at: Pid, ordered: bool)
    requires Sound(t) && StuckAt(t, c, k, payLen, ordered) && root !in t.level && Sound(Trees.GrowRoot(t, root))
    ensures StuckAt(Trees.GrowRoot(t, root), c, k, payLen, ordered)
  {
    hide Tiled, Apart, Chained, HasSpaceFor, Within, FindSeparator, Separator, Fits;
    LeafAtZero(t, c);
  }

  lemma UnderStays(t: Tree, u: Tree, k: Bytes, payLen: nat, c: Pid, p: Pid, at: Pid, r: Pid, ordered: bool)
    requires Sound(t) && Sound(u) && Sized(u) && StuckAt(t, c, k, payLen, ordered)
    requires SplitsUnder(t, u, k, p, at, r, ordered)
    ensures StuckAt(u, c, k, payLen, ordered) && at != c
  {
    hide Tiled, Apart, Chained, HasSpaceFor, Within, FindSeparator, Separator, SplitRight, SplitParent, Size, Small,
         SplitLeft, WellFormed, GoodCut;
    LeafAtZero(t, c);
    LeafAtZero(t, p);
    LeadsLevels(t, p, k, at);
    NodeWellFormed(t, at);
    var slot, sep := CutSlot(t, at, ordered), CutKey(t, at, ordered);
    CutInKeys(t.pages[at], slot, sep);
    assert SizedPage(u, at) && u.pages[at] == SplitLeft(t.pages[at], slot, sep, r);
    SameLeft(t.pages[at], slot, sep, r);
    Below(t, p, k);
    if t.level[at] == 0 { PathUnique(t, at, c, k); }
  }

  /** The link does not count. */
  lemma SameLeft(n: Node, slot: nat, sep: Bytes, r: Pid)
    requires GoodCut(n, slot, sep)
    ensures |SplitLeft(n, slot, sep, r).keys| == |SplitLeft(n, slot, sep, r).pays|
    ensures |SplitLeft(n, slot, sep, NO_NEIGHBOUR).keys| == |SplitLeft(n, slot, sep, NO_NEIGHBOUR).pays|
    ensures Fits(SplitLeft(n, slot, sep, r)) <==> Fits(SplitLeft(n, slot, sep, NO_NEIGHBOUR))
  {
    LeftSize(n, slot, sep, r);
    LeftSize(n, slot, sep, NO_NEIGHBOUR);
  }

  /** The leaf for a key is the stuck one, if there is one. */
  lemma StuckLeaf(t: Tree, k: Bytes, payLen: nat, node: Pid, ordered: bool)
    requires Sound(t) && OnPath(t, node, k) && t.level[node] == 0
    ensures Stuck(t, k, payLen, ordered) <==> StuckAt(t, node, k, payLen, ordered)
  {
    hide Tiled, Apart, Chained, HasSpaceFor, Within, CutSlot, CutKey, Fits, WellFormed;
    forall c | StuckAt(t, c, k, payLen, ordered) ensures c == node {
      LeafAtZero(t, c);
      PathUnique(t, c, node, k);
    }
  }

  lemma StuckNow(t: Tree, k: Bytes, payLen: nat, c: Pid, ordered: bool)
    requires OnPath(t, c, k) && OverflowsAt(t, c, ordered)
    requires |t.pages[c].keys| == |t.pages[c].pays| && !HasSpaceFor(t.pages[c], |k|, payLen)
    ensures Stuck(t, k, payLen, ordered)
  {
    hide OnPath, OverflowsAt, HasSpaceFor;
    assert StuckAt(t, c, k, payLen, ordered);
  }

  lemma AdvanceMeans(t: Tree, u: Tree, k: Bytes, node: Pid, at: Pid, b: int, ordered: bool)
    requires Sound(t) && Sound(u) && Advances(t, u, k, node, at, b, ordered)
    ensures Bound(u, k) <= b && Distance(u, k, b) < Distance(t, k, b)
  {
    hide Sound, SplitsAt, NoRoomBelow;
  }

  lemma StuckGoesOn(t: Tree, u: Tree, k: Bytes, payLen: nat, c: Pid, at: Pid, b: int, ordered: bool)
    requires Sized(u) && StuckAt(t, c, k, payLen, ordered) && Advances(t, u, k, c, at, b, ordered)
    ensures Stuck(u, k, payLen, ordered) && META in t.level && t.level[META] > 1
  {
    hide Tiled, Apart, Chained, SplitsAt, NoRoomBelow, HasSpaceFor, OverflowsAt, Within, Small;
    StuckStays(t, u, k, payLen, c, at, ordered);
    AtOnPath(t, u, k, at, ordered);
    LeafAtZero(t, c);
    if t.level[at] == 0 { PathUnique(t, at, c, k); }
  }

  lemma AtOnPath(t: Tree, u: Tree, k: Bytes, at: Pid, ordered: bool)
    requires Sound(t) && SplitsAt(t, u, k, at, ordered)
    ensures OnPath(t, at, k) && at != META
  {
    hide Tiled, Apart, Chained, Within, CanSplit, SplitTree, CutSlot, CutKey, WellFormed, SplitsUnder;
    var p, r :| SplitsUnder(t, u, k, p, at, r, ordered) || SplitsRoot(t, u, k, p, at, r, ordered);
    if SplitsUnder(t, u, k, p, at, r, ordered) { UnderLeads(t, u, k, p, at, r, ordered); Below(t, p,
        k); } else { Below(t, META, k); }
  }

  lemma UnderLeads(t: Tree, u: Tree, k: Bytes, p: Pid, at: Pid, r: Pid, ordered: bool)
    requires SplitsUnder(t, u, k, p, at, r, ordered)
    ensures Leads(t, p, k, at)
  {
    hide CanSplit, SplitTree, CutSlot, CutKey, Cuts, Leads;
  }

  // ----- removing -----

  /** `node` and `right` are the neighbouring leaves at `pos` and `pos + 1` of `parent`. */
  predicate MergePair(t: Tree, parent: Pid, pos: nat, node: Pid, right: Pid) {
    && CanMerge(t, parent, pos) && Kid(t.pages[parent], pos) == node && Kid(t.pages[parent], pos + 1) == right
    && node in t.pages && right in t.pages && parent in t.pages && node != parent
    && |t.pages[parent].keys| == |t.pages[parent].pays| && pos + 1 < |t.pages[parent].keys|
    && |t.pages[node].keys| == |t.pages[node].pays| && |t.pages[right].keys| == |t.pages[right].pays|
  }

  /** Removing `key` from leaf `c` below `p` makes the code merge: the leaf is nearly empty, it has a right
      sibling that is not the last child, the sibling is not too full, and the bound allows it. */
  predicate MergesAt(t: Tree, p: Pid, c: Pid, key: Bytes) {
    && Leads(t, p, key, c) && p != META && c in t.pages && WellFormed(t.pages[c]) && t.level[p] == 1
    && var n, slot, pos := t.pages[c], Slot(t.pages[c], key), Slot(t.pages[p], key);
       && slot < |n.keys| && pos + 1 < |t.pages[p].keys|
       && Room(n) + |n.keys[slot]| - Prefix(n) + |n.pays[slot]| >= UNDER_FULL
       && var right := Kid(t.pages[p], pos + 1);
          && right in t.pages && |t.pages[right].keys| == |t.pages[right].pays|
          && Room(t.pages[right]) >= PAGE_SIZE - UNDER_FULL
          && SpaceUpperBound(RemoveAt(n, slot), t.pages[right]) <= PAGE_SIZE
  }

  ghost predicate MergeDue(t: Tree, key: Bytes) {
    exists p, c :: MergesAt(t, p, c, key)
  }

  /** The same in sizes: without the entry the leaf takes up a quarter of a page at most (its slot still counted), the
      sibling leaves a quarter free, and both fit one page together with the two fences that vanish. */
  predicate WorthMerging(t: Tree, p: Pid, c: Pid, key: Bytes) {
    && Leads(t, p, key, c) && c in t.pages && WellFormed(t.pages[c])
    && var n, slot, pos := t.pages[c], Slot(t.pages[c], key), Slot(t.pages[p], key);
       && slot < |n.keys| && Size(RemoveAt(n, slot)) + SLOT <= PAGE_SIZE / 4
       && pos + 1 < |t.pages[p].keys|
       && var right := Kid(t.pages[p], pos + 1);
          && right in t.pages && |t.pages[right].keys| == |t.pages[right].pays|
          && Size(t.pages[right]) <= PAGE_SIZE - PAGE_SIZE / 4
          && Size(MergeLeaves(RemoveAt(n, slot), t.pages[right])) + |n.hi| + |t.pages[right].lo| <= PAGE_SIZE
  }

  lemma WorthMeans(t: Tree, p: Pid, c: Pid, key: Bytes)
    requires Sound(t) && Leads(t, p, key, c) && c in t.level && t.level[c] == 0
    ensures MergesAt(t, p, c, key) <==> WorthMerging(t, p, c, key)
  {
    hide Tiled, Apart, Chained, Less, Sorted, Within, Size, SpaceUpperBound, RemoveAt, MergeLeaves, Kid, Slot;
    LeadsLevels(t, p, key, c);
    MetaKeys(t);
    var n, slot := t.pages[c], Slot(t.pages[c], key);
    if slot < |n.keys| && Slot(t.pages[p], key) + 1 < |t.pages[p].keys| {
      RemoveSize(n, slot);
      RemovePairs(n, slot);
      var right := Kid(t.pages[p], Slot(t.pages[p], key) + 1);
      if right in t.pages && |t.pages[right].keys| == |t.pages[right].pays| { MergeBound(RemoveAt(n, slot), t.pages[right]); }
    }
  }

  lemma MetaKeys(t: Tree)
    requires Sound(t)
    ensures META in t.pages && t.pages[META].keys == []
  {
    hide Tiled, Apart, Chained;
  }

  lemma RemovePairs(n: Node, i: nat)
    requires |n.keys| == |n.pays| && i < |n.keys|
    ensures |RemoveAt(n, i).keys| == |RemoveAt(n, i).pays| && RemoveAt(n, i).hi == n.hi
  {
  }

  /** `u` is `t` without the entry of `key` in leaf `c`, which has taken in its right sibling if `merged`. */
  ghost predicate Removed(t: Tree, u: Tree, p: Pid, c: Pid, key: Bytes, merged: bool) {
    && Leads(t, p, key, c) && c in t.pages && WellFormed(t.pages[c]) && Slot(t.pages[c], key) < |t.pages[c].keys|
    && var v := Store(t, c, RemoveAt(t.pages[c], Slot(t.pages[c], key)));
       if merged then CanMerge(v, p, Slot(t.pages[p], key)) && u == MergeTree(v, p, Slot(t.pages[p], key)) else u == v
  }

  /** From the leaf of the key, and merged exactly when that is worth it. */
  ghost predicate RemovedWell(t: Tree, u: Tree, p: Pid, c: Pid, key: Bytes, merged: bool) {
    c in t.level && t.level[c] == 0 && Removed(t, u, p, c, key, merged) && (merged <==> WorthMerging(t, p, c, key))
  }

  lemma NotThere(m: map<Bytes, Bytes>, key: Bytes)
    requires key !in m
    ensures m - {key} == m
  {
  }

  /** Only the leaf of the key and its parent matter. */
  lemma MergeOnly(t: Tree, p: Pid, c: Pid, key: Bytes)
    requires Sound(t) && Leads(t, p, key, c) && c in t.level && t.level[c] == 0
    ensures MergeDue(t, key) <==> MergesAt(t, p, c, key)
  {
    hide Shaped, Tiled, Apart, Chained, Room, SpaceUpperBound, Less, WellFormed, Within, Prefix, RemoveAt;
    LeadsLevels(t, p, key, c);
    forall q, d | MergesAt(t, q, d, key) ensures q == p && d == c {
      PathUnique(t, q, p, key);
    }
  }

  lemma RightPaired(t: Tree, p: Pid)
    requires Sound(t) && p in t.level
    ensures p in t.pages && |t.pages[p].keys| == |t.pages[p].pays|
  {
    hide Tiled, Apart, Chained, Sorted, Less;
  }

  lemma MergeMeans(t: Tree, p: Pid, c: Pid, key: Bytes)
    requires Sound(t) && Leads(t, p, key, c) && c in t.level && t.level[c] == 0 && p != META
    requires c in t.pages && WellFormed(t.pages[c]) && Slot(t.pages[p], key) + 1 < |t.pages[p].keys|
    requires Slot(t.pages[c], key) < |t.pages[c].keys|
    requires Sound(Store(t, c, RemoveAt(t.pages[c], Slot(t.pages[c], key))))
    ensures MergeDue(t, key) <==> MergesAt(t, p, c, key)
    ensures var pos := Slot(t.pages[p], key); var right := Kid(t.pages[p], pos + 1);
      && right in t.level && t.level[right] == 0
      && MergePair(Store(t, c, RemoveAt(t.pages[c], Slot(t.pages[c], key))), p, pos, c, right)
      && right != c && right in t.pages
  {
    hide Shaped, Tiled, Apart, Chained, Room, SpaceUpperBound, Less, Within, Prefix, Slot, Sorted, Kid;
    MergeOnly(t, p, c, key);
    LeadsLevels(t, p, key, c);
    InnerFact(t, p);
    var pos := Slot(t.pages[p], key);
    KidFact(t, p, pos + 1);
    if Kid(t.pages[p], pos + 1) == c { KidsApart(t, p, pos, p, pos + 1); }
    InnerFact(Store(t, c, RemoveAt(t.pages[c], Slot(t.pages[c], key))), p);
    RightPaired(t, Kid(t.pages[p], pos + 1));
  }

  // ----- scanning -----

  lemma KeepsTree(t: Tree, m: map<Bytes, Bytes>, alloc: nat)
    requires Keeps(t, m, alloc)
    ensures Sound(t) && Represents(t, m)
  {
    hide Sound, Represents;
  }

  lemma NodeSorted(t: Tree, p: Pid)
    requires Sound(t) && p in t.level
    ensures p in t.pages && Sorted(t.pages[p].keys) && |t.pages[p].keys| == |t.pages[p].pays|
  {
    hide Tiled, Apart, Chained, Sorted, Less;
  }

  lemma AscShape(t: Tree, m: map<Bytes, Bytes>, key: Bytes, p: Pid, pos: nat, out: seq<Entry>, visited: set<Pid>)
    requires AscState(t, m, key, p, pos, out, visited)
    ensures p in t.pages && pos <= |t.pages[p].keys| == |t.pages[p].pays|
  {
    hide Passed, Sorted, Less;
  }

  lemma DescShape(t: Tree, m: map<Bytes, Bytes>, key: Bytes, p: Pid, pos: int, out: seq<Entry>, visited: set<Pid>)
    requires DescState(t, m, key, p, pos, out, visited)
    ensures p in t.level && p in t.pages && -1 <= pos < |t.pages[p].keys| == |t.pages[p].pays|
  {
    hide PassedDown, Sorted, Less;
  }

  lemma Fewer(all: set<Pid>, visited: set<Pid>, p: Pid)
    requires p in all && p !in visited
    ensures |all - (visited + {p})| < |all - visited|
  {
    assert all - visited == (all - (visited + {p})) + {p};
  }

  /** Where the first reported slot of a scan downwards is. */
  lemma FirstDown(n: Node, key: Bytes)
    requires Sorted(n.keys)
    ensures var pos := LowerBound(n.keys, key);
      && (pos < |n.keys| && Found(n.keys, key) ==> !Less(key, n.keys[pos]) && (pos + 1 < |n.keys| ==> Less(key, n.keys[pos + 1])))
      && (pos < |n.keys| && !Found(n.keys, key) ==> Less(key, n.keys[pos]) && (pos > 0 ==> !Less(key, n.keys[pos - 1])))
      && (pos == |n.keys| && pos > 0 ==> !Less(key, n.keys[pos - 1]))
  {
    var pos := LowerBound(n.keys, key);
    if pos < |n.keys| { Trichotomy(key, n.keys[pos]); }
    if pos > 0 { Trichotomy(key, n.keys[pos - 1]); }
  }

  lemma NewRootRoom(t: Tree, c: Pid, n: Node, ordered: bool)
    requires c in t.pages && WellFormed(t.pages[c]) && |t.pages[c].keys| > (if t.pages[c].leaf then 1 else 0)
    requires SizedPage(t, c) && |n.keys| == |n.pays| && HasSpaceFor(n, SHORT, 8)
    ensures |CutKey(t, c, ordered)| <= SHORT && HasSpaceFor(n, |CutKey(t, c, ordered)|, 8)
  {
    hide WellFormed, Size, FindSeparator, Prefix;
    SepInRange(t.pages[c], ordered);
  }

  class BTree {
    const virtCount: nat
    var splitOrdered: bool
    var pages: map<Pid, Node>
    var allocCount: nat
    ghost var level: map<Pid, nat>
    ghost var contents: map<Bytes, Bytes>

    ghost function T(): Tree
      reads this
    {
      Tree(pages, level)
    }

    ghost predicate Valid()
      reads this
    {
      Keeps(T(), contents, allocCount) && virtCount <= NO_NEIGHBOUR
    }

    /** Page ids that have been given out, but not to a page of the tree. */
    ghost function Spares(): int
      reads this
    {
      allocCount - |level|
    }

    constructor (virtCount: nat)
      requires 2 <= virtCount <= NO_NEIGHBOUR
      ensures Valid() && contents == map[] && !splitOrdered && this.virtCount == virtCount && allocCount == 2
    {
      this.virtCount := virtCount;
      splitOrdered := false;
      pages := Empty(1).pages;
      allocCount := 2;
      level := Empty(1).level;
      contents := map[];
      EmptySound(1);
      FreshRoomy(1);
      new;
      assert SizedPage(T(), META) && SizedPage(T(), 1);
    }

    /** From the root to the leaf for `k`, or to `target` on the way there. */
    method Descend(k: Bytes, target: Option<Pid>) returns (parent: Pid, node: Pid, pos: nat)
      requires Valid()
      requires target.Some? ==> target.value != META && OnPath(T(), target.value, k)
      ensures node in pages && parent in pages && Leads(T(), parent, k, node) && OnPath(T(), node, k)
      ensures level[node] + 1 == level[parent]
      ensures if target.Some? then node == target.value else level[node] == 0
      ensures Inner(pages[parent]) && WellFormed(pages[node]) && pos == Slot(pages[parent], k)
      ensures pages[node].leaf <==> level[node] == 0
    {
      hide Shaped, Tiled, Apart, Chained, Represents, Sized, Within, Kid, LowerBound;
      RootPath(T(), k);
      MetaOnPath(T(), k);
      Below(T(), META, k);
      parent, node, pos := META, pages[META].link, LowerBound(pages[META].keys, k);
      if target.Some? { MetaTop(T(), target.value); }
      LeafAtZero(T(), node);
      NodeWellFormed(T(), node);
      while !pages[node].leaf && target != Some(node)
        invariant node in pages && parent in pages && Leads(T(), parent, k, node) && OnPath(T(), node, k)
        invariant level[node] + 1 == level[parent] && Inner(pages[parent]) && WellFormed(pages[node])
        invariant pos == Slot(pages[parent], k)
        invariant target.Some? ==> level[target.value] <= level[node]
        invariant pages[node].leaf <==> level[node] == 0
        decreases level[node]
      {
        Below(T(), node, k);
        if target.Some? && level[target.value] == level[node] { PathUnique(T(), node, target.value, k); }
        parent := node;
        pos := LowerBound(pages[parent].keys, k);
        node := Kid(pages[parent], pos);
        LeafAtZero(T(), node);
        NodeWellFormed(T(), node);
      }
      if target.Some? && level[target.value] == level[node] { PathUnique(T(), node, target.value, k); }
    }

    /** What the map says for the key. */
    method Lookup(key: Bytes) returns (r: Option<Bytes>)
      requires Valid()
      ensures r == Trees.Lookup(contents, key)
    {
      hide Shaped, Tiled, Apart, Chained, Sized, Within, LowerBound;
      var parent, node, pos := Descend(key, None);
      LeafFact(T(), contents, node, key);
      r := Get(pages[node], key);
    }

    /** Applies `f` to the payload in place; it cannot change the payload's length. */
    method UpdateInPlace(key: Bytes, f: Bytes -> Bytes) returns (found: bool)
      requires Valid() && forall v :: |f(v)| == |v|
      modifies this`pages, this`contents
      ensures Valid() && level == old(level)
      ensures found <==> key in old(contents)
      ensures contents == if found then old(contents)[key := f(old(contents)[key])] else old(contents)
    {
      hide Shaped, Tiled, Apart, Chained, Sized, Within, Represents;
      var parent, node, pos := Descend(key, None);
      LeafFact(T(), contents, node, key);
      var slot := LowerBound(pages[node].keys, key);
      found := Found(pages[node].keys, key);
      FoundIffMember(pages[node].keys, key);
      if found {
        SetKeeps(T(), contents, allocCount, node, key, f(contents[key]));
        pages := pages[node := SetPay(pages[node], slot, f(pages[node].pays[slot]))];
        contents := contents[key := f(contents[key])];
      }
    }

    /** Cuts `node` at `slot`; its right part moves to a new page, and the parent gets the separator. */
    method SplitNode(node: Pid, parent: Pid, slot: nat, sep: Bytes, ghost k: Bytes) returns (o: Outcome)
      requires Valid() && Cuts(T(), parent, node) && Leads(T(), parent, k, node)
      requires slot == CutSlot(T(), node, splitOrdered) && sep == CutKey(T(), node, splitOrdered)
      requires HasSpaceFor(pages[parent], |sep|, 8)
      modifies this`pages, this`level, this`allocCount
      ensures Valid()
      ensures o.Done? ==> exists r :: SplitsUnder(old(T()), T(), k, parent, node, r, splitOrdered)
      ensures !o.Done? ==> T() == old(T())
      ensures o.Overflow? ==> OverflowsAt(T(), node, splitOrdered)
      ensures o.Exhausted? <==> old(allocCount) >= virtCount
      ensures o.Exhausted? ==> allocCount >= virtCount
      ensures Spares() == old(Spares()) + if o.Overflow? then 1 else 0
    {
      hide Sound, Represents, Sized, Cuts, Leads, CutSlot, CutKey, HasSpaceFor, Size, Fits, SetKid, InsertEntry,
           LowerBound, WellFormed, SplitsUnder, OverflowsAt, Less, Kid;
      ghost var t := T();
      if allocCount >= virtCount { return Exhausted; }
      SplitStep(t, contents, allocCount, parent, node, k, splitOrdered);
      var right: Pid := allocCount;
      var left, rest := SplitLeft(pages[node], slot, sep, right), SplitRight(pages[node], slot, sep);
      allocCount := allocCount + 1;
      if !Fits(left) {
        assert OverflowsAt(T(), node, splitOrdered);
        return Overflow;
      }
      var oldParentSlot := LowerBound(pages[parent].keys, sep);
      SetKidWellFormed(pages[parent], oldParentSlot, right);
      var repointed := SetKid(pages[parent], oldParentSlot, right);
      assert WellFormed(repointed);
      var above := InsertEntry(repointed, sep, PidBytes(node));
      assert above == SplitParent(t.pages[parent], sep, node, right);
      pages := pages[parent := above];
      pages := pages[right := rest][node := left];
      OneLevelMore(level, right, level[node]);
      level := level[right := level[node]];
      assert pages == SplitTree(t, parent, node, slot, sep, right).pages;
      assert T() == SplitTree(t, parent, node, slot, sep, right);
      assert SplitsUnder(t, T(), k, parent, node, right, splitOrdered);
      return Done;
    }

    /** A new root above the old one. */
    method GrowRoot() returns (root: Pid)
      requires Valid() && allocCount < virtCount
      modifies this`pages, this`level, this`allocCount
      ensures Valid() && root == old(allocCount) && allocCount == root + 1
      ensures old(Shaped(T())) && root !in old(level) && root != META && T() == Trees.GrowRoot(old(T()), root)
      ensures root in pages && |pages[root].keys| == |pages[root].pays| && HasSpaceFor(pages[root], SHORT, 8)
      ensures Spares() == old(Spares())
    {
      hide Shaped, Tiled, Apart, Chained, Represents, Sized;
      GrowKeeps(T(), contents, allocCount);
      FreshPage(T(), contents, allocCount);
      MetaOnPath(T(), []);
      root := allocCount;
      allocCount := allocCount + 1;
      OneLevelMore(level, root, level[META]);
      SameLevels(level[root := level[META]], META, level[META] + 1);
      level := level[root := level[META]][META := level[META] + 1];
      pages := pages[root := Node(false, [], [], [], [], pages[META].link)];
      pages := pages[META := pages[META].(link := root)];
    }

    /** `node` has to be split: done at once if the parent has room for the separator; otherwise room is
        made there, and `node` is left for the next pass. */
    method TrySplit(node: Pid, parent: Pid, ghost k: Bytes, ghost b: int) returns (o: Outcome, ghost at: Pid)
      requires Valid() && Leads(T(), parent, k, node) && OnPath(T(), node, k) && level[node] + 1 == level[parent]
      requires Splittable(pages[node], parent) && Bound(T(), k) <= b
      modifies this`pages, this`level, this`allocCount
      ensures Valid()
      ensures o.Done? ==> Advances(old(T()), T(), k, node, at, b, splitOrdered)
      ensures o.Overflow? ==> OverflowsAt(T(), node, splitOrdered) && OnPath(T(), node, k) && pages[node] == old(pages[node])
      ensures o.Exhausted? ==> allocCount >= virtCount
      ensures parent == META && old(allocCount) + 2 <= virtCount ==> !o.Exhausted?
      ensures Spares() == old(Spares()) + if o.Overflow? then 1 else 0
      decreases level[META] - level[node], 0
    {
      hide Shaped, Tiled, Apart, Chained, Represents, Small, Size, Within, FindSeparator, Separator, HasSpaceFor,
           Less, WellFormed, Advances, OverflowsAt, SplitsUnder, Prefix, Leads, GetSep;
      ghost var t := T();
      at := node;
      var p := parent;
      assert SizedPage(t, node);
      if parent == META {
        if allocCount >= virtCount { return Exhausted, node; }
        RootOnly(t, node, k);
        p := GrowRoot();
        GrownLeads(t, p, k);
        NewRootRoom(T(), node, pages[p], splitOrdered);
      }
      LeadsLevels(T(), p, k, node);
      CutsFact(T(), p, node, k);
      SepInRange(pages[node], splitOrdered);
      var info := FindSeparator(pages[node], splitOrdered);
      var sep := GetSep(pages[node], info);
      SepIsCut(T(), node, splitOrdered);
      if HasSpaceFor(pages[p], |sep|, 8) {
        ghost var g := T();
        o := SplitNode(node, p, info.slot, sep, k);
        if o.Done? {
          ghost var r :| SplitsUnder(g, T(), k, p, node, r, splitOrdered);
          if parent == META {
            RootAdvances(t, T(), k, p, node, r, b, splitOrdered);
          } else {
            UnderAdvances(t, T(), k, p, node, r, b, splitOrdered);
          }
        }
      } else {
        SepOnPath(t, p, node, k, splitOrdered);
        MetaTop(t, p);
        LeadsOnPath(t, p, k, node);
        o, at := EnsureSpace(p, sep, k, b);
        if o.Done? { AboveAdvances(t, T(), k, node, p, at, b, splitOrdered); }
      }
    }

    /** Makes room in `toSplit` for a separator: nothing to do if it has room, otherwise one split, at
        `toSplit` or above. */
    method EnsureSpace(toSplit: Pid, key: Bytes, ghost k: Bytes, ghost b: int) returns (o: Outcome, ghost at: Pid)
      requires Valid() && toSplit != META && OnPath(T(), toSplit, key) && OnPath(T(), toSplit, k)
      requires level[toSplit] > 0 && |key| <= SHORT && Bound(T(), k) <= b
      requires |pages[toSplit].keys| == |pages[toSplit].pays|
      modifies this`pages, this`level, this`allocCount
      ensures Valid()
      ensures old(HasSpaceFor(pages[toSplit], |key|, 8)) ==> o.Done? && T() == old(T())
      ensures o.Done? && !old(HasSpaceFor(pages[toSplit], |key|, 8)) ==>
        Advances(old(T()), T(), k, toSplit, at, b, splitOrdered)
      ensures !o.Overflow?
      ensures o.Exhausted? ==> allocCount >= virtCount
      ensures Spares() == old(Spares())
      decreases level[META] - level[toSplit], 1
    {
      hide Shaped, Tiled, Apart, Chained, Represents, Small, Size, HasSpaceFor, Less, WellFormed, Advances,
           CutSlot, CutKey, Prefix, Leads;
      ghost var t := T();
      var parent, node, pos := Descend(key, Some(toSplit));
      if HasSpaceFor(pages[node], |key|, 8) { return Done, node; }
      FullSplittable(t, node, parent, key, |key|, 8);
      LeadsLevels(t, parent, key, node);
      MetaTop(t, parent);
      RouteShares(t, parent, node, key, k);
      o, at := TrySplit(node, parent, k, b);
    }

    /** Inserts a key that is not in the tree yet. */
    method Insert(key: Bytes, payload: Bytes) returns (o: Outcome)
      requires Valid() && key != [] && key !in contents && |key| <= SHORT && |key| + |payload| <= MAX_KV
      modifies this`pages, this`level, this`allocCount, this`contents
      ensures Valid()
      ensures contents == if o.Done? then old(contents)[key := payload] else old(contents)
      ensures o.Overflow? ==> Stuck(T(), key, |payload|, splitOrdered)
      ensures old(Stuck(T(), key, |payload|, splitOrdered)) ==> !o.Done?
      ensures old(Stuck(T(), key, |payload|, splitOrdered)) && old(level[META]) == 1 && old(allocCount) + 2 <= virtCount ==> o.Overflow?
      ensures o.Exhausted? ==> allocCount >= virtCount
      ensures Spares() == old(Spares()) + if o.Overflow? then 1 else 0
      ensures old(RoomFor(T(), key, |payload|)) ==> o.Done? && PutOnly(old(T()), T(), key, payload)
    {
      hide Shaped, Tiled, Apart, Chained, Represents, Small, Size, Less, Stuck, Prefix, Leads, InsertEntry, Advances, RoomFor,
           SplitsAt, NoRoomBelow, Within, HasSpaceFor, OverflowsAt;
      ghost var b := Bound(T(), key);
      ghost var stuck := Stuck(T(), key, |payload|, splitOrdered);
      ghost var room := RoomFor(T(), key, |payload|);
      MetaOnPath(T(), key);
      ghost var alone := level[META] == 1 && allocCount + 2 <= virtCount;
      while true
        invariant Valid() && contents == old(contents) && Bound(T(), key) <= b
        invariant stuck ==> Stuck(T(), key, |payload|, splitOrdered)
        invariant stuck && alone ==> T() == old(T()) && allocCount == old(allocCount)
        invariant Spares() == old(Spares()) && (room ==> T() == old(T()))
        decreases Distance(T(), key, b)
      {
        DistanceNotNegative(T(), key, b);
        var parent, node, pos := Descend(key, None);
        ghost var t := T();
        StuckLeaf(t, key, |payload|, node, splitOrdered);
        RoomAt(t, key, |payload|, node);
        if HasSpaceFor(pages[node], |key|, |payload|) {
          PutKeeps(T(), contents, allocCount, node, key, payload);
          pages := pages[node := InsertEntry(pages[node], key, payload)];
          contents := contents[key := payload];
          assert T() == Store(t, node, InsertEntry(t.pages[node], key, payload));
          return Done;
        }
        FullSplittable(T(), node, parent, key, |key|, |payload|);
        ghost var at;
        LeadsLevels(t, parent, key, node);
        MetaTop(t, parent);
        ghost var last := parent == META && allocCount + 2 <= virtCount;
        assert stuck && alone ==> last;
        o, at := TrySplit(node, parent, key, b);
        if !o.Done? {
          if o.Overflow? { StuckNow(T(), key, |payload|, node, splitOrdered); }
          return;
        }
        AdvanceMeans(t, T(), key, node, at, b, splitOrdered);
        if stuck { StuckGoesOn(t, T(), key, |payload|, node, at, b, splitOrdered); }
      }
    }

    /** Merges the right neighbour `right` into `node`, its left sibling at slot `pos` of `parent`, unless
        the space bound says no. */
    method MergeNodes(node: Pid, pos: nat, parent: Pid, right: Pid) returns (ok: bool)
      requires Valid() && MergePair(T(), parent, pos, node, right)
      modifies this`pages, this`level
      ensures Valid()
      ensures ok <==> SpaceUpperBound(old(pages[node]), old(pages[right])) <= PAGE_SIZE
      ensures if ok then T() == MergeTree(old(T()), parent, pos) && level == old(level) - {right} else T() == old(T())
    {
      hide Sound, Represents, Sized, SpaceUpperBound, WellFormed, MergeParent, MergeLeaves, Kid, Less;
      if SpaceUpperBound(pages[node], pages[right]) > PAGE_SIZE { return false; }
      MergeKeeps(T(), contents, allocCount, parent, pos);
      ghost var t := T();
      var merged, above := MergeLeaves(pages[node], pages[right]), MergeParent(pages[parent], pos, node);
      pages := pages[parent := above];
      pages := pages[node := merged];
      level := level - {right};
      assert pages == MergeTree(t, parent, pos).pages;
      return true;
    }

    /** Removes a key; `merged` tells whether the right neighbour was merged in on the way. */
    method Remove(key: Bytes) returns (found: bool, merged: bool)
      requires Valid()
      modifies this`pages, this`level, this`contents
      ensures Valid() && found == (key in old(contents)) && contents == old(contents) - {key}
      ensures merged <==> found && old(MergeDue(T(), key))
      ensures found ==> exists p, c :: RemovedWell(old(T()), T(), p, c, key, merged)
      ensures !found ==> T() == old(T())
      ensures !merged ==> level == old(level)
      ensures merged ==> exists r :: r in old(level) && old(level[r]) == 0 && level == old(level) - {r}
    {
      hide Shaped, Tiled, Apart, Chained, Represents, Small, Size, Less, Prefix, Within, SpaceUpperBound, RemoveAt,
           WorthMerging;
      ghost var t := T();
      merged := false;
      var parent, node, pos := Descend(key, None);
      LeafFact(t, contents, node, key);
      FoundIffMember(pages[node].keys, key);
      found := Found(pages[node].keys, key);
      if !found {
        NotThere(contents, key);
        return;
      }
      WorthMeans(t, parent, node, key);
      var slot := LowerBound(pages[node].keys, key);
      var sizeEntry := |pages[node].keys[slot]| - Prefix(pages[node]) + |pages[node].pays[slot]|;
      DelKeeps(t, contents, allocCount, node, key);
      if Room(pages[node]) + sizeEntry >= UNDER_FULL && parent != META && |pages[parent].keys| >= 2
          && pos + 1 < |pages[parent].keys| {
        var right := Kid(pages[parent], pos + 1);
        MergeMeans(t, parent, node, key);
        pages := pages[node := RemoveAt(pages[node], slot)];
        contents := contents - {key};
        if Room(pages[right]) >= PAGE_SIZE - UNDER_FULL {
          merged := MergeNodes(node, pos, parent, right);
        }
      } else {
        MergeOnly(t, parent, node, key);
        pages := pages[node := RemoveAt(pages[node], slot)];
        contents := contents - {key};
      }
      assert RemovedWell(t, T(), parent, node, key, merged);
    }

    /** Visits the entries from `key` upwards until the callback has been called `want` times. */
    method ScanAsc(key: Bytes, want: nat) returns (out: seq<Entry>)
      requires Valid() && want > 0
      ensures AscendingFrom(contents, key, want, out)
    {
      hide Keeps, Sound, Represents, Passed, AscState, AscendingFrom, LowerBound, Leads, Inner, WellFormed;
      ghost var t, m := T(), contents;
      KeepsTree(t, m, allocCount);
      var parent, node, slot := Descend(key, None);
      NodeSorted(t, node);
      var p: nat := LowerBound(pages[node].keys, key);
      AscStart(t, m, key, node);
      out := [];
      ghost var visited: set<Pid> := {};
      while true
        invariant node in pages && p <= |pages[node].keys| && |out| < want
        invariant AscState(t, m, key, node, p, out, visited)
        decreases |pages.Keys - visited|, |pages[node].keys| - p
      {
        AscShape(t, m, key, node, p, out, visited);
        if p < |pages[node].keys| {
          AscVisit(t, m, key, node, p, out, visited);
          out := out + [(pages[node].keys[p], pages[node].pays[p])];
          p := p + 1;
          if |out| == want {
            AscDone(t, m, key, node, p, out, visited, want);
            return;
          }
        } else {
          if pages[node].link == NO_NEIGHBOUR {
            AscDone(t, m, key, node, p, out, visited, want);
            return;
          }
          AscNext(t, m, key, node, out, visited);
          Fewer(pages.Keys, visited, node);
          visited := visited + {node};
          p := 0;
          node := pages[node].link;
          AscShape(t, m, key, node, p, out, visited);
        }
      }
    }

    /** Visits the entries from `key` downwards: the scan calls back for every slot, starting at the lower
        bound, and the adapter ignores the first call unless the key was found there or was past the leaf. */
    method ScanDesc(key: Bytes, want: nat) returns (out: seq<Entry>)
      requires Valid() && want > 0
      ensures DescendingFrom(contents, key, want, out)
    {
      hide Keeps, Sound, Represents, PassedDown, DescState, DescendingFrom, Leads, Inner, WellFormed, Less;
      ghost var t, m := T(), contents;
      KeepsTree(t, m, allocCount);
      var parent, node, slot := Descend(key, None);
      NodeSorted(t, node);
      var pos: int := LowerBound(pages[node].keys, key);
      var exactMatch := Found(pages[node].keys, key);
      FirstDown(pages[node], key);
      if pos == |pages[node].keys| {
        pos := pos - 1;
        exactMatch := true;
      }
      var first := true;
      DescStart(t, m, key, node, if exactMatch then pos else pos - 1);
      out := [];
      ghost var visited: set<Pid> := {};
      while true
        invariant node in pages && -1 <= pos < |pages[node].keys| && |out| < want
        invariant first && !exactMatch ==> pos >= 0
        invariant DescState(t, m, key, node, if first && !exactMatch then pos - 1 else pos, out, visited)
        decreases |pages.Keys - visited|, pos + 1
      {
        DescShape(t, m, key, node, if first && !exactMatch then pos - 1 else pos, out, visited);
        if pos >= 0 {
          if first && !exactMatch {
            first := false;
          } else {
            first := false;
            DescVisit(t, m, key, node, pos, out, visited);
            out := out + [(pages[node].keys[pos], pages[node].pays[pos])];
            if |out| == want {
              DescDone(t, m, key, node, pos - 1, out, visited, want);
              return;
            }
          }
          pos := pos - 1;
        } else {
          if pages[node].lo == [] {
            DescDone(t, m, key, node, pos, out, visited, want);
            return;
          }
          var above, next, at := Descend(pages[node].lo, None);
          DescNext(t, m, key, node, next, out, visited);
          Fewer(pages.Keys, visited, node);
          visited := visited + {node};
          node := next;
          pos := |pages[node].keys| - 1;
        }
      }
    }
  }
}
