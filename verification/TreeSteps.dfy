/** The changes a sequential tree makes, with page space: each keeps every invariant, and the ones an
    unfinished insert makes bring it closer to its end. */
module TreeSteps {
  import opened Keys
  import opened Nodes
  import opened Spaces
  import opened Trees

  predicate Sized(t: Tree) {
    t.level.Keys <= t.pages.Keys && forall p | p in t.level :: SizedPage(t, p)
  }

  predicate SizedPage(t: Tree, p: Pid)
    requires p in t.pages
  {
    Small(t.pages[p], SHORT) && Fits(t.pages[p])
  }

  /** Everything the tree keeps between calls. */
  ghost predicate Keeps(t: Tree, m: map<Bytes, Bytes>, allocCount: nat) {
    Sound(t) && Represents(t, m) && Sized(t) && forall p | p in t.pages :: p < allocCount
  }

  /** `p` is on the way to `k`. */
  predicate OnPath(t: Tree, p: Pid, k: Bytes) {
    p in t.level && p in t.pages && Within(k, t.pages[p].lo, t.pages[p].hi)
  }

  /** `k` is looked for in `p`, whose child `c` it leads to. */
  predicate Leads(t: Tree, p: Pid, k: Bytes, c: Pid) {
    OnPath(t, p, k) && t.level[p] > 0 && Inner(t.pages[p]) && Route(t.pages[p], k) == c
  }

  lemma MetaOnPath(t: Tree, k: Bytes)
    requires Sound(t)
    ensures OnPath(t, META, k)
  {
    hide Tiled, Apart, Chained, WellFormed;
  }

  lemma Below(t: Tree, p: Pid, k: Bytes)
    requires Sound(t) && OnPath(t, p, k) && t.level[p] > 0
    ensures Inner(t.pages[p]) && OnPath(t, Route(t.pages[p], k), k)
    ensures t.level[Route(t.pages[p], k)] + 1 == t.level[p] && Leads(t, p, k, Route(t.pages[p], k))
    ensures Route(t.pages[p], k) != META
  {
    hide Tiled, Apart, Chained, Within, Kid;
    RouteFits(t, p, k);
  }

  lemma PathUnique(t: Tree, p: Pid, q: Pid, k: Bytes)
    requires Sound(t) && OnPath(t, p, k) && OnPath(t, q, k) && t.level[p] == t.level[q]
    ensures p == q
  {
    hide Within, Tiled, Apart, Chained;
    CoverUnique(t, p, q, k);
  }

  lemma LeafFact(t: Tree, m: map<Bytes, Bytes>, p: Pid, k: Bytes)
    requires Sound(t) && Represents(t, m) && OnPath(t, p, k) && t.level[p] == 0
    ensures IsLeaf(t, p) && WellFormed(t.pages[p]) && t.pages[p].leaf
    ensures Get(t.pages[p], k) == Lookup(m, k)
    ensures k in m <==> k in t.pages[p].keys
    ensures k in m ==> LowerBound(t.pages[p].keys, k) < |t.pages[p].keys|
    ensures k in m ==> t.pages[p].keys[LowerBound(t.pages[p].keys, k)] == k
    ensures k in m ==> t.pages[p].pays[LowerBound(t.pages[p].keys, k)] == m[k]
  {
    hide Tiled, Apart, Chained, Less, Within;
    FoundIffMember(t.pages[p].keys, k);
  }

  // ----- one entry -----

  lemma StoreSized(t: Tree, p: Pid, n: Node)
    requires Sized(t) && p in t.level && Small(n, SHORT) && Fits(n)
    ensures Sized(Store(t, p, n))
  {
    hide Small, Fits;
    assert forall q | q in t.level :: SizedPage(t, q);
  }

  lemma PutKeeps(t: Tree, m: map<Bytes, Bytes>, alloc: nat, p: Pid, k: Bytes, v: Bytes)
    requires Keeps(t, m, alloc) && OnPath(t, p, k) && t.level[p] == 0
    requires WellFormed(t.pages[p]) && k != [] && k !in m && |k| <= SHORT && |k| + |v| <= MAX_KV
    requires HasSpaceFor(t.pages[p], |k|, |v|)
    ensures Keeps(Store(t, p, InsertEntry(t.pages[p], k, v)), m[k := v], alloc)
  {
    hide Sound, Represents, Within, Get, Size, Less;
    LeafFact(t, m, p, k);
    var n := t.pages[p];
    assert SizedPage(t, p);
    InsertWellFormed(n, k, v);
    forall x ensures Get(InsertEntry(n, k, v), x) == if x == k then Some(v) else Get(n, x) { InsertGet(n, k, v, x); }
    LeafWrite(t, m, p, InsertEntry(n, k, v), k, m[k := v]);
    InsertSize(n, k, v);
    StoreSized(t, p, InsertEntry(n, k, v));
  }

  lemma SetKeeps(t: Tree, m: map<Bytes, Bytes>, alloc: nat, p: Pid, k: Bytes, v: Bytes)
    requires Keeps(t, m, alloc) && OnPath(t, p, k) && t.level[p] == 0
    requires WellFormed(t.pages[p]) && k in m && |v| == |m[k]|
    ensures var i := LowerBound(t.pages[p].keys, k);
      i < |t.pages[p].keys| && Keeps(Store(t, p, SetPay(t.pages[p], i, v)), m[k := v], alloc)
  {
    hide Sound, Represents, Within, Get, Size, Less, LowerBound;
    LeafFact(t, m, p, k);
    var n, i := t.pages[p], LowerBound(t.pages[p].keys, k);
    assert SizedPage(t, p);
    SetPayGet(n, i, v, k);
    forall x ensures Get(SetPay(n, i, v), x) == if x == k then Some(v) else Get(n, x) { SetPayGet(n, i, v, x); }
    LeafWrite(t, m, p, SetPay(n, i, v), k, m[k := v]);
    SetPaySize(n, i, v);
    StoreSized(t, p, SetPay(n, i, v));
  }

  lemma DelKeeps(t: Tree, m: map<Bytes, Bytes>, alloc: nat, p: Pid, k: Bytes)
    requires Keeps(t, m, alloc) && OnPath(t, p, k) && t.level[p] == 0
    requires WellFormed(t.pages[p]) && k in m
    ensures var i := LowerBound(t.pages[p].keys, k);
      i < |t.pages[p].keys| && Keeps(Store(t, p, RemoveAt(t.pages[p], i)), m - {k}, alloc)
  {
    hide Sound, Represents, Within, Get, Size, Less, LowerBound;
    LeafFact(t, m, p, k);
    var n, i := t.pages[p], LowerBound(t.pages[p].keys, k);
    assert SizedPage(t, p);
    RemoveWellFormed(n, i);
    forall x ensures Get(RemoveAt(n, i), x) == if x == k then None else Get(n, x) { RemoveGet(n, i, x); }
    LeafWrite(t, m, p, RemoveAt(n, i), k, m - {k});
    RemoveSize(n, i);
    EntryNotNegative(n, i);
    StoreSized(t, p, RemoveAt(n, i));
  }

  lemma EntryNotNegative(n: Node, i: nat)
    requires WellFormed(n) && i < |n.keys|
    ensures Prefix(n) <= |n.keys[i]|
  {
    PrefixCarried(n);
  }

  // ----- growing and splitting -----

  lemma GrowSized(t: Tree, r: Pid)
    requires Sound(t) && Sized(t)
    ensures Sized(GrowRoot(t, r)) && SizedPage(GrowRoot(t, r), r) && HasSpaceFor(GrowRoot(t, r).pages[r], SHORT, 8)
  {
    hide Tiled, Apart, Chained, WellFormed, Small, Fits;
    FreshRoomy(t.pages[META].link);
    FreshRoomy(r);
    var u := GrowRoot(t, r);
    forall p | p in u.level ensures SizedPage(u, p) {
      if p == META {
        assert SizedPage(t, META);
        LinkOnly(t.pages[META], r);
      } else if p != r {
        assert SizedPage(t, p);
      }
    }
  }

  lemma GrowKeeps(t: Tree, m: map<Bytes, Bytes>, alloc: nat)
    requires Keeps(t, m, alloc) && alloc < NO_NEIGHBOUR
    ensures Keeps(GrowRoot(t, alloc), m, alloc + 1)
    ensures SizedPage(GrowRoot(t, alloc), alloc) && HasSpaceFor(GrowRoot(t, alloc).pages[alloc], SHORT, 8)
  {
    hide Tiled, Apart, Chained, Represents, WellFormed, Sized, SizedPage, HasSpaceFor;
    GrowRootSound(t, m, alloc);
    GrowSized(t, alloc);
  }

  lemma FreshRoomy(link: Pid)
    ensures var n := Node(false, [], [], [], [], link); Small(n, SHORT) && Fits(n) && HasSpaceFor(n, SHORT, 8)
  {
  }

  lemma LinkOnly(n: Node, link: Pid)
    requires Small(n, SHORT) && Fits(n)
    ensures Small(n.(link := link), SHORT) && Fits(n.(link := link))
  {
  }

  lemma LeafKeyInMap(t: Tree, m: map<Bytes, Bytes>, c: Pid, i: nat)
    requires Sound(t) && Represents(t, m) && IsLeaf(t, c) && WellFormed(t.pages[c]) && i < |t.pages[c].keys|
    ensures t.pages[c].keys[i] in m && m[t.pages[c].keys[i]] == t.pages[c].pays[i]
  {
    hide Tiled, Apart, Chained, Less;
    var k := t.pages[c].keys[i];
    KeyAtSlot(t.pages[c], i);
    assert Within(k, t.pages[c].lo, t.pages[c].hi);
    assert Get(t.pages[c], k) == Some(t.pages[c].pays[i]);
    assert Get(t.pages[c], k) == Lookup(m, k);
  }

  lemma LeafTame(t: Tree, m: map<Bytes, Bytes>, c: Pid)
    requires Sound(t) && Represents(t, m) && IsLeaf(t, c) && WellFormed(t.pages[c]) && TameKeys(m.Keys)
    ensures var keys := t.pages[c].keys; forall i | 0 <= i < |keys| - 1 :: Tame(keys[i], keys[i + 1])
  {
    hide Represents, Tiled, Apart, Chained, Tame, Less, Within;
    var keys := t.pages[c].keys;
    forall i | 0 <= i < |keys| - 1 ensures Tame(keys[i], keys[i + 1]) {
      LeafKeyInMap(t, m, c, i);
      LeafKeyInMap(t, m, c, i + 1);
      assert Less(keys[i], keys[i + 1]);
    }
  }

  lemma KeyAtSlot(n: Node, i: nat)
    requires WellFormed(n) && i < |n.keys|
    ensures LowerBound(n.keys, n.keys[i]) == i
  {
    Trichotomy(n.keys[i], n.keys[i]);
    if i > 0 { assert Less(n.keys[i - 1], n.keys[i]); }
    LowerBoundUnique(n.keys, n.keys[i], i);
  }

  /** How `c`, a child of `p`, is cut: by its own separator. */
  predicate Cuts(t: Tree, p: Pid, c: Pid) {
    && Sound(t) && p in t.level && c in t.level && t.level[c] + 1 == t.level[p] && p != META
    && WellFormed(t.pages[c]) && |t.pages[c].keys| > (if t.pages[c].leaf then 1 else 0)
  }

  function CutSlot(t: Tree, c: Pid, ordered: bool): nat
    requires c in t.pages && WellFormed(t.pages[c]) && |t.pages[c].keys| > (if t.pages[c].leaf then 1 else 0)
  {
    FindSeparator(t.pages[c], ordered).slot
  }

  function CutKey(t: Tree, c: Pid, ordered: bool): Bytes
    requires c in t.pages && WellFormed(t.pages[c]) && |t.pages[c].keys| > (if t.pages[c].leaf then 1 else 0)
  {
    Separator(t.pages[c], ordered)
  }

  /** The last key of an inner node of a tree is below its upper fence. */
  lemma LastBelowFence(t: Tree, c: Pid)
    requires Sound(t) && IsInner(t, c) && |t.pages[c].keys| > 0 && t.pages[c].hi != []
    ensures Less(t.pages[c].keys[|t.pages[c].keys| - 1], t.pages[c].hi)
  {
    hide Tiled, Apart, Chained, Less;
    KidFact(t, c, |t.pages[c].keys|);
  }

  lemma CutReady(t: Tree, p: Pid, c: Pid, k: Bytes, ordered: bool, r: Pid)
    requires Cuts(t, p, c) && Leads(t, p, k, c) && r !in t.level && r != NO_NEIGHBOUR
    ensures CutSlot(t, c, ordered) < |t.pages[c].keys|
    ensures CanSplit(t, p, c, CutSlot(t, c, ordered), CutKey(t, c, ordered), r)
    ensures |CutKey(t, c, ordered)| <= |t.pages[c].keys[CutSlot(t, c, ordered)]|
    ensures Within(CutKey(t, c, ordered), t.pages[c].lo, t.pages[c].hi)
    ensures Leads(t, p, CutKey(t, c, ordered), c)
  {
    hide Apart, Chained, Less, WellFormed, Within, FindSeparator, GetSep, GoodCut, Kid, Slot, KidLo, KidHi;
    CutGood(t, p, c, ordered);
    var slot, sep := CutSlot(t, c, ordered), CutKey(t, c, ordered);
    CutWithin(t.pages[c], slot, sep);
    RouteShares(t, p, c, k, sep);
  }

  /** Two keys in the range of one child are routed alike. */
  lemma RouteShares(t: Tree, p: Pid, c: Pid, k: Bytes, sep: Bytes)
    requires Sound(t) && Leads(t, p, k, c) && c in t.level && c in t.pages && Within(sep, t.pages[c].lo, t.pages[c].hi)
    requires t.level[c] + 1 == t.level[p]
    ensures Leads(t, p, sep, c)
  {
    hide Tiled, Apart, Chained, Less, WellFormed;
    InnerFact(t, p);
    KidFact(t, p, Slot(t.pages[p], k));
    hide Kid, Slot, Within;
    RouteBack(t, p, Slot(t.pages[p], k), sep);
    KidWithin(t, p, Slot(t.pages[p], k), sep);
  }

  lemma InnerFact(t: Tree, p: Pid)
    requires Sound(t) && p in t.level && t.level[p] > 0
    ensures IsInner(t, p) && Inner(t.pages[p])
  {
    hide Tiled, Apart, Chained, Sorted, Within;
  }

  lemma KidWithin(t: Tree, p: Pid, i: nat, k: Bytes)
    requires Sound(t) && IsInner(t, p) && i <= |t.pages[p].keys| && Kid(t.pages[p], i) in t.pages
    requires Within(k, t.pages[Kid(t.pages[p], i)].lo, t.pages[Kid(t.pages[p], i)].hi)
    ensures Within(k, t.pages[p].lo, t.pages[p].hi)
  {
    hide Tiled, Apart, Chained, Less;
    KidFact(t, p, i);
    var n, c := t.pages[p], t.pages[Kid(t.pages[p], i)];
    KidBounds(n, i);
    Chain(n.lo, c.lo, k);
    Chain(k, c.hi, n.hi);
    Trichotomy(k, n.hi);
  }

  lemma CutGood(t: Tree, p: Pid, c: Pid, ordered: bool)
    requires Cuts(t, p, c)
    ensures CutSlot(t, c, ordered) < |t.pages[c].keys|
    ensures GoodCut(t.pages[c], CutSlot(t, c, ordered), CutKey(t, c, ordered))
    ensures |CutKey(t, c, ordered)| <= |t.pages[c].keys[CutSlot(t, c, ordered)]|
  {
    hide Tiled, Apart, Chained, Less, Sorted, Within, FindSeparator, GetSep;
    var n := t.pages[c];
    if !n.leaf && n.hi != [] { LastBelowFence(t, c); }
    SeparatorCuts(n, ordered);
    SepInRange(n, ordered);
    SepIsKeyPrefix(n, FindSeparator(n, ordered));
  }

  lemma SmallHalves(n: Node, slot: nat, sep: Bytes, right: Pid)
    requires GoodCut(n, slot, sep) && Small(n, SHORT) && |sep| <= SHORT
    ensures Small(SplitLeft(n, slot, sep, right), SHORT) && Small(SplitRight(n, slot, sep), SHORT)
  {
    hide Less, Sorted, Kid;
  }

  lemma ParentSized(p: Node, sep: Bytes, left: Pid, right: Pid)
    requires Inner(p) && Small(p, SHORT) && |sep| <= SHORT && HasSpaceFor(p, |sep|, 8)
    requires sep != [] && Within(sep, p.lo, p.hi) && sep !in p.keys
    ensures Small(SplitParent(p, sep, left, right), SHORT) && Fits(SplitParent(p, sep, left, right))
  {
    hide Less, Within, Size, Sorted, Prefix;
    var j := Slot(p, sep);
    SetKidWellFormed(p, j, right);
    if j < |p.keys| { SetPaySize(p, j, PidBytes(right)); } else { LinkSize(p, right); }
    InsertSize(SetKid(p, j, right), sep, PidBytes(left));
    PrefixByFences(p, SetKid(p, j, right));
  }

  lemma LinkSize(n: Node, link: Pid)
    requires |n.keys| == |n.pays|
    ensures Size(n.(link := link)) == Size(n)
  {
  }

  lemma PrefixByFences(a: Node, b: Node)
    requires a.lo == b.lo && a.hi == b.hi
    ensures Prefix(a) == Prefix(b)
  {
  }

  lemma SplitSized(t: Tree, p: Pid, c: Pid, r: Pid, ordered: bool)
    requires Sized(t) && Cuts(t, p, c)
    requires CanSplit(t, p, c, CutSlot(t, c, ordered), CutKey(t, c, ordered), r)
    requires |t.pages[p].keys| == |t.pages[p].pays| && HasSpaceFor(t.pages[p], |CutKey(t, c, ordered)|, 8)
    requires var left := SplitLeft(t.pages[c], CutSlot(t, c, ordered), CutKey(t, c, ordered), r);
      |left.keys| == |left.pays| && Fits(left)
    ensures Sized(SplitTree(t, p, c, CutSlot(t, c, ordered), CutKey(t, c, ordered), r))
  {
    hide Sound, WellFormed, Less, Small, Fits, Size, GoodCut, SplitLeft, SplitRight, SplitParent, CutSlot, CutKey,
         Within, Route, HasSpaceFor, Inner;
    CutGood(t, p, c, ordered);
    var slot, sep := CutSlot(t, c, ordered), CutKey(t, c, ordered);
    SplitFacts(t, p, c, slot, sep, r);
    InnerFact(t, p);
    assert SizedPage(t, c) && SizedPage(t, p);
    SmallKey(t.pages[c], slot, sep);
    SmallHalves(t.pages[c], slot, sep, r);
    RightFits(t.pages[c], slot, sep);
    ParentSized(t.pages[p], sep, c, r);
    var u := SplitTree(t, p, c, slot, sep, r);
    forall q | q in u.level ensures SizedPage(u, q) {
      if q != c && q != p && q != r { assert SizedPage(t, q); }
    }
  }

  /** Splitting `c` under a parent with room, when the left half fits, keeps everything. */
  lemma SplitKeeps(t: Tree, m: map<Bytes, Bytes>, alloc: nat, p: Pid, c: Pid, k: Bytes, ordered: bool)
    requires Keeps(t, m, alloc) && alloc < NO_NEIGHBOUR && Cuts(t, p, c) && Leads(t, p, k, c)
    requires HasSpaceFor(t.pages[p], |CutKey(t, c, ordered)|, 8)
    requires Fits(SplitLeft(t.pages[c], CutSlot(t, c, ordered), CutKey(t, c, ordered), alloc))
    ensures CanSplit(t, p, c, CutSlot(t, c, ordered), CutKey(t, c, ordered), alloc)
    ensures Keeps(SplitTree(t, p, c, CutSlot(t, c, ordered), CutKey(t, c, ordered), alloc), m, alloc + 1)
  {
    hide Tiled, Apart, Chained, Represents, Fits, GoodCut, SplitRight, SplitParent, CutSlot, CutKey, Within,
         Route, HasSpaceFor, Inner, Sized, Sorted, Less;
    CutReady(t, p, c, k, ordered, alloc);
    SplitSound(t, m, p, c, CutSlot(t, c, ordered), CutKey(t, c, ordered), alloc);
    SplitSized(t, p, c, alloc, ordered);
  }

  lemma SmallKey(n: Node, slot: nat, sep: Bytes)
    requires Small(n, SHORT) && slot < |n.keys| && |sep| <= |n.keys[slot]|
    ensures |sep| <= SHORT
  {
  }

  // ----- how far an insert is from its end -----

  /** Entries on the way from `p` to `k`, an entry at level `l` weighing `b - a * l`. */
  ghost function Weight(t: Tree, p: Pid, k: Bytes, a: int, b: int): int
    requires Sound(t) && OnPath(t, p, k)
    decreases t.level[p]
  {
    (b - a * t.level[p]) * |t.pages[p].keys| +
    if t.level[p] == 0 then 0
    else
      Below(t, p, k);
      Weight(t, Route(t.pages[p], k), k, a, b)
  }

  lemma {:induction false} WeightNotNegative(t: Tree, p: Pid, k: Bytes, a: int, b: int)
    requires Sound(t) && OnPath(t, p, k) && a >= 0 && a * t.level[p] <= b
    ensures Weight(t, p, k, a, b) >= 0
    decreases t.level[p]
  {
    NonNegative(b - a * t.level[p], |t.pages[p].keys|);
    if t.level[p] > 0 {
      Below(t, p, k);
      NonNegative(a, 1);
      assert a * t.level[p] == a * (t.level[p] - 1) + a;
      WeightNotNegative(t, Route(t.pages[p], k), k, a, b);
    }
  }

  /** Pages below the split are on the way as before. */
  lemma {:induction false} WeightBelow(t: Tree, p: Pid, c: Pid, slot: nat, sep: Bytes, r: Pid, q: Pid, k: Bytes,
                                       a: int, b: int)
    requires CanSplit(t, p, c, slot, sep, r) && OnPath(t, q, k) && t.level[q] < t.level[c]
    requires Sound(SplitTree(t, p, c, slot, sep, r))
    ensures var u := SplitTree(t, p, c, slot, sep, r);
      OnPath(u, q, k) && Weight(u, q, k, a, b) == Weight(t, q, k, a, b)
    decreases t.level[q]
  {
    hide Sound, GoodCut, SplitLeft, SplitRight, SplitParent, Within, Inner, Route;
    var u := SplitTree(t, p, c, slot, sep, r);
    assert q != p && q != c && q != r && u.pages[q] == t.pages[q] && u.level[q] == t.level[q];
    assert OnPath(u, q, k);
    if t.level[q] > 0 {
      Below(t, q, k);
      Below(u, q, k);
      WeightBelow(t, p, c, slot, sep, r, Route(t.pages[q], k), k, a, b);
    }
  }

  /** The half of `c` that is on the way to `k` after the split. */
  function Half(c: Pid, sep: Bytes, r: Pid, k: Bytes): Pid {
    if Less(sep, k) then r else c
  }

  lemma HalfFacts(t: Tree, p: Pid, c: Pid, slot: nat, sep: Bytes, r: Pid, k: Bytes)
    requires CanSplit(t, p, c, slot, sep, r) && OnPath(t, c, k)
    requires Sound(SplitTree(t, p, c, slot, sep, r))
    ensures var u := SplitTree(t, p, c, slot, sep, r);
      OnPath(u, Half(c, sep, r, k), k) && u.level[Half(c, sep, r, k)] == t.level[c]
    ensures var h := SplitTree(t, p, c, slot, sep, r).pages[Half(c, sep, r, k)];
      |h.keys| == if Less(sep, k) then |t.pages[c].keys| - slot - 1 else Kept(t.pages[c], slot)
  {
    hide Sound, Less, SplitParent, WellFormed, Kid, Sorted, Inner;
    SplitFacts(t, p, c, slot, sep, r);
    Trichotomy(sep, k);
  }

  lemma HalfRoutes(n: Node, slot: nat, sep: Bytes, r: Pid, k: Bytes)
    requires GoodCut(n, slot, sep) && !n.leaf && Within(k, n.lo, n.hi)
    requires WellFormed(SplitLeft(n, slot, sep, r)) && WellFormed(SplitRight(n, slot, sep))
    ensures !Less(sep, k) ==> Route(SplitLeft(n, slot, sep, r), k) == Route(n, k)
    ensures Less(sep, k) ==> Route(SplitRight(n, slot, sep), k) == Route(n, k)
  {
    hide Less, Kid;
    var j := Slot(n, k);
    var l, rt := SplitLeft(n, slot, sep, r), SplitRight(n, slot, sep);
    SplitKids(n, slot, sep, r);
    if Less(sep, k) {
      Trichotomy(sep, k);
      LowerBoundUnique(rt.keys, k, j - (slot + 1));
    } else {
      LowerBoundUnique(l.keys, k, j);
    }
  }

  lemma WeightAt(t: Tree, p: Pid, c: Pid, slot: nat, sep: Bytes, r: Pid, k: Bytes, a: int, b: int)
    requires CanSplit(t, p, c, slot, sep, r) && OnPath(t, c, k)
    requires Sound(SplitTree(t, p, c, slot, sep, r))
    ensures var u, h := SplitTree(t, p, c, slot, sep, r), Half(c, sep, r, k);
      OnPath(u, h, k) && u.level[h] == t.level[c]
      && Weight(u, h, k, a, b) == Weight(t, c, k, a, b) - (b - a * t.level[c]) * (|t.pages[c].keys| - |u.pages[h].keys|)
  {
    hide Sound, SplitParent, Less, Within, Inner, Half, CanSplit, GoodCut;
    CutLevels(t, p, c, slot, sep, r);
    HalfFacts(t, p, c, slot, sep, r, k);
    var u, h := SplitTree(t, p, c, slot, sep, r), Half(c, sep, r, k);
    if t.level[c] > 0 {
      Below(t, c, k);
      Below(u, h, k);
      HalfRoutesIn(t, p, c, slot, sep, r, k);
      WeightBelow(t, p, c, slot, sep, r, Route(t.pages[c], k), k, a, b);
    }
    Spread(b - a * t.level[c], |t.pages[c].keys|, |u.pages[h].keys|);
  }

  lemma Spread(w: int, x: int, y: int)
    ensures w * y == w * x - w * (x - y)
  {
  }

  lemma HalfRoutesIn(t: Tree, p: Pid, c: Pid, slot: nat, sep: Bytes, r: Pid, k: Bytes)
    requires CanSplit(t, p, c, slot, sep, r) && OnPath(t, c, k) && t.level[c] > 0
    requires Inner(t.pages[c])
    requires var u, h := SplitTree(t, p, c, slot, sep, r), Half(c, sep, r, k); h in u.pages && Inner(u.pages[h])
    ensures var u, h := SplitTree(t, p, c, slot, sep, r), Half(c, sep, r, k);
      Route(u.pages[h], k) == Route(t.pages[c], k)
  {
    hide Sound, SplitParent, Less, Within, GoodCut, Route, SplitLeft, SplitRight, Sorted;
    CutFits(t, p, c, slot, sep, r);
    SplitWellFormed(t.pages[c], slot, sep, r);
    HalfRoutes(t.pages[c], slot, sep, r, k);
  }

  lemma CutFits(t: Tree, p: Pid, c: Pid, slot: nat, sep: Bytes, r: Pid)
    requires CanSplit(t, p, c, slot, sep, r)
    ensures c != p && r != p && c != r && p in t.pages && c in t.pages
  {
    hide Tiled, Apart, Chained, GoodCut, WellFormed, Route;
  }

  lemma ParentRoutes(t: Tree, p: Pid, c: Pid, slot: nat, sep: Bytes, r: Pid, k: Bytes)
    requires CanSplit(t, p, c, slot, sep, r) && Leads(t, p, k, c)
    requires Sound(SplitTree(t, p, c, slot, sep, r))
    ensures var u := SplitTree(t, p, c, slot, sep, r);
      Leads(u, p, k, Half(c, sep, r, k)) && |u.pages[p].keys| == |t.pages[p].keys| + 1
  {
    hide Tiled, Apart, Chained, SplitParent, Less, Within, GoodCut, SplitLeft, SplitRight, Sorted, WellFormed, Route;
    var u, h := SplitTree(t, p, c, slot, sep, r), Half(c, sep, r, k);
    Below(t, p, k);
    HalfFacts(t, p, c, slot, sep, r, k);
    SplitFacts(t, p, c, slot, sep, r);
    SplitParentKids(t.pages[p], sep, c, r);
    Below(u, p, k);
    PathUnique(u, h, Route(u.pages[p], k), k);
  }

  /** Pages above the split are on the way as before. */
  lemma {:induction false} WeightAbove(t: Tree, p: Pid, c: Pid, slot: nat, sep: Bytes, r: Pid, q: Pid, k: Bytes,
                                       a: int, b: int)
    requires CanSplit(t, p, c, slot, sep, r) && Leads(t, p, k, c) && OnPath(t, q, k) && t.level[q] >= t.level[p]
    requires Sound(SplitTree(t, p, c, slot, sep, r))
    ensures var u, h := SplitTree(t, p, c, slot, sep, r), Half(c, sep, r, k);
      OnPath(u, q, k) && h in u.pages && c in t.pages
      && Weight(u, q, k, a, b) == Weight(t, q, k, a, b) + (b - a * t.level[p])
           - (b - a * t.level[c]) * (|t.pages[c].keys| - |u.pages[h].keys|)
    decreases t.level[q]
  {
    hide Sound, GoodCut, SplitLeft, SplitRight, SplitParent, Within, Inner, Route, CanSplit, Less, Half;
    var u, h := SplitTree(t, p, c, slot, sep, r), Half(c, sep, r, k);
    CutFits(t, p, c, slot, sep, r);
    CutLevels(t, p, c, slot, sep, r);
    if t.level[q] == t.level[p] {
      PathUnique(t, p, q, k);
      ParentRoutes(t, p, c, slot, sep, r, k);
      Below(t, p, k);
      Below(u, p, k);
      WeightAt(t, p, c, slot, sep, r, k, a, b);
      OneMore(b - a * t.level[p], |t.pages[p].keys|);
    } else {
      assert q != p && q != c && q != r;
      assert OnPath(u, q, k);
      Below(t, q, k);
      Below(u, q, k);
      WeightAbove(t, p, c, slot, sep, r, Route(t.pages[q], k), k, a, b);
    }
  }

  lemma OneMore(w: int, x: int)
    ensures w * (x + 1) == w * x + w
  {
  }

  lemma CutLevels(t: Tree, p: Pid, c: Pid, slot: nat, sep: Bytes, r: Pid)
    requires CanSplit(t, p, c, slot, sep, r)
    ensures Sound(t) && c in t.level && p in t.level && t.level[c] + 1 == t.level[p] && r !in t.level
  {
    hide Sound, GoodCut, WellFormed, Route;
  }

  /** The tree's height and the entries on the way to `k`; a leaf as the root counts as one level more. */
  ghost function Bound(t: Tree, k: Bytes): int
    requires Sound(t)
  {
    MetaOnPath(t, k);
    t.level[META] + Weight(t, META, k, 0, 1) + if t.level[META] == 1 then 1 else 0
  }

  /** What is left to do for an insert of `k`, when its bound was at most `b` at the start. */
  ghost function Distance(t: Tree, k: Bytes, b: int): int
    requires Sound(t)
  {
    MetaOnPath(t, k);
    Weight(t, META, k, 1, b)
  }

  lemma DistanceNotNegative(t: Tree, k: Bytes, b: int)
    requires Sound(t) && Bound(t, k) <= b
    ensures Distance(t, k, b) >= 0
  {
    hide Sound, Within;
    MetaOnPath(t, k);
    WeightNotNegative(t, META, k, 0, 1);
    WeightNotNegative(t, META, k, 1, b);
  }

  lemma HalfLess(t: Tree, p: Pid, c: Pid, slot: nat, sep: Bytes, r: Pid, k: Bytes)
    requires CanSplit(t, p, c, slot, sep, r) && Leads(t, p, k, c)
    requires Sound(SplitTree(t, p, c, slot, sep, r))
    ensures var u, h := SplitTree(t, p, c, slot, sep, r), Half(c, sep, r, k);
      c in t.pages && h in u.pages && |u.pages[h].keys| < |t.pages[c].keys|
      && (!t.pages[c].leaf && slot == |t.pages[c].keys| / 2 && |t.pages[c].keys| >= 3
          ==> |u.pages[h].keys| + 2 <= |t.pages[c].keys|)
  {
    hide Sound, Less, SplitParent, Kid, Sorted, Within, Half, Route;
    CutLevels(t, p, c, slot, sep, r);
    Below(t, p, k);
    HalfFacts(t, p, c, slot, sep, r, k);
  }

  /** Every split makes progress: the half on the way has strictly fewer entries, and this outweighs the
      entry its parent gains. */
  lemma SplitProgress(t: Tree, p: Pid, c: Pid, slot: nat, sep: Bytes, r: Pid, k: Bytes, b: int)
    requires CanSplit(t, p, c, slot, sep, r) && Leads(t, p, k, c) && Sound(t)
    requires Sound(SplitTree(t, p, c, slot, sep, r)) && t.level[META] <= b
    ensures var u, h := SplitTree(t, p, c, slot, sep, r), Half(c, sep, r, k);
      && c in t.pages && h in u.pages && |u.pages[h].keys| < |t.pages[c].keys|
      && Bound(u, k) == Bound(t, k) + 1 - (|t.pages[c].keys| - |u.pages[h].keys|)
      && Distance(u, k, b) < Distance(t, k, b)
  {
    hide Sound, Less, SplitParent, Kid, Sorted, Within, Half, Route, CanSplit, SplitLeft, SplitRight, GoodCut, Inner;
    var u, h := SplitTree(t, p, c, slot, sep, r), Half(c, sep, r, k);
    MetaOnPath(t, k);
    CutLevels(t, p, c, slot, sep, r);
    CutFits(t, p, c, slot, sep, r);
    MetaTop(t, p);
    HalfLess(t, p, c, slot, sep, r, k);
    WeightAbove(t, p, c, slot, sep, r, META, k, 0, 1);
    WeightAbove(t, p, c, slot, sep, r, META, k, 1, b);
    assert u.level[META] == t.level[META];
    Outweighs(b - t.level[c], |t.pages[c].keys| - |u.pages[h].keys|);
  }

  lemma Outweighs(w: int, d: int)
    requires w >= 1 && d >= 1
    ensures w * d >= w
  {
  }

  lemma MetaTop(t: Tree, p: Pid)
    requires Sound(t) && p in t.level
    ensures META in t.level && t.level[p] <= t.level[META] && (p != META ==> t.level[p] < t.level[META])
  {
    hide Tiled, Apart, Chained, WellFormed;
  }

  lemma {:induction false} WeightGrown(t: Tree, r: Pid, q: Pid, k: Bytes, a: int, b: int)
    requires Sound(t) && r !in t.level && Sound(GrowRoot(t, r)) && OnPath(t, q, k) && q != META
    ensures OnPath(GrowRoot(t, r), q, k) && Weight(GrowRoot(t, r), q, k, a, b) == Weight(t, q, k, a, b)
    decreases t.level[q]
  {
    hide Shaped, Tiled, Apart, Chained, Within, Inner, Route;
    var u := GrowRoot(t, r);
    assert u.pages[q] == t.pages[q] && u.level[q] == t.level[q];
    if t.level[q] > 0 {
      Below(t, q, k);
      Below(u, q, k);
      WeightGrown(t, r, Route(t.pages[q], k), k, a, b);
    }
  }

  /** The root hangs below the metadata page, and below a new root after growing. */
  lemma RootPath(t: Tree, k: Bytes)
    requires Sound(t)
    ensures META in t.pages
    ensures var c := t.pages[META].link;
      Leads(t, META, k, c) && c in t.pages && t.pages[META].keys == []
      && t.pages[c].lo == [] && t.pages[c].hi == [] && OnPath(t, c, k) && c != META && t.level[c] + 1 == t.level[META]
  {
    hide Apart, Chained, Less;
    MetaOnPath(t, k);
    KidFact(t, META, 0);
  }

  lemma GrownLeads(t: Tree, r: Pid, k: Bytes)
    requires Sound(t) && r !in t.level && Sound(GrowRoot(t, r)) && r != META
    ensures var u, c := GrowRoot(t, r), t.pages[META].link;
      Leads(u, META, k, r) && Leads(u, r, k, c) && u.level[r] == t.level[META]
      && c in t.level && c in u.level && u.level[c] == t.level[c] && c in t.pages && u.pages[c] == t.pages[c]
      && u.level[META] == t.level[META] + 1
  {
    hide Tiled, Apart, Chained, Less, Sorted;
    RootPath(t, k);
    MetaOnPath(GrowRoot(t, r), k);
    Below(GrowRoot(t, r), META, k);
    Below(GrowRoot(t, r), r, k);
  }

  lemma GrowWeight(t: Tree, r: Pid, k: Bytes, a: int, b: int)
    requires Sound(t) && r !in t.level && Sound(GrowRoot(t, r)) && r != META
    requires OnPath(t, META, k) && OnPath(GrowRoot(t, r), META, k)
    ensures Weight(GrowRoot(t, r), META, k, a, b) == Weight(t, META, k, a, b)
  {
    hide Shaped, Tiled, Apart, Chained, Within, Inner, Route;
    RootPath(t, k);
    GrownLeads(t, r, k);
    Below(t, META, k);
    var u, c := GrowRoot(t, r), t.pages[META].link;
    Below(u, META, k);
    Below(u, r, k);
    WeightGrown(t, r, c, k, a, b);
    assert (b - a * t.level[META]) * 0 == 0 && (b - a * u.level[META]) * 0 == 0 && (b - a * u.level[r]) * 0 == 0;
  }

  /** A new root costs a level, but the halves of the old root make up for it. */
  lemma GrowProgress(t: Tree, r: Pid, slot: nat, sep: Bytes, s: Pid, k: Bytes, b: int)
    requires Sound(t) && r !in t.level && r != META && Sound(GrowRoot(t, r)) && Bound(t, k) <= b
    requires CanSplit(GrowRoot(t, r), r, t.pages[META].link, slot, sep, s)
    requires Sound(SplitTree(GrowRoot(t, r), r, t.pages[META].link, slot, sep, s))
    requires var c := t.pages[META].link; c in t.pages && |t.pages[c].keys| >= 3 && (!t.pages[c].leaf ==> slot == |t.pages[c].keys| / 2)
    ensures var u := SplitTree(GrowRoot(t, r), r, t.pages[META].link, slot, sep, s);
      Distance(u, k, b) < Distance(t, k, b) && Bound(u, k) <= b
  {
    hide Shaped, Tiled, Apart, Chained, Within, Inner, Route, CanSplit, SplitTree, Less, Half, GoodCut;
    RootPath(t, k);
    var g, c := GrowRoot(t, r), t.pages[META].link;
    MetaOnPath(t, k);
    MetaOnPath(g, k);
    GrownLeads(t, r, k);
    GrowWeight(t, r, k, 0, 1);
    GrowWeight(t, r, k, 1, b);
    LeafAtZero(t, c);
    RootCount(t, k);
    SplitProgress(g, r, c, slot, sep, s, k, b);
    HalfLess(g, r, c, slot, sep, s, k);
    MetaTop(g, c);
  }

  lemma LeafAtZero(t: Tree, c: Pid)
    requires Sound(t) && c in t.level
    ensures c in t.pages && (t.pages[c].leaf <==> t.level[c] == 0)
  {
    hide Tiled, Apart, Chained, WellFormed;
  }

  /** The entries of the root are among those on the way. */
  lemma RootCount(t: Tree, k: Bytes)
    requires Sound(t) && OnPath(t, META, k)
    ensures var c := t.pages[META].link; c in t.pages && Weight(t, META, k, 0, 1) >= |t.pages[c].keys|
  {
    hide Shaped, Tiled, Apart, Chained, Within, Inner, Route;
    RootPath(t, k);
    Below(t, META, k);
    var c := t.pages[META].link;
    if t.level[c] > 0 {
      Below(t, c, k);
      WeightNotNegative(t, Route(t.pages[c], k), k, 0, 1);
    }
  }

  // ----- merging -----

  lemma MergeKeeps(t: Tree, m: map<Bytes, Bytes>, alloc: nat, p: Pid, pos: nat)
    requires Keeps(t, m, alloc) && CanMerge(t, p, pos)
    requires var l, r := Kid(t.pages[p], pos), Kid(t.pages[p], pos + 1);
      l in t.pages && r in t.pages && |t.pages[l].keys| == |t.pages[l].pays| && |t.pages[r].keys| == |t.pages[r].pays|
      && SpaceUpperBound(t.pages[l], t.pages[r]) <= PAGE_SIZE
    ensures Keeps(MergeTree(t, p, pos), m, alloc)
  {
    hide Shaped, Tiled, Apart, Chained, Represents, WellFormed, Less, Fits, Size, Kid, MergeLeaves, MergeParent,
         SpaceUpperBound, Small;
    InnerFact(t, p);
    var l, r := Kid(t.pages[p], pos), Kid(t.pages[p], pos + 1);
    MergeSound(t, m, p, pos);
    MergeFacts(t, p, pos);
    LeafAtZero(t, l);
    LeafAtZero(t, r);
    assert SizedPage(t, l) && SizedPage(t, r) && SizedPage(t, p);
    MergedSized(t.pages[l], t.pages[r]);
    MergedParentSized(t.pages[p], pos, l);
    var u := MergeTree(t, p, pos);
    forall q | q in u.level ensures SizedPage(u, q) {
      if q != l && q != p { assert SizedPage(t, q); }
    }
  }

  lemma MergedSized(l: Node, r: Node)
    requires Small(l, SHORT) && Small(r, SHORT) && l.leaf == r.leaf && SpaceUpperBound(l, r) <= PAGE_SIZE
    ensures Small(MergeLeaves(l, r), SHORT) && Fits(MergeLeaves(l, r))
  {
    hide Bulk, Common;
    MergeBound(l, r);
  }

  lemma MergedParentSized(p: Node, pos: nat, left: Pid)
    requires Inner(p) && Small(p, SHORT) && Fits(p) && pos + 1 < |p.keys|
    ensures Small(MergeParent(p, pos, left), SHORT) && Fits(MergeParent(p, pos, left))
  {
    hide Bulk, Common, Less;
    SetPaySize(p, pos + 1, PidBytes(left));
    RemoveSize(SetPay(p, pos + 1, PidBytes(left)), pos);
    EntryNotNegative(p, pos);
  }
}
