/** The tree as a store of nodes, and what every structural change keeps. The metadata page (page 0)
    is seen as an inner node without keys whose only child is the root. */
module Trees {
  import opened Keys
  import opened Nodes

  const META: Pid := 0

  /** `level` holds the pages that belong to the tree: 0 for leaves, one more for each parent.
      A leaf merged away stays in `pages` but leaves `level`. */
  datatype Tree = Tree(pages: map<Pid, Node>, level: map<Pid, nat>)

  predicate Shaped(t: Tree) {
    && t.level.Keys <= t.pages.Keys
    && (forall p | p in t.level :: WellFormed(t.pages[p]) && (t.pages[p].leaf <==> t.level[p] == 0))
    && META in t.level && t.level[META] > 0
    && (forall p | p in t.level && p != META :: t.level[p] < t.level[META])
    && t.pages[META].lo == [] && t.pages[META].hi == [] && t.pages[META].keys == []
    && NO_NEIGHBOUR !in t.level
  }

  predicate IsInner(t: Tree, p: Pid)
    requires Shaped(t)
  {
    p in t.level && t.level[p] > 0
  }

  predicate IsLeaf(t: Tree, p: Pid)
    requires Shaped(t)
  {
    p in t.level && t.level[p] == 0
  }

  /** Child `i` of `p` covers exactly the gap between the neighbouring separators. */
  predicate KidFits(t: Tree, p: Pid, i: nat)
    requires Shaped(t) && IsInner(t, p) && i <= |t.pages[p].keys|
  {
    var n := t.pages[p];
    var c := Kid(n, i);
    c in t.level && t.level[c] + 1 == t.level[p] && t.pages[c].lo == KidLo(n, i) && t.pages[c].hi == KidHi(n, i)
  }

  predicate Tiled(t: Tree)
    requires Shaped(t)
  {
    forall p, i: nat | IsInner(t, p) && i <= |t.pages[p].keys| :: KidFits(t, p, i)
  }

  predicate Before(a: Node, b: Node) {
    a.hi != [] && !Less(b.lo, a.hi)
  }

  predicate Disjoint(t: Tree, p: Pid, q: Pid)
    requires p in t.pages && q in t.pages
  {
    Before(t.pages[p], t.pages[q]) || Before(t.pages[q], t.pages[p])
  }

  /** The pages of one level cover disjoint key ranges. */
  predicate Apart(t: Tree)
    requires Shaped(t)
  {
    forall p, q {:trigger Disjoint(t, p, q)} |
      p in t.level && q in t.level && p != q && t.level[p] == t.level[q] :: Disjoint(t, p, q)
  }

  predicate NextFits(t: Tree, p: Pid)
    requires Shaped(t) && IsLeaf(t, p)
  {
    var n := t.pages[p];
    if n.hi == [] then n.link == NO_NEIGHBOUR
    else n.link in t.level && t.level[n.link] == 0 && t.pages[n.link].lo == n.hi
  }

  /** Leaf links follow the upper fences. */
  predicate Chained(t: Tree)
    requires Shaped(t)
  {
    forall p | IsLeaf(t, p) :: NextFits(t, p)
  }

  predicate Sound(t: Tree) {
    Shaped(t) && Tiled(t) && Apart(t) && Chained(t)
  }

  // ----- the map a tree stands for -----

  function Lookup(m: map<Bytes, Bytes>, k: Bytes): Option<Bytes> {
    if k in m then Some(m[k]) else None
  }

  /** Every leaf answers every key it covers as the map does. */
  ghost predicate Represents(t: Tree, m: map<Bytes, Bytes>)
    requires Shaped(t)
  {
    forall p, k | IsLeaf(t, p) && Within(k, t.pages[p].lo, t.pages[p].hi) :: Get(t.pages[p], k) == Lookup(m, k)
  }

  /** What the constructor builds: the metadata page and an empty leaf as the root. */
  function Empty(root: Pid): Tree {
    Tree(map[META := Node(false, [], [], [], [], root), root := Node(true, [], [], [], [], NO_NEIGHBOUR)],
         map[META := 1, root := 0])
  }

  lemma EmptySound(root: Pid)
    requires root != META && root != NO_NEIGHBOUR
    ensures Sound(Empty(root)) && Represents(Empty(root), map[])
  {
    hide Less, LowerBound;
    var t := Empty(root);
    assert Shaped(t);
    forall p, i: nat | IsInner(t, p) && i <= |t.pages[p].keys| ensures KidFits(t, p, i) {
      assert p == META && i == 0;
    }
    forall p, k | IsLeaf(t, p) && Within(k, t.pages[p].lo, t.pages[p].hi)
      ensures Get(t.pages[p], k) == Lookup(map[], k)
    {
      assert p == root;
    }
  }

  // ----- navigation -----

  lemma KidFact(t: Tree, p: Pid, i: nat)
    requires Sound(t) && IsInner(t, p) && i <= |t.pages[p].keys|
    ensures KidFits(t, p, i)
  {
  }

  lemma NextFact(t: Tree, p: Pid)
    requires Sound(t) && IsLeaf(t, p)
    ensures NextFits(t, p)
  {
  }

  lemma ApartFact(t: Tree, p: Pid, q: Pid)
    requires Sound(t) && p in t.level && q in t.level && p != q && t.level[p] == t.level[q]
    ensures Disjoint(t, p, q)
  {
    assert Disjoint(t, p, q);
  }

  lemma RouteFits(t: Tree, p: Pid, k: Bytes)
    requires Sound(t) && IsInner(t, p) && Within(k, t.pages[p].lo, t.pages[p].hi)
    ensures var c := Route(t.pages[p], k);
      c in t.level && t.level[c] + 1 == t.level[p] && Within(k, t.pages[c].lo, t.pages[c].hi)
  {
    assert KidFits(t, p, Slot(t.pages[p], k));
  }

  /** The only way into a child's range is the child's slot. */
  lemma RouteBack(t: Tree, p: Pid, i: nat, k: Bytes)
    requires Sound(t) && IsInner(t, p) && i <= |t.pages[p].keys|
    requires var c := Kid(t.pages[p], i); c in t.pages && Within(k, t.pages[c].lo, t.pages[c].hi)
    ensures Slot(t.pages[p], k) == i
  {
    KidFact(t, p, i);
    hide Tiled, Apart, Chained, Less;
    LowerBoundUnique(t.pages[p].keys, k, i);
  }

  /** A page outside the tree can hold anything. */
  lemma SpareSound(t: Tree, m: map<Bytes, Bytes>, r: Pid, n: Node)
    requires Sound(t) && Represents(t, m) && r !in t.pages
    ensures Sound(t.(pages := t.pages[r := n])) && Represents(t.(pages := t.pages[r := n]), m)
  {
    hide WellFormed, Less, Within, Get, Before;
    var u := t.(pages := t.pages[r := n]);
    forall q, i: nat | IsInner(u, q) && i <= |u.pages[q].keys| ensures KidFits(u, q, i) {
      KidFact(t, q, i);
    }
    forall a, b | a in u.level && b in u.level && a != b && u.level[a] == u.level[b] ensures Disjoint(u, a, b) {
      ApartFact(t, a, b);
    }
    forall q | IsLeaf(u, q) ensures NextFits(u, q) {
      NextFact(t, q);
    }
    forall q, x | IsLeaf(u, q) && Within(x, u.pages[q].lo, u.pages[q].hi)
      ensures Get(u.pages[q], x) == Lookup(m, x)
    {
      assert IsLeaf(t, q);
    }
  }

  /** Two pages of one level that cover the same key are the same page. */
  lemma CoverUnique(t: Tree, p: Pid, q: Pid, k: Bytes)
    requires Sound(t) && p in t.level && q in t.level && t.level[p] == t.level[q]
    requires Within(k, t.pages[p].lo, t.pages[p].hi) && Within(k, t.pages[q].lo, t.pages[q].hi)
    ensures p == q
  {
    if p != q {
      assert Disjoint(t, p, q);
      var a, b := if Before(t.pages[p], t.pages[q]) then t.pages[p] else t.pages[q],
                  if Before(t.pages[p], t.pages[q]) then t.pages[q] else t.pages[p];
      Chain(a.hi, b.lo, k);
      NothingBelowEmpty(a.hi);
    }
  }

  /** A key just below the upper fence region: every node with fences covers some key. */
  lemma KidBounds(n: Node, i: nat)
    requires WellFormed(n) && i <= |n.keys|
    ensures i > 0 ==> n.lo == [] || Less(n.lo, KidLo(n, i))
    ensures n.hi != [] ==> KidHi(n, i) != [] && !Less(n.hi, KidHi(n, i))
  {
    Trichotomy(n.hi, n.hi);
  }

  lemma KidsApart(t: Tree, p: Pid, i: nat, q: Pid, j: nat)
    requires Sound(t) && IsInner(t, p) && IsInner(t, q)
    requires i <= |t.pages[p].keys| && j <= |t.pages[q].keys|
    requires Kid(t.pages[p], i) == Kid(t.pages[q], j)
    ensures p == q && i == j
  {
    assert KidFits(t, p, i) && KidFits(t, q, j);
    var c := t.pages[Kid(t.pages[p], i)];
    KidBounds(t.pages[p], i);
    KidBounds(t.pages[q], j);
    if p != q {
      assert Disjoint(t, p, q);
      if Before(t.pages[p], t.pages[q]) {
        ApartKids(t.pages[p], t.pages[q], c);
      } else {
        ApartKids(t.pages[q], t.pages[p], c);
      }
    } else {
      Trichotomy(c.lo, c.lo);
    }
  }

  lemma ApartKids(a: Node, b: Node, c: Node)
    requires Before(a, b)
    requires c.hi != [] && !Less(a.hi, c.hi)
    requires b.lo == [] || b.lo == c.lo || Less(b.lo, c.lo)
    ensures !Less(c.lo, c.hi)
  {
    Chain(c.lo, c.hi, a.hi);
    Chain(c.lo, a.hi, b.lo);
    Trichotomy(b.lo, c.lo);
    NothingBelowEmpty(a.hi);
  }

  // ----- changing the entries of one leaf -----

  function Store(t: Tree, p: Pid, n: Node): Tree {
    t.(pages := t.pages[p := n])
  }

  lemma StoreLeaf(t: Tree, p: Pid, n: Node)
    requires Sound(t) && IsLeaf(t, p) && WellFormed(n)
    requires n.leaf && n.lo == t.pages[p].lo && n.hi == t.pages[p].hi && n.link == t.pages[p].link
    ensures Sound(Store(t, p, n))
  {
    hide WellFormed, Sorted, Within, Less;
    var u := Store(t, p, n);
    forall q, i: nat | IsInner(u, q) && i <= |u.pages[q].keys| ensures KidFits(u, q, i) {
      assert KidFits(t, q, i);
    }
    forall a, b | a in u.level && b in u.level && a != b && u.level[a] == u.level[b] ensures Disjoint(u, a, b) {
      assert Disjoint(t, a, b);
    }
    forall q | IsLeaf(u, q) ensures NextFits(u, q) {
      assert NextFits(t, q);
    }
  }

  lemma LeafWrite(t: Tree, m: map<Bytes, Bytes>, p: Pid, n: Node, k: Bytes, m': map<Bytes, Bytes>)
    requires Sound(t) && Represents(t, m) && IsLeaf(t, p) && WellFormed(n)
    requires n.leaf && n.lo == t.pages[p].lo && n.hi == t.pages[p].hi && n.link == t.pages[p].link
    requires Within(k, n.lo, n.hi)
    requires forall x :: Lookup(m', x) == if x == k then Get(n, k) else Lookup(m, x)
    requires forall x :: Get(n, x) == if x == k then Get(n, k) else Get(t.pages[p], x)
    ensures Sound(Store(t, p, n)) && Represents(Store(t, p, n), m')
  {
    var u := Store(t, p, n);
    StoreLeaf(t, p, n);
    forall q, x | IsLeaf(u, q) && Within(x, u.pages[q].lo, u.pages[q].hi)
      ensures Get(u.pages[q], x) == Lookup(m', x)
    {
      if q == p {
        assert IsLeaf(t, p);
      } else if x == k {
        CoverUnique(t, p, q, k);
      } else {
        assert IsLeaf(t, q);
      }
    }
  }

  // ----- a new root above the old one -----

  function GrowRoot(t: Tree, r: Pid): Tree
    requires Shaped(t)
  {
    var meta := t.pages[META];
    Tree(t.pages[r := Node(false, [], [], [], [], meta.link)][META := meta.(link := r)],
         t.level[r := t.level[META]][META := t.level[META] + 1])
  }

  lemma GrowRootSound(t: Tree, m: map<Bytes, Bytes>, r: Pid)
    requires Sound(t) && Represents(t, m) && r !in t.level && r != NO_NEIGHBOUR
    ensures Sound(GrowRoot(t, r)) && Represents(GrowRoot(t, r), m)
  {
    hide Sorted, Less, LowerBound, Within, Get, Before;
    var u := GrowRoot(t, r);
    var root := Kid(t.pages[META], 0);
    assert KidFits(t, META, 0);
    forall p, i: nat | IsInner(u, p) && i <= |u.pages[p].keys| ensures KidFits(u, p, i) {
      if p != r && p != META {
        assert KidFits(t, p, i);
        var c := Kid(t.pages[p], i);
      }
    }
    forall p, q | p in u.level && q in u.level && p != q && u.level[p] == u.level[q]
      ensures Disjoint(u, p, q)
    {
      assert Disjoint(t, p, q);
    }
    forall p | IsLeaf(u, p) ensures NextFits(u, p) {
      assert NextFits(t, p);
    }
    forall q, x | IsLeaf(u, q) && Within(x, u.pages[q].lo, u.pages[q].hi)
      ensures Get(u.pages[q], x) == Lookup(m, x)
    {
      assert IsLeaf(t, q);
    }
  }

  // ----- splitting a child of `p` -----

  /** Child `c` of `p` is cut at `slot` and `sep`; its right part goes to the new page `r`. */
  predicate CanSplit(t: Tree, p: Pid, c: Pid, slot: nat, sep: Bytes, r: Pid) {
    && Sound(t) && IsInner(t, p) && p != META && c in t.level && t.level[c] + 1 == t.level[p]
    && GoodCut(t.pages[c], slot, sep) && Route(t.pages[p], sep) == c
    && r !in t.level && r != NO_NEIGHBOUR
  }

  function SplitTree(t: Tree, p: Pid, c: Pid, slot: nat, sep: Bytes, r: Pid): Tree
    requires CanSplit(t, p, c, slot, sep, r)
  {
    var n := t.pages[c];
    Tree(t.pages[c := SplitLeft(n, slot, sep, r)][r := SplitRight(n, slot, sep)][p := SplitParent(t.pages[p], sep, c,
        r)],
         t.level[r := t.level[c]])
  }

  lemma SplitFacts(t: Tree, p: Pid, c: Pid, slot: nat, sep: Bytes, r: Pid)
    requires CanSplit(t, p, c, slot, sep, r)
    ensures KidFits(t, p, Slot(t.pages[p], sep))
    ensures Within(sep, t.pages[p].lo, t.pages[p].hi) && sep !in t.pages[p].keys
    ensures slot < |t.pages[c].keys| && sep != [] && (t.pages[c].lo == [] || Less(t.pages[c].lo, sep))
        && (t.pages[c].hi == [] || Less(sep, t.pages[c].hi))
  {
    var n, q := t.pages[c], t.pages[p];
    var j := Slot(q, sep);
    assert KidFits(t, p, j);
    CutWithin(n, slot, sep);
    KidBounds(q, j);
    FoundIffMember(q.keys, sep);
    Chain(q.lo, n.lo, sep);
    Chain(sep, n.hi, q.hi);
    Trichotomy(sep, q.hi);
    Trichotomy(sep, n.hi);
  }

  lemma SplitShaped(t: Tree, p: Pid, c: Pid, slot: nat, sep: Bytes, r: Pid)
    requires CanSplit(t, p, c, slot, sep, r)
    ensures Shaped(SplitTree(t, p, c, slot, sep, r))
  {
    hide WellFormed, Sorted, Less, LowerBound, Tiled, Apart, Chained, Within, GoodCut;
    SplitFacts(t, p, c, slot, sep, r);
    SplitWellFormed(t.pages[c], slot, sep, r);
    SplitParentKids(t.pages[p], sep, c, r);
  }

  lemma SplitTiledParent(t: Tree, p: Pid, c: Pid, slot: nat, sep: Bytes, r: Pid, i: nat)
    requires CanSplit(t, p, c, slot, sep, r)
    requires Shaped(SplitTree(t, p, c, slot, sep, r))
    requires i <= |SplitTree(t, p, c, slot, sep, r).pages[p].keys|
    ensures KidFits(SplitTree(t, p, c, slot, sep, r), p, i)
  {
    hide WellFormed, Sorted, Less, LowerBound, Tiled, Apart, Chained, Within, GoodCut, SplitParent, Slot, KidLo,
         KidHi, Kid;
    var q := t.pages[p];
    var j := Slot(q, sep);
    SplitFacts(t, p, c, slot, sep, r);
    SplitParentKids(q, sep, c, r);
    SplitParentGaps(q, sep, c, r);
    if i < j {
      KidFact(t, p, i);
      if Kid(q, i) == c { KidsApart(t, p, i, p, j); }
    } else if i > j + 1 {
      KidFact(t, p, i - 1);
      if Kid(q, i - 1) == c { KidsApart(t, p, i - 1, p, j); }
    }
  }

  lemma SplitTiledChild(t: Tree, p: Pid, c: Pid, slot: nat, sep: Bytes, r: Pid, q: Pid, i: nat)
    requires CanSplit(t, p, c, slot, sep, r)
    requires Shaped(SplitTree(t, p, c, slot, sep, r)) && t.level[c] > 0
    requires q == c || q == r
    requires i <= |SplitTree(t, p, c, slot, sep, r).pages[q].keys|
    ensures KidFits(SplitTree(t, p, c, slot, sep, r), q, i)
  {
    hide WellFormed, Sorted, Less, LowerBound, Tiled, Apart, Chained, Within, GoodCut, SplitParent, Slot, KidLo,
         KidHi, Kid, SplitLeft, SplitRight;
    SplitWellFormed(t.pages[c], slot, sep, r);
    SplitKids(t.pages[c], slot, sep, r);
    KidFact(t, c, if q == c then i else slot + 1 + i);
  }

  lemma SplitTiledOther(t: Tree, p: Pid, c: Pid, slot: nat, sep: Bytes, r: Pid, q: Pid, i: nat)
    requires CanSplit(t, p, c, slot, sep, r)
    requires Shaped(SplitTree(t, p, c, slot, sep, r))
    requires IsInner(t, q) && q != p && q != c && i <= |t.pages[q].keys|
    ensures KidFits(SplitTree(t, p, c, slot, sep, r), q, i)
  {
    hide WellFormed, Sorted, Less, LowerBound, Tiled, Apart, Chained, Within, GoodCut, SplitParent, Slot, Kid,
         KidLo, KidHi;
    var j := Slot(t.pages[p], sep);
    SplitFacts(t, p, c, slot, sep, r);
    SplitParentKids(t.pages[p], sep, c, r);
    KidFact(t, q, i);
    if Kid(t.pages[q], i) == c { KidsApart(t, p, j, q, i); }
  }

  lemma SplitApart(t: Tree, p: Pid, c: Pid, slot: nat, sep: Bytes, r: Pid)
    requires CanSplit(t, p, c, slot, sep, r)
    requires Shaped(SplitTree(t, p, c, slot, sep, r))
    ensures var u := SplitTree(t, p, c, slot, sep, r); forall a, b {:trigger Disjoint(u, a, b)} |
      a in u.level && b in u.level && a != b && u.level[a] == u.level[b] :: Disjoint(u, a, b)
  {
    hide WellFormed, Sorted, Less, LowerBound, Tiled, Apart, Chained, Within, GoodCut, SplitParent, Slot, Kid;
    var u, n := SplitTree(t, p, c, slot, sep, r), t.pages[c];
    SplitFacts(t, p, c, slot, sep, r);
    HalvesInOrder(n, slot, sep, r);
    SplitParentKids(t.pages[p], sep, c, r);
    forall a, b | a in u.level && b in u.level && a != b && u.level[a] == u.level[b] ensures Disjoint(u, a, b) {
      var x, y := if a == r then c else a, if b == r then c else b;
      if x != y {
        ApartFact(t, x, y);
        HalvesApart(n, t.pages[if x == c then y else x], slot, sep, r);
      }
    }
  }

  lemma HalvesInOrder(n: Node, slot: nat, sep: Bytes, r: Pid)
    requires WellFormed(n) && slot < |n.keys| && sep != []
    ensures Before(SplitLeft(n, slot, sep, r), SplitRight(n, slot, sep))
  {
    Trichotomy(sep, sep);
  }

  lemma HalvesApart(n: Node, o: Node, slot: nat, sep: Bytes, r: Pid)
    requires WellFormed(n) && slot < |n.keys| && sep != []
    requires (n.lo == [] || Less(n.lo, sep)) && (n.hi == [] || Less(sep, n.hi))
    ensures Before(n, o) ==> Before(SplitLeft(n, slot, sep, r), o) && Before(SplitRight(n, slot, sep), o)
    ensures Before(o, n) ==> Before(o, SplitLeft(n, slot, sep, r)) && Before(o, SplitRight(n, slot, sep))
  {
    hide WellFormed, Sorted, Less, Kid;
    Chain(sep, n.hi, o.lo);
    Chain(o.hi, n.lo, sep);
    Trichotomy(sep, o.lo);
    Trichotomy(o.hi, sep);
    NothingBelowEmpty(o.hi);
  }

  lemma SplitChained(t: Tree, p: Pid, c: Pid, slot: nat, sep: Bytes, r: Pid)
    requires CanSplit(t, p, c, slot, sep, r)
    requires Shaped(SplitTree(t, p, c, slot, sep, r))
    ensures forall q | IsLeaf(SplitTree(t, p, c, slot, sep, r), q) :: NextFits(SplitTree(t, p, c, slot, sep, r), q)
  {
    hide WellFormed, Sorted, Less, LowerBound, Tiled, Apart, Chained, Within, GoodCut, SplitParent, Slot, Kid;
    var u := SplitTree(t, p, c, slot, sep, r);
    SplitFacts(t, p, c, slot, sep, r);
    forall q | IsLeaf(u, q) ensures NextFits(u, q) {
      NextFact(t, if q == r then c else q);
    }
  }

  lemma SplitRepresents(t: Tree, m: map<Bytes, Bytes>, p: Pid, c: Pid, slot: nat, sep: Bytes, r: Pid, q: Pid, x: Bytes)
    requires CanSplit(t, p, c, slot, sep, r) && Represents(t, m)
    requires Shaped(SplitTree(t, p, c, slot, sep, r)) && IsLeaf(SplitTree(t, p, c, slot, sep, r), q)
    requires var n := SplitTree(t, p, c, slot, sep, r).pages[q]; Within(x, n.lo, n.hi)
    ensures Get(SplitTree(t, p, c, slot, sep, r).pages[q], x) == Lookup(m, x)
  {
    hide WellFormed, Sorted, Less, LowerBound, Tiled, Apart, Chained, GoodCut, Get;
    var n := t.pages[c];
    SplitFacts(t, p, c, slot, sep, r);
    if q == c || q == r {
      SplitWellFormed(n, slot, sep, r);
      SplitGet(n, slot, sep, r, x);
      Chain(n.lo, sep, x);
      Chain(x, sep, n.hi);
      Trichotomy(x, n.hi);
      assert IsLeaf(t, c) && Within(x, n.lo, n.hi);
    } else {
      assert IsLeaf(t, q) && Within(x, t.pages[q].lo, t.pages[q].hi);
    }
  }

  /** A split keeps every invariant of the tree and the map it stands for. */
  lemma SplitSound(t: Tree, m: map<Bytes, Bytes>, p: Pid, c: Pid, slot: nat, sep: Bytes, r: Pid)
    requires CanSplit(t, p, c, slot, sep, r) && Represents(t, m)
    ensures Sound(SplitTree(t, p, c, slot, sep, r)) && Represents(SplitTree(t, p, c, slot, sep, r), m)
  {
    hide WellFormed, Sorted, Less, LowerBound, Within, GoodCut, Get, KidFits, NextFits, Disjoint, CanSplit;
    var u := SplitTree(t, p, c, slot, sep, r);
    SplitShaped(t, p, c, slot, sep, r);
    forall q, i: nat | IsInner(u, q) && i <= |u.pages[q].keys| ensures KidFits(u, q, i) {
      SplitTiled(t, p, c, slot, sep, r, q, i);
    }
    SplitApart(t, p, c, slot, sep, r);
    SplitChained(t, p, c, slot, sep, r);
    forall q, x | IsLeaf(u, q) && Within(x, u.pages[q].lo, u.pages[q].hi)
      ensures Get(u.pages[q], x) == Lookup(m, x)
    {
      SplitRepresents(t, m, p, c, slot, sep, r, q, x);
    }
  }

  lemma SplitTiled(t: Tree, p: Pid, c: Pid, slot: nat, sep: Bytes, r: Pid, q: Pid, i: nat)
    requires CanSplit(t, p, c, slot, sep, r)
    requires Shaped(SplitTree(t, p, c, slot, sep, r))
    requires var u := SplitTree(t, p, c, slot, sep, r); IsInner(u, q) && i <= |u.pages[q].keys|
    ensures KidFits(SplitTree(t, p, c, slot, sep, r), q, i)
  {
    hide WellFormed, Sorted, Less, LowerBound, Within, GoodCut, Get, KidFits;
    if q == p { SplitTiledParent(t, p, c, slot, sep, r, i); }
    else if q == c || q == r { SplitTiledChild(t, p, c, slot, sep, r, q, i); }
    else { SplitTiledOther(t, p, c, slot, sep, r, q, i); }
  }

  // ----- merging two neighbouring leaves -----

  predicate CanMerge(t: Tree, p: Pid, pos: nat) {
    Sound(t) && IsInner(t, p) && t.level[p] == 1 && pos + 1 < |t.pages[p].keys|
  }

  function MergeTree(t: Tree, p: Pid, pos: nat): Tree
    requires CanMerge(t, p, pos)
  {
    var l, r := Kid(t.pages[p], pos), Kid(t.pages[p], pos + 1);
    KidFact(t, p, pos);
    KidFact(t, p, pos + 1);
    Tree(t.pages[l := MergeLeaves(t.pages[l], t.pages[r])][p := MergeParent(t.pages[p], pos, l)], t.level - {r})
  }

  lemma MergeFacts(t: Tree, p: Pid, pos: nat)
    requires CanMerge(t, p, pos)
    ensures var l, r := Kid(t.pages[p], pos), Kid(t.pages[p], pos + 1);
      && IsLeaf(t, l) && IsLeaf(t, r) && l != r && l != p && r != p && p != META
      && t.pages[l].lo == KidLo(t.pages[p], pos) && t.pages[r].hi == KidHi(t.pages[p], pos + 1)
      && t.pages[l].hi != [] && t.pages[r].lo == t.pages[l].hi
  {
    KidFact(t, p, pos);
    KidFact(t, p, pos + 1);
    if Kid(t.pages[p], pos) == Kid(t.pages[p], pos + 1) { KidsApart(t, p, pos, p, pos + 1); }
  }

  lemma MergeShaped(t: Tree, p: Pid, pos: nat)
    requires CanMerge(t, p, pos)
    ensures Shaped(MergeTree(t, p, pos))
  {
    hide WellFormed, Sorted, Less, LowerBound, Tiled, Apart, Chained, Within, MergeParent, KidLo, KidHi, Kid;
    var l, r := Kid(t.pages[p], pos), Kid(t.pages[p], pos + 1);
    MergeFacts(t, p, pos);
    MergeWellFormed(t.pages[l], t.pages[r]);
    MergeParentKids(t.pages[p], pos, l);
  }

  lemma MergeTiled(t: Tree, p: Pid, pos: nat, q: Pid, i: nat)
    requires CanMerge(t, p, pos)
    requires Shaped(MergeTree(t, p, pos)) && IsInner(MergeTree(t, p, pos), q)
    requires i <= |MergeTree(t, p, pos).pages[q].keys|
    ensures KidFits(MergeTree(t, p, pos), q, i)
  {
    hide WellFormed, Sorted, Less, LowerBound, Tiled, Apart, Chained, Within, MergeParent, KidLo, KidHi, Kid;
    MergeFacts(t, p, pos);
    MergeParentKids(t.pages[p], pos, Kid(t.pages[p], pos));
    MergeParentGaps(t.pages[p], pos, Kid(t.pages[p], pos));
    if q != p || i != pos {
      var o := if q != p || i < pos then i else i + 1;
      KidFact(t, q, o);
      if Kid(t.pages[q], o) == Kid(t.pages[p], pos) { KidsApart(t, q, o, p, pos); }
      if Kid(t.pages[q], o) == Kid(t.pages[p], pos + 1) { KidsApart(t, q, o, p, pos + 1); }
    }
  }

  lemma JoinedApart(l: Node, r: Node, o: Node)
    requires l.hi != [] && r.lo == l.hi && (o.hi == [] || Less(o.lo, o.hi))
    requires (Before(l, o) || Before(o, l)) && (Before(r, o) || Before(o, r))
    ensures Before(MergeLeaves(l, r), o) || Before(o, MergeLeaves(l, r))
    ensures Less(l.lo, l.hi) ==> l.hi != o.hi
  {
    hide Less;
    Chain(o.lo, o.hi, l.hi);
    Chain(l.lo, l.hi, o.lo);
    Chain(l.lo, o.hi, l.lo);
    Trichotomy(l.lo, l.lo);
  }

  lemma MergeApart(t: Tree, p: Pid, pos: nat)
    requires CanMerge(t, p, pos) && Shaped(MergeTree(t, p, pos))
    ensures var u := MergeTree(t, p, pos); forall a, b {:trigger Disjoint(u, a, b)} |
      a in u.level && b in u.level && a != b && u.level[a] == u.level[b] :: Disjoint(u, a, b)
  {
    hide Sorted, Less, LowerBound, Tiled, Apart, Chained, Within, MergeParent, KidLo, KidHi, Kid;
    var u := MergeTree(t, p, pos);
    var l, r := Kid(t.pages[p], pos), Kid(t.pages[p], pos + 1);
    MergeFacts(t, p, pos);
    MergeParentKids(t.pages[p], pos, l);
    forall a, b | a in u.level && b in u.level && a != b && u.level[a] == u.level[b] ensures Disjoint(u, a, b) {
      ApartFact(t, a, b);
      if a == l || b == l {
        var o := if a == l then b else a;
        ApartFact(t, r, o);
        JoinedApart(t.pages[l], t.pages[r], t.pages[o]);
      }
    }
  }

  lemma MergeChained(t: Tree, p: Pid, pos: nat)
    requires CanMerge(t, p, pos) && Shaped(MergeTree(t, p, pos))
    ensures var u := MergeTree(t, p, pos); forall q | IsLeaf(u, q) :: NextFits(u, q)
  {
    hide Sorted, Less, LowerBound, Tiled, Apart, Chained, Within, MergeParent, KidLo, KidHi, Kid, Before, NextFits, MergeTree;
    var u := MergeTree(t, p, pos);
    forall q | IsLeaf(u, q) ensures NextFits(u, q) {
      if q == Kid(t.pages[p], pos) { MergeNextLeft(t, p, pos); } else { MergeNextOther(t, p, pos, q); }
    }
  }

  lemma MergeNextLeft(t: Tree, p: Pid, pos: nat)
    requires CanMerge(t, p, pos) && Shaped(MergeTree(t, p, pos)) && IsLeaf(MergeTree(t, p, pos), Kid(t.pages[p], pos))
    ensures NextFits(MergeTree(t, p, pos), Kid(t.pages[p], pos))
  {
    hide Sorted, Less, LowerBound, Tiled, Apart, Chained, Within, MergeParent, KidLo, KidHi, Kid, Before;
    var l, r := Kid(t.pages[p], pos), Kid(t.pages[p], pos + 1);
    MergeFacts(t, p, pos);
    NextFact(t, l);
    NextFact(t, r);
    Trichotomy(t.pages[r].lo, t.pages[r].lo);
  }

  lemma MergeNextOther(t: Tree, p: Pid, pos: nat, q: Pid)
    requires CanMerge(t, p, pos) && Shaped(MergeTree(t, p, pos)) && IsLeaf(MergeTree(t, p, pos), q)
    requires q != Kid(t.pages[p], pos)
    ensures NextFits(MergeTree(t, p, pos), q)
  {
    hide Sorted, Less, LowerBound, Tiled, Apart, Chained, Within, MergeParent, KidLo, KidHi, Kid, Before;
    var l, r := Kid(t.pages[p], pos), Kid(t.pages[p], pos + 1);
    MergeFacts(t, p, pos);
    NextFact(t, q);
    NextFact(t, r);
    ApartFact(t, l, q);
    ApartFact(t, r, q);
    JoinedApart(t.pages[l], t.pages[r], t.pages[q]);
  }

  lemma MergeRepresents(t: Tree, m: map<Bytes, Bytes>, p: Pid, pos: nat, q: Pid, x: Bytes)
    requires CanMerge(t, p, pos) && Represents(t, m)
    requires Shaped(MergeTree(t, p, pos)) && IsLeaf(MergeTree(t, p, pos), q)
    requires var n := MergeTree(t, p, pos).pages[q]; Within(x, n.lo, n.hi)
    ensures Get(MergeTree(t, p, pos).pages[q], x) == Lookup(m, x)
  {
    hide WellFormed, Sorted, Less, LowerBound, Tiled, Apart, Chained, Get, MergeParent, KidLo, KidHi, Kid;
    var l, r := Kid(t.pages[p], pos), Kid(t.pages[p], pos + 1);
    MergeFacts(t, p, pos);
    if q == l {
      MergeWellFormed(t.pages[l], t.pages[r]);
      MergeGet(t.pages[l], t.pages[r], x);
      var s := if Less(t.pages[l].hi, x) then r else l;
      assert IsLeaf(t, s) && Within(x, t.pages[s].lo, t.pages[s].hi);
    } else {
      assert IsLeaf(t, q) && Within(x, t.pages[q].lo, t.pages[q].hi);
    }
  }

  /** A merge keeps every invariant of the tree and the map, and takes exactly the right leaf out of it. */
  lemma MergeSound(t: Tree, m: map<Bytes, Bytes>, p: Pid, pos: nat)
    requires CanMerge(t, p, pos) && Represents(t, m)
    ensures Sound(MergeTree(t, p, pos)) && Represents(MergeTree(t, p, pos), m)
    ensures MergeTree(t, p, pos).level.Keys == t.level.Keys - {Kid(t.pages[p], pos + 1)}
  {
    hide WellFormed, Sorted, Less, LowerBound, Within, Get, KidFits, NextFits, Disjoint, CanMerge;
    var u := MergeTree(t, p, pos);
    MergeShaped(t, p, pos);
    forall q, i: nat | IsInner(u, q) && i <= |u.pages[q].keys| ensures KidFits(u, q, i) {
      MergeTiled(t, p, pos, q, i);
    }
    MergeApart(t, p, pos);
    MergeChained(t, p, pos);
    forall q, x | IsLeaf(u, q) && Within(x, u.pages[q].lo, u.pages[q].hi)
      ensures Get(u.pages[q], x) == Lookup(m, x)
    {
      MergeRepresents(t, m, p, pos, q, x);
    }
  }
}
