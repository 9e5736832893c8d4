/** A B+tree node seen as values: sorted full keys with payloads between two fences. The byte-level
    page of Pages.dfy implements it; Trees.dfy and Olc.dfy build on it. */
module Nodes {
  import opened Keys

  const PAGE_SIZE := 4096
  const HEADER := 104
  const SLOT := 10
  const MAX_KV := 993
  const UNDER_FULL := 3072
  const NO_NEIGHBOUR: Pid := 0xFFFF_FFFF_FFFF_FFFF

  type Pid = p: int | 0 <= p < 0x1_0000_0000_0000_0000

  /** `link` is the right-most child of an inner node and the right neighbour of a leaf.
      `lo` is exclusive, `hi` inclusive; an empty fence means no fence. */
  datatype Node = Node(leaf: bool, lo: Bytes, hi: Bytes, keys: seq<Bytes>, pays: seq<Bytes>, link: Pid)

  // ----- page ids as payload bytes (little endian) -----

  function LittleEndian(p: int, width: nat): (b: Bytes)
    requires 0 <= p
    ensures |b| == width
  {
    if width == 0 then [] else [p % 256] + LittleEndian(p / 256, width - 1)
  }

  function FromLittleEndian(b: Bytes): (p: int)
    ensures 0 <= p
  {
    if |b| == 0 then 0 else b[0] + 256 * FromLittleEndian(b[1..])
  }

  function Power256(n: nat): (p: int)
    ensures p > 0
  {
    if n == 0 then 1 else 256 * Power256(n - 1)
  }

  lemma {:induction false} LittleEndianRoundTrip(p: int, width: nat)
    requires 0 <= p < Power256(width)
    ensures FromLittleEndian(LittleEndian(p, width)) == p
  {
    if width > 0 {
      LittleEndianRoundTrip(p / 256, width - 1);
      assert LittleEndian(p, width)[1..] == LittleEndian(p / 256, width - 1);
    }
  }

  lemma {:induction false} FromLittleEndianBound(b: Bytes)
    ensures FromLittleEndian(b) < Power256(|b|)
  {
    if |b| > 0 {
      FromLittleEndianBound(b[1..]);
    }
  }

  function PidBytes(p: Pid): (b: Bytes)
    ensures |b| == 8
    ensures PidOf(b) == p
  {
    LittleEndianRoundTrip(p, 8);
    LittleEndian(p, 8)
  }

  function PidOf(b: Bytes): Pid
    requires |b| == 8
  {
    FromLittleEndianBound(b);
    FromLittleEndian(b)
  }

  // ----- well-formed nodes -----

  predicate Within(k: Bytes, lo: Bytes, hi: Bytes) {
    (lo == [] || Less(lo, k)) && (hi == [] || !Less(hi, k))
  }

  predicate Sorted(keys: seq<Bytes>) {
    forall i, j | 0 <= i < j < |keys| :: Less(keys[i], keys[j])
  }

  predicate WellFormed(n: Node) {
    && |n.keys| == |n.pays|
    && Sorted(n.keys)
    && (forall i | 0 <= i < |n.keys| :: n.keys[i] != [] && Within(n.keys[i], n.lo, n.hi))
    && (n.hi == [] || Less(n.lo, n.hi))
    && (!n.leaf ==> forall i | 0 <= i < |n.pays| :: |n.pays[i]| == 8)
  }

  /** Number of keys below `k`. */
  function LowerBound(keys: seq<Bytes>, k: Bytes): (p: nat)
    requires Sorted(keys)
    ensures p <= |keys|
    ensures forall i | 0 <= i < p :: Less(keys[i], k)
    ensures forall i | p <= i < |keys| :: !Less(keys[i], k)
  {
    LastBelowSpec(keys, k, |keys|);
    LastBelow(keys, k, |keys|)
  }

  function LastBelow(keys: seq<Bytes>, k: Bytes, n: nat): nat
    requires n <= |keys|
  {
    if n == 0 then 0 else if Less(keys[n - 1], k) then n else LastBelow(keys, k, n - 1)
  }

  lemma {:induction false} LastBelowSpec(keys: seq<Bytes>, k: Bytes, n: nat)
    requires Sorted(keys) && n <= |keys|
    ensures LastBelow(keys, k, n) <= n
    ensures forall i | 0 <= i < LastBelow(keys, k, n) :: Less(keys[i], k)
    ensures forall i | LastBelow(keys, k, n) <= i < n :: !Less(keys[i], k)
  {
    if n > 0 {
      if Less(keys[n - 1], k) {
        forall i | 0 <= i < n - 1 ensures Less(keys[i], k) { Transitive(keys[i], keys[n - 1], k); }
      } else {
        LastBelowSpec(keys, k, n - 1);
      }
    }
  }

  lemma LowerBoundUnique(keys: seq<Bytes>, k: Bytes, p: nat)
    requires Sorted(keys)
    requires p <= |keys|
    requires p > 0 ==> Less(keys[p - 1], k)
    requires p < |keys| ==> !Less(keys[p], k)
    ensures LowerBound(keys, k) == p
  {
    var q := LowerBound(keys, k);
    assert forall i | 0 <= i < p - 1 :: Less(keys[i], k) by {
      forall i | 0 <= i < p - 1 ensures Less(keys[i], k) { Transitive(keys[i], keys[p - 1], k); }
    }
  }

  predicate Found(keys: seq<Bytes>, k: Bytes)
    requires Sorted(keys)
  {
    var p := LowerBound(keys, k);
    p < |keys| && keys[p] == k
  }

  lemma FoundIffMember(keys: seq<Bytes>, k: Bytes)
    requires Sorted(keys)
    ensures Found(keys, k) <==> k in keys
  {
    if k in keys {
      var i :| 0 <= i < |keys| && keys[i] == k;
      Trichotomy(k, k);
      if i > 0 { assert Less(keys[i - 1], keys[i]); }
      LowerBoundUnique(keys, k, i);
    }
  }

  datatype Option<+T> = None | Some(value: T)

  /** What a leaf answers for a key. */
  function Get(n: Node, k: Bytes): Option<Bytes>
    requires WellFormed(n)
  {
    var p := LowerBound(n.keys, k);
    if p < |n.keys| && n.keys[p] == k then Some(n.pays[p]) else None
  }

  // ----- children of an inner node -----

  predicate Inner(n: Node) {
    WellFormed(n) && !n.leaf
  }

  function Kid(n: Node, i: nat): Pid
    requires Inner(n) && i <= |n.keys|
  {
    if i < |n.keys| then PidOf(n.pays[i]) else n.link
  }

  function KidLo(n: Node, i: nat): Bytes
    requires i <= |n.keys|
  {
    if i == 0 then n.lo else n.keys[i - 1]
  }

  function KidHi(n: Node, i: nat): Bytes
    requires i <= |n.keys|
  {
    if i < |n.keys| then n.keys[i] else n.hi
  }

  /** The slot a search for `k` ends at. */
  function Slot(n: Node, k: Bytes): (p: nat)
    requires WellFormed(n)
    ensures p <= |n.keys|
  {
    LowerBound(n.keys, k)
  }

  /** The child the code descends to. */
  function Route(n: Node, k: Bytes): Pid
    requires Inner(n)
  {
    Kid(n, Slot(n, k))
  }

  // ----- updates -----

  function InsertEntry(n: Node, k: Bytes, v: Bytes): Node
    requires WellFormed(n)
  {
    var p := LowerBound(n.keys, k);
    n.(keys := n.keys[..p] + [k] + n.keys[p..], pays := n.pays[..p] + [v] + n.pays[p..])
  }

  function RemoveAt(n: Node, p: nat): Node
    requires |n.keys| == |n.pays| && p < |n.keys|
  {
    n.(keys := n.keys[..p] + n.keys[p + 1..], pays := n.pays[..p] + n.pays[p + 1..])
  }

  function SetPay(n: Node, p: nat, v: Bytes): Node
    requires |n.keys| == |n.pays| && p < |n.keys|
  {
    n.(pays := n.pays[p := v])
  }

  function SetKid(n: Node, i: nat, c: Pid): Node
    requires |n.keys| == |n.pays| && i <= |n.keys|
  {
    if i < |n.keys| then SetPay(n, i, PidBytes(c)) else n.(link := c)
  }

  lemma InsertSorted(keys: seq<Bytes>, k: Bytes)
    requires Sorted(keys) && k !in keys
    ensures var p := LowerBound(keys, k); Sorted(keys[..p] + [k] + keys[p..])
  {
    var p := LowerBound(keys, k);
    forall j | p <= j < |keys| ensures Less(k, keys[j]) { Trichotomy(k, keys[j]); }
  }

  lemma InsertWellFormed(n: Node, k: Bytes, v: Bytes)
    requires WellFormed(n) && k != [] && Within(k, n.lo, n.hi) && k !in n.keys
    requires !n.leaf ==> |v| == 8
    ensures WellFormed(InsertEntry(n, k, v))
  {
    InsertSorted(n.keys, k);
  }

  lemma InsertLowerBound(keys: seq<Bytes>, k: Bytes, x: Bytes)
    requires Sorted(keys)
    requires var p := LowerBound(keys, k); Sorted(keys[..p] + [k] + keys[p..])
    ensures var p, q := LowerBound(keys, k), LowerBound(keys, x);
      LowerBound(keys[..p] + [k] + keys[p..], x) == if Less(k, x) then q + 1 else q
    ensures var p, q := LowerBound(keys, k), LowerBound(keys, x);
      if Less(k, x) then p <= q else q <= p
  {
    var p, q := LowerBound(keys, k), LowerBound(keys, x);
    var r := keys[..p] + [k] + keys[p..];
    if Less(k, x) {
      if q < p { Chain(keys[q], k, x); }
      assert r[q] == if q == p then k else keys[q - 1];
      LowerBoundUnique(r, x, q + 1);
    } else {
      if p < q { Chain(k, keys[p], x); }
      LowerBoundUnique(r, x, q);
    }
  }

  lemma InsertGet(n: Node, k: Bytes, v: Bytes, x: Bytes)
    requires WellFormed(n) && WellFormed(InsertEntry(n, k, v))
    ensures Get(InsertEntry(n, k, v), x) == if x == k then Some(v) else Get(n, x)
  {
    InsertLowerBound(n.keys, k, x);
    Trichotomy(x, k);
  }

  lemma RemoveWellFormed(n: Node, p: nat)
    requires WellFormed(n) && p < |n.keys|
    ensures WellFormed(RemoveAt(n, p))
  {
  }

  lemma RemoveGet(n: Node, p: nat, x: Bytes)
    requires WellFormed(n) && p < |n.keys| && WellFormed(RemoveAt(n, p))
    ensures Get(RemoveAt(n, p), x) == if x == n.keys[p] then None else Get(n, x)
  {
    var r := RemoveAt(n, p);
    var q := LowerBound(n.keys, x);
    var q' := if p < q then q - 1 else q;
    Trichotomy(x, n.keys[p]);
    assert q' < p ==> r.keys[q'] == n.keys[q'] && r.pays[q'] == n.pays[q'];
    assert p <= q' < |r.keys| ==> r.keys[q'] == n.keys[q' + 1] && r.pays[q'] == n.pays[q' + 1];
    LowerBoundUnique(r.keys, x, q');
  }

  lemma SetPayGet(n: Node, p: nat, v: Bytes, x: Bytes)
    requires WellFormed(n) && p < |n.keys| && (!n.leaf ==> |v| == 8)
    ensures WellFormed(SetPay(n, p, v))
    ensures Get(SetPay(n, p, v), x) == if x == n.keys[p] then Some(v) else Get(n, x)
  {
    Trichotomy(x, n.keys[p]);
    if x == n.keys[p] {
      if p > 0 { assert Less(n.keys[p - 1], n.keys[p]); }
      LowerBoundUnique(n.keys, x, p);
    }
  }

  // ----- split and merge -----

  /** `sep` separates the entries up to `slot` from the later ones; in an inner node it is the key at `slot`. */
  predicate GoodCut(n: Node, slot: nat, sep: Bytes) {
    && WellFormed(n) && slot < |n.keys| && sep != []
    && (n.hi == [] || Less(sep, n.hi))
    && if n.leaf then slot + 1 < |n.keys| && !Less(sep, n.keys[slot]) && Less(sep, n.keys[slot + 1])
       else sep == n.keys[slot]
  }

  function SplitLeft(n: Node, slot: nat, sep: Bytes, right: Pid): Node
    requires WellFormed(n) && slot < |n.keys|
  {
    if n.leaf then Node(true, n.lo, sep, n.keys[..slot + 1], n.pays[..slot + 1], right)
    else Node(false, n.lo, sep, n.keys[..slot], n.pays[..slot], Kid(n, slot))
  }

  function SplitRight(n: Node, slot: nat, sep: Bytes): Node
    requires WellFormed(n) && slot < |n.keys|
  {
    Node(n.leaf, sep, n.hi, n.keys[slot + 1..], n.pays[slot + 1..], n.link)
  }

  lemma SetKidWellFormed(n: Node, i: nat, c: Pid)
    requires Inner(n) && i <= |n.keys|
    ensures Inner(SetKid(n, i, c))
    ensures SetKid(n, i, c).keys == n.keys && SetKid(n, i, c).lo == n.lo && SetKid(n, i, c).hi == n.hi
    ensures Kid(SetKid(n, i, c), i) == c
    ensures forall j: nat | j <= |n.keys| && j != i :: Kid(SetKid(n, i, c), j) == Kid(n, j)
  {
  }

  /** The parent after a split: the child slot now points right, and a new entry points left. */
  function SplitParent(p: Node, sep: Bytes, left: Pid, right: Pid): Node
    requires Inner(p)
  {
    var j := Slot(p, sep);
    SetKidWellFormed(p, j, right);
    InsertEntry(SetKid(p, j, right), sep, PidBytes(left))
  }

  function MergeLeaves(l: Node, r: Node): Node {
    Node(l.leaf, l.lo, r.hi, l.keys + r.keys, l.pays + r.pays, r.link)
  }

  /** The parent after merging its children at `pos` and `pos + 1` into the left one. */
  function MergeParent(p: Node, pos: nat, left: Pid): Node
    requires |p.keys| == |p.pays| && pos + 1 < |p.keys|
  {
    RemoveAt(SetKid(p, pos + 1, left), pos)
  }

  lemma CutWithin(n: Node, slot: nat, sep: Bytes)
    requires GoodCut(n, slot, sep)
    ensures Within(sep, n.lo, n.hi) && Less(n.lo, sep)
  {
    Chain(n.lo, n.keys[slot], sep);
    NothingBelowEmpty(sep);
    NothingBelowEmpty(n.keys[slot]);
    if n.hi != [] { Trichotomy(sep, n.hi); }
  }

  lemma SplitWellFormed(n: Node, slot: nat, sep: Bytes, right: Pid)
    requires GoodCut(n, slot, sep)
    ensures WellFormed(SplitLeft(n, slot, sep, right)) && WellFormed(SplitRight(n, slot, sep))
  {
    CutWithin(n, slot, sep);
    var l, r := SplitLeft(n, slot, sep, right), SplitRight(n, slot, sep);
    forall i | 0 <= i < |l.keys| ensures Within(l.keys[i], l.lo, l.hi) {
      if i < slot { assert Less(n.keys[i], n.keys[slot]); }
      Chain(n.keys[i], n.keys[slot], sep);
      Trichotomy(n.keys[i], sep);
    }
    forall i | 0 <= i < |r.keys| ensures Within(r.keys[i], r.lo, r.hi) {
      assert r.keys[i] == n.keys[slot + 1 + i];
      assert Less(n.keys[slot], n.keys[slot + 1 + i]);
      if n.leaf && i > 0 {
        assert Less(n.keys[slot + 1], n.keys[slot + 1 + i]);
        Chain(sep, n.keys[slot + 1], n.keys[slot + 1 + i]);
      }
    }
  }

  /** Splitting a leaf divides what it answers at the separator; nothing is lost or moved across. */
  lemma SplitGet(n: Node, slot: nat, sep: Bytes, right: Pid, x: Bytes)
    requires GoodCut(n, slot, sep) && n.leaf
    requires WellFormed(SplitLeft(n, slot, sep, right)) && WellFormed(SplitRight(n, slot, sep))
    ensures !Less(sep, x) ==> Get(SplitLeft(n, slot, sep, right), x) == Get(n, x)
    ensures Less(sep, x) ==> Get(SplitRight(n, slot, sep), x) == Get(n, x)
  {
    var l, r := SplitLeft(n, slot, sep, right), SplitRight(n, slot, sep);
    var p := LowerBound(n.keys, x);
    if !Less(sep, x) {
      Chain(n.keys[slot + 1], x, sep);
      Chain(x, sep, n.keys[slot + 1]);
      Trichotomy(x, n.keys[slot + 1]);
      LowerBoundUnique(l.keys, x, p);
    } else {
      Chain(n.keys[slot], sep, x);
      LowerBoundUnique(r.keys, x, p - (slot + 1));
    }
  }

  lemma InsertKids(s: Node, sep: Bytes, c: Pid)
    requires Inner(s) && Inner(InsertEntry(s, sep, PidBytes(c)))
    ensures var q, j := InsertEntry(s, sep, PidBytes(c)), LowerBound(s.keys, sep);
      && (forall i: nat | i < j :: Kid(q, i) == Kid(s, i))
      && Kid(q, j) == c
      && (forall i: nat | j < i <= |q.keys| :: Kid(q, i) == Kid(s, i - 1))
  {
    var q, j := InsertEntry(s, sep, PidBytes(c)), LowerBound(s.keys, sep);
    assert forall i | j < i < |q.keys| :: q.pays[i] == s.pays[i - 1];
  }

  lemma RemoveKids(s: Node, pos: nat)
    requires Inner(s) && pos < |s.keys| && Inner(RemoveAt(s, pos))
    ensures forall i: nat | i < pos :: Kid(RemoveAt(s, pos), i) == Kid(s, i)
    ensures forall i: nat | pos <= i < |s.keys| :: Kid(RemoveAt(s, pos), i) == Kid(s, i + 1)
  {
  }

  /** The children of the parent after a split. */
  lemma SplitParentKids(p: Node, sep: Bytes, left: Pid, right: Pid)
    requires Inner(p) && sep != [] && Within(sep, p.lo, p.hi) && sep !in p.keys
    ensures var q, j := SplitParent(p, sep, left, right), Slot(p, sep);
      && Inner(q) && q.lo == p.lo && q.hi == p.hi
      && q.keys == p.keys[..j] + [sep] + p.keys[j..]
      && (forall i: nat | i < j :: Kid(q, i) == Kid(p, i))
      && Kid(q, j) == left && Kid(q, j + 1) == right
      && (forall i: nat | j + 1 < i <= |q.keys| :: Kid(q, i) == Kid(p, i - 1))
  {
    var s := SetKid(p, Slot(p, sep), right);
    SetKidWellFormed(p, Slot(p, sep), right);
    InsertWellFormed(s, sep, PidBytes(left));
    InsertKids(s, sep, left);
  }

  /** Where the gaps of the parent are after a split. */
  lemma SplitParentGaps(p: Node, sep: Bytes, left: Pid, right: Pid)
    requires Inner(p) && sep != [] && Within(sep, p.lo, p.hi) && sep !in p.keys
    ensures var q, j := SplitParent(p, sep, left, right), Slot(p, sep);
      && Inner(q) && |q.keys| == |p.keys| + 1
      && (forall i: nat | i < j :: KidLo(q, i) == KidLo(p, i) && KidHi(q, i) == KidHi(p, i))
      && KidLo(q, j) == KidLo(p, j) && KidHi(q, j) == sep
      && KidLo(q, j + 1) == sep && KidHi(q, j + 1) == KidHi(p, j)
      && (forall i: nat | j + 1 < i <= |q.keys| :: KidLo(q, i) == KidLo(p, i - 1) && KidHi(q, i) == KidHi(p, i - 1))
  {
    SplitParentKids(p, sep, left, right);
  }

  /** The two halves of an inner node keep its children and gaps. */
  lemma SplitKids(n: Node, slot: nat, sep: Bytes, right: Pid)
    requires GoodCut(n, slot, sep) && !n.leaf
    requires WellFormed(SplitLeft(n, slot, sep, right)) && WellFormed(SplitRight(n, slot, sep))
    ensures var l := SplitLeft(n, slot, sep, right);
      && |l.keys| == slot
      && (forall i: nat | i <= slot :: Kid(l, i) == Kid(n, i) && KidLo(l, i) == KidLo(n, i) && KidHi(l, i) == KidHi(n, i))
    ensures var r := SplitRight(n, slot, sep);
      && |r.keys| + slot + 1 == |n.keys|
      && (forall i: nat | i <= |r.keys| :: Kid(r, i) == Kid(n, slot + 1 + i)
            && KidLo(r, i) == KidLo(n, slot + 1 + i) && KidHi(r, i) == KidHi(n, slot + 1 + i))
  {
  }

  /** The children of the parent after a merge. */
  lemma MergeParentKids(p: Node, pos: nat, left: Pid)
    requires Inner(p) && pos + 1 < |p.keys|
    ensures var q := MergeParent(p, pos, left);
      && Inner(q) && q.lo == p.lo && q.hi == p.hi
      && q.keys == p.keys[..pos] + p.keys[pos + 1..]
      && (forall i: nat | i < pos :: Kid(q, i) == Kid(p, i))
      && Kid(q, pos) == left
      && (forall i: nat | pos < i <= |q.keys| :: Kid(q, i) == Kid(p, i + 1))
  {
    var s := SetKid(p, pos + 1, left);
    SetKidWellFormed(p, pos + 1, left);
    RemoveWellFormed(s, pos);
    RemoveKids(s, pos);
  }

  /** Where the gaps of the parent are after a merge. */
  lemma MergeParentGaps(p: Node, pos: nat, left: Pid)
    requires Inner(p) && pos + 1 < |p.keys|
    ensures var q := MergeParent(p, pos, left);
      && Inner(q) && |q.keys| == |p.keys| - 1
      && (forall i: nat | i < pos :: KidLo(q, i) == KidLo(p, i) && KidHi(q, i) == KidHi(p, i))
      && KidLo(q, pos) == KidLo(p, pos) && KidHi(q, pos) == KidHi(p, pos + 1)
      && (forall i: nat | pos < i <= |q.keys| :: KidLo(q, i) == KidLo(p, i + 1) && KidHi(q, i) == KidHi(p, i + 1))
  {
    MergeParentKids(p, pos, left);
  }

  lemma MergeWellFormed(l: Node, r: Node)
    requires WellFormed(l) && WellFormed(r) && l.leaf && r.leaf
    requires l.hi != [] && r.lo == l.hi
    ensures WellFormed(MergeLeaves(l, r))
  {
    var m := MergeLeaves(l, r);
    forall i, j | 0 <= i < j < |m.keys| ensures Less(m.keys[i], m.keys[j]) {
      if i < |l.keys| <= j { Chain(l.keys[i], l.hi, r.keys[j - |l.keys|]); }
    }
    NothingBelowEmpty(l.lo);
    forall i | 0 <= i < |m.keys| ensures Within(m.keys[i], m.lo, m.hi) {
      if i < |l.keys| {
        if r.hi != [] { Chain(l.keys[i], l.hi, r.hi); Trichotomy(l.keys[i], r.hi); }
      } else {
        Chain(l.lo, l.hi, r.keys[i - |l.keys|]);
      }
    }
    if r.hi != [] { Chain(l.lo, l.hi, r.hi); }
  }

  /** The merged leaf answers every key as the half that covers it did. */
  lemma MergeGet(l: Node, r: Node, x: Bytes)
    requires WellFormed(l) && WellFormed(r) && l.leaf && r.leaf
    requires l.hi != [] && r.lo == l.hi
    requires WellFormed(MergeLeaves(l, r))
    ensures Get(MergeLeaves(l, r), x) == if Less(l.hi, x) then Get(r, x) else Get(l, x)
  {
    var m := MergeLeaves(l, r);
    if Less(l.hi, x) {
      forall i | 0 <= i < |l.keys| ensures Less(l.keys[i], x) { Chain(l.keys[i], l.hi, x); }
      LowerBoundUnique(m.keys, x, |l.keys| + LowerBound(r.keys, x));
    } else {
      forall i | 0 <= i < |r.keys| ensures !Less(r.keys[i], x) && r.keys[i] != x {
        Chain(x, l.hi, r.keys[i]);
        Trichotomy(x, r.keys[i]);
      }
      LowerBoundUnique(m.keys, x, LowerBound(l.keys, x));
    }
  }
}
